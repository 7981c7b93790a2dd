/**
  The repository of a directory (ember_armor/ledger/repo.py): the walk up through the parents,
  with and without the answers remembered from earlier walks.
 */
module Repositories {
  import opened Prelude

  /** `UNKNOWN_DIR`: a directory nobody looked for. */
  const UNKNOWN := "?"

  predicate EndsInSlash(d: string) { d != "" && Last(d) == '/' }

  /** `d.rsplit("/", 1)[0]`: what stands before the last slash, everything when there is none. */
  function Head(d: string): string {
    if '/' !in d then d else if Last(d) == '/' then Init(d) else Head(Init(d))
  }

  function Parent(d: string): Option<string> {
    if EndsInSlash(d) then None
    else
      var head := Head(d);
      if head == "" then Some("/") else if Drive(head) then Some(head + "/") else Some(head)
  }

  predicate Drive(head: string) { |head| == 2 && head[1] == ':' }

  // ---- where the walk ends -------------------------------------------------------------

  /** What stands before the first slash. */
  function First(d: string): string {
    if d == "" || d[0] == '/' then "" else [d[0]] + First(d[1..])
  }

  predicate HasEmptySegment(d: string) { exists i :: 0 < i < |d| && d[i] == '/' && d[i - 1] == '/' }

  /** A path with a root: every normalised path has one. */
  predicate Rooted(d: string) { EndsInSlash(d) || First(d) == "" || Drive(First(d)) || HasEmptySegment(d) }

  function Rank(d: string): nat { if EndsInSlash(d) then 0 else |d| + 1 }

  lemma {:induction false} HeadOf(d: string)
    ensures '/' in d ==> |Head(d)| < |d| && Head(d) == d[..|Head(d)|] && d[|Head(d)|] == '/'
    ensures forall k :: |Head(d)| < k < |d| ==> d[k] != '/'
    decreases |d|
  {
    if '/' in d && Last(d) != '/' {
      assert d == Init(d) + [Last(d)];
      HeadOf(Init(d));
    }
  }

  lemma {:induction false} FirstOf(d: string)
    ensures |First(d)| <= |d| && First(d) == d[..|First(d)|] && '/' !in First(d)
    ensures |First(d)| < |d| ==> d[|First(d)|] == '/'
    decreases |d|
  {
    if d != "" && d[0] != '/' {
      FirstOf(d[1..]);
      assert d == [d[0]] + d[1..];
    }
  }

  lemma DriveIsFirst(d: string)
    requires Drive(d) && d[0] != '/'
    ensures First(d) == d
  {
    assert First(d) == [d[0]] + First(d[1..]);
    assert First(d[1..]) == [d[1]] + First(d[2..]);
  }

  /** Going up keeps what stands before the first slash. */
  lemma FirstOfHead(d: string)
    requires '/' in d && Head(d) != ""
    ensures d[0] == '/' || First(Head(d)) == First(d)
  {
    HeadOf(d);
    FirstOf(d);
    FirstOf(Head(d));
  }

  /** From a rooted path one always comes to a shorter rooted path, or to the end. */
  lemma ParentOfRooted(d: string)
    requires Rooted(d) && Parent(d).Some?
    ensures Rooted(Parent(d).value) && Rank(Parent(d).value) < Rank(d)
  {
    var head := Head(d);
    HeadOf(d);
    FirstOf(d);
    if head != "" && !Drive(head) {
      if '/' in d {
        FirstOfHead(d);
        if HasEmptySegment(d) {
          var i :| 0 < i < |d| && d[i] == '/' && d[i - 1] == '/';
          assert i < |head| ==> head[i] == d[i] && head[i - 1] == d[i - 1];
        }
      }
    }
  }

  /** From any other path one never comes to the end. */
  lemma ParentOfUnrooted(d: string)
    requires !Rooted(d)
    ensures Parent(d).Some? && !Rooted(Parent(d).value)
  {
    var head := Head(d);
    HeadOf(d);
    FirstOf(d);
    FirstOf(head);
    if '/' in d {
      assert head != "" by { assert d[0] == '/' ==> First(d) == ""; }
      FirstOfHead(d);
      assert First(head) == First(d);
      assert !Drive(head) by { if Drive(head) { DriveIsFirst(head); } }
      assert forall i :: 0 <= i < |head| ==> head[i] == d[i];
      assert d[|head|] == '/';
    }
  }

  function Above(d: string, n: nat): Option<string> {
    if n == 0 then Some(d) else match Above(d, n - 1) case None => None case Some(p) => Parent(p)
  }

  /** The walk up comes to an end exactly for the paths that have a root. */
  lemma WalkEndsExactly(d: string)
    ensures Rooted(d) <==> exists n :: Above(d, n).None?
  {
    if Rooted(d) {
      var n := EndOf(d);
    } else {
      forall n: nat ensures Above(d, n).Some? { NeverEnds(d, n); }
    }
  }

  lemma {:induction false} NeverEnds(d: string, n: nat)
    requires !Rooted(d)
    ensures Above(d, n).Some? && !Rooted(Above(d, n).value)
  {
    if n > 0 {
      NeverEnds(d, n - 1);
      ParentOfUnrooted(Above(d, n - 1).value);
    }
  }

  lemma {:induction false} EndOf(d: string) returns (n: nat)
    requires Rooted(d)
    ensures Above(d, n).None?
    decreases Rank(d)
  {
    if Parent(d).None? {
      n := 1;
      assert Above(d, 0) == Some(d);
    } else {
      ParentOfRooted(d);
      var m := EndOf(Parent(d).value);
      AboveParent(d, m);
      n := m + 1;
    }
  }

  lemma {:induction false} AboveParent(d: string, n: nat)
    requires Parent(d).Some?
    ensures Above(d, n + 1) == Above(Parent(d).value, n)
  {
    if n > 0 {
      AboveParent(d, n - 1);
    } else {
      assert Above(d, 0) == Some(d);
    }
  }

  // ---- find_root -----------------------------------------------------------------------

  /** A directory holds `.git`, it does not, or the filesystem will not say. */
  type Probe = string -> Option<bool>

  datatype Answer = Found(root: Option<string>) | Failed

  /** The nearest directory at or above that holds `.git`, asked for afresh. */
  function Nearest(d: string, probe: Probe): Answer
    requires Rooted(d)
    decreases Rank(d)
  {
    match probe(d)
    case None => Failed
    case Some(true) => Found(Some(d))
    case Some(false) =>
      if Parent(d).None? then Found(None) else ParentOfRooted(d); Nearest(Parent(d).value, probe)
  }

  predicate SaysNo(d: string, probe: Probe, n: nat) { Above(d, n).Some? && probe(Above(d, n).value) == Some(false) }

  /** The first directory on the way up that does not say no. */
  predicate FirstAnswer(d: string, probe: Probe, n: nat) {
    Above(d, n).Some? && !SaysNo(d, probe, n) && forall m: nat :: m < n ==> SaysNo(d, probe, m)
  }

  lemma {:induction false} AboveEnded(d: string, n: nat, m: nat)
    requires Above(d, n).None? && n <= m
    ensures Above(d, m).None?
    decreases m
  {
    if n < m { AboveEnded(d, n, m - 1); }
  }

  /** The walk as a search: how far up the answer is, or that every directory says no. */
  lemma {:induction false} Search(d: string, probe: Probe) returns (n: nat)
    requires Rooted(d)
    ensures !SaysNo(d, probe, n) && forall m: nat :: m < n ==> SaysNo(d, probe, m)
    ensures Nearest(d, probe) ==
            if Above(d, n).None? then Found(None)
            else if probe(Above(d, n).value).None? then Failed
            else Found(Above(d, n))
    decreases Rank(d)
  {
    assert Above(d, 0) == Some(d);
    if probe(d) != Some(false) {
      n := 0;
    } else if Parent(d).None? {
      n := 1;
    } else {
      ParentOfRooted(d);
      n := Search(Parent(d).value, probe);
      AboveParent(d, n);
      forall m: nat | m < n + 1 ensures SaysNo(d, probe, m) {
        if m > 0 {
          AboveParent(d, m - 1);
          assert SaysNo(Parent(d).value, probe, m - 1);
        }
      }
      n := n + 1;
    }
  }

  lemma OneFirst(d: string, probe: Probe, n: nat, m: nat)
    requires FirstAnswer(d, probe, n) && FirstAnswer(d, probe, m)
    ensures n == m
  {
  }

  /**
    The repository of a directory is the nearest one at or above it that holds `.git`: the first
    directory on the way up that does not say no decides, and there is none exactly if all say no.
   */
  lemma NearestIsTheFirst(d: string, probe: Probe, root: string)
    requires Rooted(d)
    ensures Nearest(d, probe) == Found(Some(root)) <==>
            exists n :: FirstAnswer(d, probe, n) && Above(d, n) == Some(root) && probe(root) == Some(true)
    ensures Nearest(d, probe) == Found(None) <==> forall n :: !FirstAnswer(d, probe, n)
    ensures Nearest(d, probe) == Failed <==>
            exists n :: FirstAnswer(d, probe, n) && probe(Above(d, n).value).None?
  {
    var n := Search(d, probe);
    if Above(d, n).Some? {
      assert FirstAnswer(d, probe, n);
      match probe(Above(d, n).value) {
        case None =>
        case Some(holds) => assert holds;
      }
      forall m: nat | FirstAnswer(d, probe, m) ensures m == n { OneFirst(d, probe, n, m); }
    } else {
      forall m: nat ensures !FirstAnswer(d, probe, m) {
        if m < n { assert SaysNo(d, probe, m); } else { AboveEnded(d, n, m); }
      }
    }
  }

  /** Going up takes off the last name; the slash in front of it stays at the root and behind a drive. */
  lemma ParentTakesOffOneName(d: string)
    requires '/' in d && Last(d) != '/'
    ensures Parent(d).Some?
    ensures var up := Parent(d).value;
            exists name: string :: '/' !in name &&
              (d == up + "/" + name ||
               (d == up + name && (up == "/" || (|up| == 3 && up[1] == ':' && up[2] == '/'))))
  {
    HeadOf(d);
    var head := Head(d);
    var name := d[|head| + 1..];
    assert d == head + "/" + name;
    if head == "" { assert d == "/" + name; }
    if Drive(head) { assert d == head + "/" + name; }
  }

  predicate NotLookedUp(d: string) { "//" <= d || '$' in d || d == UNKNOWN }

  function Root(d: string, probe: Probe): Answer
    requires NotLookedUp(d) || Rooted(d)
  {
    if NotLookedUp(d) then Found(Some(UNKNOWN)) else Nearest(d, probe)
  }

  predicate OnDrive(letter: char -> bool, d: string) { |d| >= 3 && d[1] == ':' && d[2] == '/' && letter(d[0]) }

  /** A path on a drive has a root, and so has every directory above it on the same drive. */
  lemma DrivesAreRooted(letter: char -> bool, d: string)
    requires OnDrive(letter, d) && !letter('/')
    ensures Rooted(d) && (Parent(d).Some? ==> OnDrive(letter, Parent(d).value) && Parent(d).value[0] == d[0])
  {
    assert First(d) == [d[0]] + First(d[1..]);
    assert First(d[1..]) == [d[1]] + First(d[2..]);
    HeadOf(d);
  }

  /** Nothing is asked about a path with a variable or one of another machine, whatever stands behind. */
  lemma UnclearPathsAreNotProbed(a: string, b: string, probe: Probe)
    ensures Root(a + "$" + b, probe) == Root("//" + b, probe) == Root("?", probe) == Found(Some("?"))
    ensures Rooted(a) && '$' !in a && (a == "/" || (|a| > 1 && a[1] != '/')) ==> Root(a, probe) == Nearest(a, probe)
  {
    assert (a + "$" + b)[|a|] == '$';
    assert "//" <= "//" + b;
  }

  type Seen = map<string, Option<string>>

  predicate Right(seen: Seen, probe: Probe) {
    forall d :: d in seen ==> Rooted(d) && Nearest(d, probe) == Found(seen[d])
  }

  function Dict(keys: seq<string>, root: Option<string>): Seen { map d | d in keys :: root }

  predicate Distinct(s: seq<string>) { forall i, j :: 0 <= i < j < |s| ==> s[i] != s[j] }

  lemma DistinctBoth(a: seq<string>, b: seq<string>)
    requires Distinct(a) && Distinct(b) && forall d :: d in b ==> d !in a
    ensures Distinct(a + b)
  {
    forall i, j | 0 <= i < j < |a + b| ensures (a + b)[i] != (a + b)[j] {
      if i < |a| <= j { assert b[j - |a|] in b; }
    }
  }

  /** The answer is the one of a walk that remembers nothing, whatever is remembered. */
  method FindRoot(directory: string, probe: Probe, seen: Option<Seen>)
      returns (answer: Answer, after: Option<Seen>, ghost asked: seq<string>)
    requires NotLookedUp(directory) || Rooted(directory)
    requires seen.Some? ==> Right(seen.value, probe)
    ensures answer == Root(directory, probe)
    ensures after.Some? <==> seen.Some?
    ensures after.Some? ==> Right(after.value, probe)
    ensures answer.Failed? ==> after == seen
    ensures Distinct(asked) && (seen.Some? ==> forall d :: d in asked ==> d !in seen.value)
    ensures answer.Found? && seen.Some? ==>
              after.value.Keys == seen.value.Keys + (set d | d in asked) &&
              forall d :: d in seen.value ==> after.value[d] == seen.value[d]
  {
    if NotLookedUp(directory) { return Found(Some(UNKNOWN)), seen, []; }
    var passed: seq<string> := [];
    var root: Option<string> := None;
    var current := Some(directory);
    while current.Some?
      invariant current.Some? ==> Rooted(current.value) && Nearest(current.value, probe) == Nearest(directory, probe)
      invariant current.None? ==> Nearest(directory, probe) == Found(None)
      invariant forall d :: d in passed ==> Rooted(d) && Nearest(d, probe) == Nearest(directory, probe)
      invariant forall i :: 0 <= i < |passed| && current.Some? ==> Rank(passed[i]) > Rank(current.value)
      invariant Distinct(passed) && (seen.Some? ==> forall d :: d in passed ==> d !in seen.value)
      invariant root == None
      decreases if current.Some? then 1 else 0, if current.Some? then Rank(current.value) else 0
    {
      var d := current.value;
      if seen.Some? && d in seen.value {
        root := seen.value[d];
        break;
      }
      var holds := probe(d);
      passed := passed + [d];
      if holds.None? { return Failed, seen, passed; }
      if holds.value {
        root := Some(d);
        break;
      }
      if Parent(d).Some? { ParentOfRooted(d); }
      current := Parent(d);
    }
    answer, after, asked := Found(root), seen, passed;
    if seen.Some? {
      after := Some(seen.value + Dict(passed, root));
    }
  }

  // ---- finder --------------------------------------------------------------------------

  /** The lookup of one path flavour, with one memory for all calls. */
  class Finder {
    const windows: bool
    const probe: Probe
    const letter: char -> bool
    var seen: Seen
    /** What the answered lookups asked the filesystem, in order. */
    ghost var asked: seq<string>

    ghost predicate Valid()
      reads this
    {
      Right(seen, probe) && Distinct(asked) && forall d :: d in asked <==> d in seen
    }

    constructor (windows: bool, probe: Probe, letter: char -> bool)
      ensures Valid() && this.windows == windows && this.probe == probe && this.letter == letter && asked == []
    {
      this.windows, this.probe, this.letter := windows, probe, letter;
      seen, asked := map[], [];
    }

    /** A lookup answers as if it were the first; the ones with an answer ask about a directory once in all. */
    method Find(directory: string) returns (answer: Answer)
      requires Valid() && (NotLookedUp(directory) || Rooted(directory))
      modifies this
      ensures Valid()
      ensures answer == if windows && !OnDrive(letter, directory) then Found(Some(UNKNOWN)) else Root(directory, probe)
      ensures answer.Failed? ==> seen == old(seen) && asked == old(asked)
      ensures old(asked) <= asked && forall d :: d in old(seen) ==> d in seen && seen[d] == old(seen)[d]
    {
      if windows && !OnDrive(letter, directory) { return Found(Some(UNKNOWN)); }
      ghost var more;
      var after;
      answer, after, more := FindRoot(directory, probe, Some(seen));
      if answer.Found? {
        DistinctBoth(asked, more);
        seen := after.value;
        asked := asked + more;
      }
    }
  }
}
