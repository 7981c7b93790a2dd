/**
  `_abbreviates` (ember_armor/ledger/paths.py): whether a wildcarded operand abbreviates a
  name a pattern describes, by a worklist search over pairs of positions.  The two names
  come with their character classes already replaced by "?".
 */
module Abbreviations {
  import opened Prelude

  /** A pair of positions: how much of the operand and of the pattern is used up. */
  type Spot = (nat, nat)

  /** The character at `i`, if any (`a[i : i + 1]`). */
  predicate Is(a: string, i: nat, c: char) { i < |a| && a[i] == c }

  /** Every file of a directory: a pattern that is only wildcards. */
  predicate Anything(b: string) { forall j :: 0 <= j < |b| ==> b[j] == '*' || b[j] == '?' }

  /** The spots the search goes to from `s`, in the order it notes them. */
  function Steps(a: string, b: string, s: Spot): seq<Spot> {
    var (i, j) := s;
    if Is(a, i, '*') then [(i + 1, j)] + (if j < |b| then [(i, j + 1)] else [])
    else if Is(b, j, '*') then
      [(i, j + 1)] + (if i < |a| && (Anything(b) || a[i] == '?') then [(i + 1, j)] else [])
    else if i < |a| && j < |b| && (a[i] == b[j] || a[i] == '?' || b[j] == '?') then [(i + 1, j + 1)]
    else []
  }

  predicate On(a: string, b: string, s: Spot) { s.0 <= |a| && s.1 <= |b| }

  lemma StepsOn(a: string, b: string, s: Spot)
    requires On(a, b, s)
    ensures forall q :: 0 <= q < |Steps(a, b, s)| ==>
              On(a, b, Steps(a, b, s)[q]) && Steps(a, b, s)[q].0 + Steps(a, b, s)[q].1 > s.0 + s.1
  {
  }

  /** The step relation leads from `s` to the end of both names. */
  predicate Reaches(a: string, b: string, s: Spot)
    requires On(a, b, s)
    decreases |a| + |b| - s.0 - s.1
  {
    StepsOn(a, b, s);
    s == (|a|, |b|) || exists q :: 0 <= q < |Steps(a, b, s)| && Reaches(a, b, Steps(a, b, s)[q])
  }

  lemma StepReaches(a: string, b: string, s: Spot, q: nat)
    requires On(a, b, s) && q < |Steps(a, b, s)|
    ensures On(a, b, Steps(a, b, s)[q]) && (Reaches(a, b, Steps(a, b, s)[q]) ==> Reaches(a, b, s))
  {
    StepsOn(a, b, s);
  }

  // ---- the search --------------------------------------------------------------------

  /** Every spot of the search. */
  function Grid(a: string, b: string): set<Spot> {
    set i: nat, j: nat | i <= |a| && j <= |b| :: (i, j)
  }

  /** Nothing is forgotten: what follows from a spot that was seen is seen or noted. */
  predicate Closed(a: string, b: string, seen: set<Spot>, todo: seq<Spot>) {
    (forall s :: s in seen ==> On(a, b, s) && s != (|a|, |b|)) &&
    (forall s, q :: s in seen && 0 <= q < |Steps(a, b, s)| ==>
      Steps(a, b, s)[q] in seen || Steps(a, b, s)[q] in todo) &&
    (forall s :: s in todo ==> On(a, b, s))
  }

  lemma {:induction false} NothingReached(a: string, b: string, seen: set<Spot>, s: Spot)
    requires Closed(a, b, seen, []) && s in seen
    ensures !Reaches(a, b, s)
    decreases |a| + |b| - s.0 - s.1
  {
    StepsOn(a, b, s);
    forall q | 0 <= q < |Steps(a, b, s)| ensures !Reaches(a, b, Steps(a, b, s)[q]) {
      NothingReached(a, b, seen, Steps(a, b, s)[q]);
    }
  }

  /** What was noted can be reached from the start. */
  predicate Leads(a: string, b: string, s: Spot)
    requires On(a, b, s)
  {
    Reaches(a, b, s) ==> Reaches(a, b, (0, 0))
  }

  predicate AllLead(a: string, b: string, todo: seq<Spot>) {
    forall s :: s in todo ==> On(a, b, s) && Leads(a, b, s)
  }

  /** A spot that was seen before can be left out of the search. */
  lemma SkipSeen(a: string, b: string, seen: set<Spot>, todo: seq<Spot>)
    requires todo != [] && Closed(a, b, seen, todo) && Last(todo) in seen && AllLead(a, b, todo)
    ensures Closed(a, b, seen, Init(todo)) && AllLead(a, b, Init(todo))
    ensures forall s :: s in todo ==> s in seen || s in Init(todo)
  {
    assert todo == Init(todo) + [Last(todo)];
  }

  /** A new spot that is not the end is seen now, and its steps are noted. */
  lemma GoOn(a: string, b: string, seen: set<Spot>, todo: seq<Spot>)
    requires todo != [] && Closed(a, b, seen, todo) && AllLead(a, b, todo) && Last(todo) != (|a|, |b|)
    ensures var s := Last(todo);
            Closed(a, b, seen + {s}, Init(todo) + Steps(a, b, s)) && AllLead(a, b, Init(todo) + Steps(a, b, s)) &&
            s in Grid(a, b) && forall t :: t in todo ==> t == s || t in Init(todo) + Steps(a, b, s)
  {
    var s := Last(todo);
    var next := Steps(a, b, s);
    assert todo == Init(todo) + [s];
    StepsOn(a, b, s);
    forall t | t in next ensures On(a, b, t) && Leads(a, b, t) {
      var q :| 0 <= q < |next| && next[q] == t;
      if Reaches(a, b, t) { StepReaches(a, b, s, q); }
    }
  }

  method Abbreviates(a: string, b: string) returns (r: bool)
    ensures r == Reaches(a, b, (0, 0))
  {
    hide Closed, AllLead, Steps, Leads;
    var seen: set<Spot> := {};
    var todo: seq<Spot> := [(0, 0)];
    Begin(a, b);
    while todo != []
      invariant Closed(a, b, seen, todo) && AllLead(a, b, todo) && seen <= Grid(a, b)
      invariant (0, 0) in seen || (0, 0) in todo
      decreases Grid(a, b) - seen, |todo|
    {
      var s := Last(todo);
      if s in seen {
        SkipSeen(a, b, seen, todo);
        todo := Init(todo);
      } else if s == (|a|, |b|) {
        Arrives(a, b, todo);
        return true;
      } else {
        GoOn(a, b, seen, todo);
        seen := seen + {s};
        todo := Init(todo) + Steps(a, b, s);
      }
    }
    NothingReached(a, b, seen, (0, 0));
    r := false;
  }

  lemma Begin(a: string, b: string)
    ensures Closed(a, b, {}, [(0, 0)]) && AllLead(a, b, [(0, 0)])
  {
  }

  lemma Arrives(a: string, b: string, todo: seq<Spot>)
    requires todo != [] && AllLead(a, b, todo) && Last(todo) == (|a|, |b|)
    ensures Reaches(a, b, (0, 0))
  {
    assert Leads(a, b, Last(todo)) && Reaches(a, b, Last(todo));
  }

  // ---- what it means ---------------------------------------------------------------------

  /** `name` fits the glob: "*" is any run of characters and "?" any one, without a slash. */
  predicate Fits(glob: string, name: string)
    decreases |glob| + |name|
  {
    if glob == [] then name == []
    else if glob[0] == '*' then
      Fits(glob[1..], name) || (name != [] && name[0] != '/' && Fits(glob, name[1..]))
    else name != [] && (if glob[0] == '?' then name[0] != '/' else name[0] == glob[0]) && Fits(glob[1..], name[1..])
  }

  /** A character that fits both. */
  function Common(x: char, y: char): char {
    if x != '?' then x else if y != '?' then y else 'x'
  }

  predicate TakesChar(token: char, c: char) { if token == '*' || token == '?' then c != '/' else c == token }

  /**
    `name` fits both globs, each character taken by one token of each; a star of `b` takes
    literal text of `a` only when it is `free` to.
   */
  predicate Aligned(a: string, b: string, free: bool, name: string)
    decreases |a| + |b| + |name|
  {
    (a == [] && b == [] && name == []) ||
    (a != [] && a[0] == '*' && Aligned(a[1..], b, free, name)) ||
    (b != [] && b[0] == '*' && Aligned(a, b[1..], free, name)) ||
    (a != [] && b != [] && name != [] && TakesChar(a[0], name[0]) && TakesChar(b[0], name[0]) &&
     (b[0] == '*' && a[0] != '*' && a[0] != '?' ==> free) &&
     Aligned(if a[0] == '*' then a else a[1..], if b[0] == '*' then b else b[1..], free, name[1..]))
  }

  lemma {:induction false} AlignedFits(a: string, b: string, free: bool, name: string)
    requires Aligned(a, b, free, name)
    ensures Fits(a, name) && Fits(b, name)
    decreases |a| + |b| + |name|
  {
    if a == [] && b == [] && name == [] {
    } else if a != [] && a[0] == '*' && Aligned(a[1..], b, free, name) {
      AlignedFits(a[1..], b, free, name);
    } else if b != [] && b[0] == '*' && Aligned(a, b[1..], free, name) {
      AlignedFits(a, b[1..], free, name);
    } else {
      AlignedFits(if a[0] == '*' then a else a[1..], if b[0] == '*' then b else b[1..], free, name[1..]);
    }
  }

  /** One character more in front. */
  lemma AlignedMore(a: string, b: string, i: nat, j: nat, free: bool, c: char, rest: string)
    requires i < |a| && j < |b| && TakesChar(a[i], c) && TakesChar(b[j], c)
    requires b[j] == '*' && a[i] != '*' && a[i] != '?' ==> free
    requires Aligned(a[if a[i] == '*' then i else i + 1..], b[if b[j] == '*' then j else j + 1..], free, rest)
    ensures Aligned(a[i..], b[j..], free, [c] + rest)
  {
    assert a[i..][1..] == a[i + 1..] && b[j..][1..] == b[j + 1..] && ([c] + rest)[1..] == rest;
  }

  lemma AlignedSkips(a: string, b: string, i: nat, j: nat, free: bool, name: string)
    requires i <= |a| && j <= |b|
    ensures i < |a| && a[i] == '*' && Aligned(a[i + 1..], b[j..], free, name) ==> Aligned(a[i..], b[j..], free, name)
    ensures j < |b| && b[j] == '*' && Aligned(a[i..], b[j + 1..], free, name) ==> Aligned(a[i..], b[j..], free, name)
  {
    assert i < |a| ==> a[i..][1..] == a[i + 1..];
    assert j < |b| ==> b[j..][1..] == b[j + 1..];
  }

  lemma {:induction false} ReachedName(a: string, b: string, s: Spot) returns (name: string)
    requires '/' !in a && '/' !in b && On(a, b, s) && Reaches(a, b, s)
    ensures Aligned(a[s.0..], b[s.1..], Anything(b), name)
    decreases |a| + |b| - s.0 - s.1
  {
    var (i, j) := s;
    if s == (|a|, |b|) { return ""; }
    StepsOn(a, b, s);
    var q :| 0 <= q < |Steps(a, b, s)| && Reaches(a, b, Steps(a, b, s)[q]);
    var t := Steps(a, b, s)[q];
    var rest := ReachedName(a, b, t);
    hide Aligned, Reaches, Anything;
    AlignedSkips(a, b, i, j, Anything(b), rest);
    if (t.0 == i && b[j] == '*') || (t.1 == j && a[i] == '*') { return rest; }
    var c := Common(if t.0 == i then '?' else a[i], if t.1 == j then '?' else b[j]);
    assert a[i] in a && b[j] in b;
    AlignedMore(a, b, i, j, Anything(b), c, rest);
    name := [c] + rest;
  }

  ghost predicate ShareAnAlignment(a: string, b: string) { exists name :: Aligned(a, b, Anything(b), name) }

  /**
    An operand abbreviates a pattern exactly if some name fits both with no literal text of
    the operand under a star of the pattern; under a pattern of wildcards only, it may be.
   */
  lemma AbbreviatesExactly(a: string, b: string)
    requires '/' !in a && '/' !in b
    ensures Reaches(a, b, (0, 0)) <==> ShareAnAlignment(a, b)
  {
    assert a[0..] == a && b[0..] == b;
    if Reaches(a, b, (0, 0)) {
      var name := ReachedName(a, b, (0, 0));
    }
    if ShareAnAlignment(a, b) {
      var name :| Aligned(a, b, Anything(b), name);
      AlignedReaches(a, b, (0, 0), name);
    }
  }

  /** An operand that abbreviates a pattern has an expansion the pattern describes. */
  lemma AbbreviatesSomeName(a: string, b: string) returns (name: string)
    requires '/' !in a && '/' !in b && Reaches(a, b, (0, 0))
    ensures Fits(a, name) && Fits(b, name)
  {
    name := ReachedName(a, b, (0, 0));
    assert a[0..] == a && b[0..] == b;
    AlignedFits(a, b, Anything(b), name);
  }

  lemma Goes(a: string, b: string, s: Spot, t: Spot)
    requires On(a, b, s) && t in Steps(a, b, s) && On(a, b, t) && Reaches(a, b, t)
    ensures Reaches(a, b, s)
  {
    var q :| 0 <= q < |Steps(a, b, s)| && Steps(a, b, s)[q] == t;
    StepReaches(a, b, s, q);
  }

  lemma {:induction false} AlignedReaches(a: string, b: string, s: Spot, name: string)
    requires On(a, b, s) && Aligned(a[s.0..], b[s.1..], Anything(b), name)
    ensures Reaches(a, b, s)
    decreases |name|, |a| + |b| - s.0 - s.1
  {
    var (i, j) := s;
    var x, y, free := a[i..], b[j..], Anything(b);
    assert x != [] ==> x[1..] == a[i + 1..];
    assert y != [] ==> y[1..] == b[j + 1..];
    if x == [] && y == [] && name == [] {
      assert s == (|a|, |b|);
    } else if x != [] && x[0] == '*' && Aligned(x[1..], y, free, name) {
      AlignedReaches(a, b, (i + 1, j), name);
      Goes(a, b, s, (i + 1, j));
    } else if y != [] && y[0] == '*' && Aligned(x, y[1..], free, name) {
      AlignedReaches(a, b, (i, j + 1), name);
      Goes(a, b, s, (i, j + 1));
    } else {
      var t := (if x[0] == '*' then i else i + 1, if y[0] == '*' then j else j + 1);
      AlignedReaches(a, b, t, name[1..]);
      if t != s { Goes(a, b, s, t); }
    }
  }

  /** Under a star that is free, what fits both is aligned. */
  lemma {:induction false} FitsAligned(a: string, b: string, name: string)
    requires Anything(b) && Fits(a, name) && Fits(b, name)
    ensures Aligned(a, b, true, name)
    decreases |a| + |b| + |name|
  {
    if a != [] && a[0] == '*' && Fits(a[1..], name) {
      FitsAligned(a[1..], b, name);
    } else if b != [] && b[0] == '*' && Fits(b[1..], name) {
      FitsAligned(a, b[1..], name);
    } else if name != [] {
      FitsAligned(if a[0] == '*' then a else a[1..], if b[0] == '*' then b else b[1..], name[1..]);
    }
  }

  ghost predicate ShareAName(a: string, b: string) { exists name :: Fits(a, name) && Fits(b, name) }

  /** Against a pattern that is only wildcards, the search finds exactly the operands that
      share a name with it. */
  lemma WildcardsShareANameExactly(a: string, b: string)
    requires '/' !in a && Anything(b)
    ensures Reaches(a, b, (0, 0)) <==> ShareAName(a, b)
  {
    assert a[0..] == a && b[0..] == b;
    if Reaches(a, b, (0, 0)) {
      var name := AbbreviatesSomeName(a, b);
    }
    if ShareAName(a, b) {
      var name :| Fits(a, name) && Fits(b, name);
      FitsAligned(a, b, name);
      AlignedReaches(a, b, (0, 0), name);
    }
  }

  /** Two names that share one and still do not abbreviate each other, like `readme*` and `*key*.pem`. */
  lemma LiteralsMustMeet()
    ensures Fits("r*", "r.k") && Fits("*k", "r.k") && !Reaches("r*", "*k", (0, 0))
  {
    var a, b := "r*", "*k";
    assert Fits("*k", "r.k") by {
      assert "r.k"[1..] == ".k" && ".k"[1..] == "k" && Fits("*k", "k") && Fits("*k", ".k");
    }
    assert Fits("r*", "r.k") by {
      assert "r.k"[1..] == ".k" && "r*"[1..] == "*" && Fits("*", "") && Fits("*", "k") && Fits("*", ".k");
    }
    assert Steps(a, b, (0, 1)) == [] && !Reaches(a, b, (0, 1));
    assert Steps(a, b, (0, 0)) == [(0, 1)];
  }
}
