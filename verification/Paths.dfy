/**
  Directories as the shell analysis names them: the segment loop of
  `normalize` (ember_armor/ledger/paths.py) and `_Places.directory` and
  `_Places.follow` (ember_armor/ledger/shellpaths.py), POSIX flavour.
 */
module Paths {
  import opened Prelude

  /** One piece of a path between slashes.  `Here` is "" or ".", `Up` is "..",
      and `Open` still holds a variable nobody could resolve. */
  datatype Segment = Here | Up | Open(text: string) | Name(text: string)

  predicate Clean(d: seq<Segment>) {
    forall i :: 0 <= i < |d| ==> d[i].Name?
  }

  /** A directory that really exists: plain names below the root. */
  type Dir = d: seq<Segment> | Clean(d) witness []

  predicate Literal(rest: seq<Segment>) {
    forall i :: 0 <= i < |rest| ==> !rest[i].Open?
  }

  // ---- normalize ---------------------------------------------------------

  /** One turn of the segment loop. */
  function Push(segments: seq<Segment>, s: Segment): seq<Segment> {
    match s
    case Here => segments
    case Up =>
      if segments == [] then []
      else if Last(segments).Up? || Last(segments).Open? then segments + [Up]
      else Init(segments)
    case _ => segments + [s]
  }

  function Resolve(base: seq<Segment>, rest: seq<Segment>): seq<Segment>
    decreases rest
  {
    if rest == [] then base else Resolve(Push(base, rest[0]), rest[1..])
  }

  method Normalize(base: seq<Segment>, absolute: bool, text: seq<Segment>) returns (segments: seq<Segment>)
    ensures segments == Resolve(Resolve([], if absolute then [] else base), text)
  {
    var rest := if absolute then text else base + text;
    segments := [];
    var i := 0;
    while i < |rest|
      invariant 0 <= i <= |rest|
      invariant Resolve(segments, rest[i..]) == Resolve([], rest)
    {
      var segment := rest[i];
      if segment == Here {
      } else if segment == Up {
        if segments != [] && (Last(segments).Up? || Last(segments).Open?) {
          segments := segments + [segment];
        } else if segments != [] {
          segments := Init(segments);
        }
      } else {
        segments := segments + [segment];
      }
      i := i + 1;
    }
    if !absolute { ResolveInTwo([], base, text); }
  }

  lemma {:induction false} ResolveInTwo(start: seq<Segment>, a: seq<Segment>, b: seq<Segment>)
    ensures Resolve(start, a + b) == Resolve(Resolve(start, a), b)
    decreases a
  {
    if a == [] {
      assert a + b == b;
    } else {
      assert (a + b)[1..] == a[1..] + b;
      ResolveInTwo(Push(start, a[0]), a[1..], b);
    }
  }

  /** Normalising names only names, and what is normal stays as it is. */
  lemma {:induction false} ResolveClean(base: Dir, rest: seq<Segment>)
    requires Literal(rest)
    ensures Clean(Resolve(base, rest))
    decreases rest
  {
    if rest != [] {
      ResolveClean(Push(base, rest[0]), rest[1..]);
    }
  }

  lemma {:induction false} NormalStays(before: Dir, d: Dir)
    ensures Resolve(before, d) == before + d
    decreases |d|
  {
    if d != [] {
      NormalStays(before + [d[0]], d[1..]);
      assert before + d == before + [d[0]] + d[1..];
    }
  }

  /** A segment that was not resolved is never climbed over: it is still there at the end. */
  lemma {:induction false} OpenSurvives(base: seq<Segment>, rest: seq<Segment>)
    requires !Literal(base) || !Literal(rest)
    ensures !Literal(Resolve(base, rest))
    decreases rest
  {
    if rest != [] {
      var next := Push(base, rest[0]);
      assert !Literal(next) || !Literal(rest[1..]) by {
        if Literal(rest[1..]) {
          if rest[0].Open? {
            assert next[|base|].Open?;
          } else {
            var k :| 0 <= k < |base| && base[k].Open?;
            if k < |next| { assert next[k].Open?; }
          }
        }
      }
      OpenSurvives(next, rest[1..]);
    }
  }

  // ---- what a move names -------------------------------------------------

  /** The operand of a move.  `Vague` is a wildcard, an expression or several values. */
  datatype Target = Vague | To(absolute: bool, segments: seq<Segment>)

  /** Stand-ins for an unknown directory: no path has a name like these. */
  const NOWHERE: seq<Segment> := [Name("\0nowhere")]
  const ELSEWHERE: seq<Segment> := [Name("\0elsewhere")]

  function Found(t: Target, d: seq<Segment>): seq<Segment>
    requires t.To?
  {
    Resolve(if t.absolute then [] else d, t.segments)
  }

  /** `_Places.directory`: the directory the target names seen from `base`, if the gate can tell. */
  function Directory(t: Target, base: Option<Dir>): (r: Option<Dir>) {
    if t.Vague? then None
    else
      var found := Found(t, if base.None? then NOWHERE else base.value);
      if !Literal(t.segments) || !Literal(found) then None
      else if base.None? && Found(t, ELSEWHERE) != found then None
      else
        ResolveClean(if t.absolute then [] else if base.None? then NOWHERE else base.value, t.segments);
        Some(found)
  }

  /** `_Places.follow`: a chain of moves, each relative to the one before. */
  function Follow(chain: seq<Target>, start: Option<Dir>): Option<Dir>
    decreases chain
  {
    if chain == [] then start else Follow(chain[1..], Directory(chain[0], start))
  }

  method FollowChain(chain: seq<Target>, start: Option<Dir>) returns (current: Option<Dir>)
    ensures current == Follow(chain, start)
  {
    current := start;
    for i := 0 to |chain|
      invariant Follow(chain[i..], current) == Follow(chain, start)
    {
      current := Directory(chain[i], current);
    }
  }

  // ---- what it really does -----------------------------------------------

  /** `cd t` from `d` can end in `after`: anywhere, when the text does not say. */
  predicate Lands(t: Target, d: Dir, after: Dir) {
    t.To? && Literal(t.segments) ==> after == Found(t, d)
  }

  ghost predicate LandsBy(chain: seq<Target>, d: Dir, after: Dir)
    decreases chain
  {
    if chain == [] then after == d
    else exists mid: Dir :: Lands(chain[0], d, mid) && LandsBy(chain[1..], mid, after)
  }

  /** The relative path goes above the directory it starts from (`depth` names below it). */
  predicate Climbs(rest: seq<Segment>, depth: nat)
    decreases rest
  {
    rest != [] &&
    match rest[0]
    case Here => Climbs(rest[1..], depth)
    case Up => depth == 0 || Climbs(rest[1..], depth - 1)
    case _ => Climbs(rest[1..], depth + 1)
  }

  /** The guard under which `Directory` can be believed: a relative path may not climb
      out of a directory nobody knows. */
  predicate Seen(t: Target, base: Option<Dir>) {
    base.None? && t.To? && !t.absolute && Literal(t.segments) ==> !Climbs(t.segments, 0)
  }

  predicate SeenBy(chain: seq<Target>, start: Option<Dir>)
    decreases chain
  {
    chain == [] || (Seen(chain[0], start) && SeenBy(chain[1..], Directory(chain[0], start)))
  }

  lemma {:induction false} NoClimbKeepsBase(base: seq<Segment>, below: Dir, rest: seq<Segment>)
    requires Clean(base) && Literal(rest) && !Climbs(rest, |below|)
    ensures Resolve(base + below, rest) == base + Resolve(below, rest)
    decreases rest
  {
    if rest != [] {
      var next: seq<Segment> := Push(below, rest[0]);
      assert Push(base + below, rest[0]) == base + next;
      NoClimbKeepsBase(base, next, rest[1..]);
    }
  }

  lemma {:induction false} ClimbForgetsBase(x: Segment, y: Segment, below: Dir, rest: seq<Segment>)
    requires x.Name? && y.Name? && Literal(rest) && Climbs(rest, |below|)
    ensures Resolve([x] + below, rest) == Resolve([y] + below, rest)
    decreases rest
  {
    if rest[0].Up? && below == [] {
      assert [x] + below == [x] && [y] + below == [y];
    } else {
      var next: seq<Segment> := Push(below, rest[0]);
      assert Push([x] + below, rest[0]) == [x] + next;
      assert Push([y] + below, rest[0]) == [y] + next;
      ClimbForgetsBase(x, y, next, rest[1..]);
    }
  }

  lemma {:induction false} ResolveLength(base: seq<Segment>, rest: seq<Segment>)
    ensures |base| - |rest| <= |Resolve(base, rest)| <= |base| + |rest|
    decreases rest
  {
    if rest != [] { ResolveLength(Push(base, rest[0]), rest[1..]); }
  }

  lemma StandInsDisagree(t: Target)
    requires t.To? && !t.absolute && Literal(t.segments) && !Climbs(t.segments, 0)
    ensures Found(t, NOWHERE) != Found(t, ELSEWHERE)
  {
    NoClimbKeepsBase(NOWHERE, [], t.segments);
    NoClimbKeepsBase(ELSEWHERE, [], t.segments);
    assert NOWHERE + [] == NOWHERE && ELSEWHERE + [] == ELSEWHERE;
    assert Found(t, NOWHERE)[0] != Found(t, ELSEWHERE)[0];
  }

  /** When the answer is believed, it is right. */
  lemma DirectoryRight(t: Target, base: Option<Dir>, d: Dir, after: Dir)
    requires Seen(t, base) && (base.Some? ==> d == base.value) && Lands(t, d, after)
    ensures Directory(t, base).Some? ==> after == Directory(t, base).value
  {
    if base.None? && t.To? && !t.absolute && Literal(t.segments) {
      StandInsDisagree(t);
    } else if t.To? && Literal(t.segments) && t.absolute {
      assert Found(t, NOWHERE) == Found(t, d);
    }
  }

  /**
    `Directory` never names a wrong directory, except for a relative path that climbs
    above an unknown one: both stand-ins are then popped, and the two answers agree
    although they say nothing about where the shell is.
   */
  lemma DirectoryIsRightExactlyWhenSeen(t: Target, base: Option<Dir>)
    ensures Seen(t, base) <==>
            forall d: Dir, after: Dir ::
              (base.Some? ==> d == base.value) && Lands(t, d, after) && Directory(t, base).Some?
              ==> after == Directory(t, base).value
  {
    if Seen(t, base) {
      forall d: Dir, after: Dir | (base.Some? ==> d == base.value) && Lands(t, d, after) {
        DirectoryRight(t, base, d, after);
      }
    } else {
      assert NOWHERE + [] == NOWHERE && ELSEWHERE + [] == ELSEWHERE;
      ClimbForgetsBase(NOWHERE[0], ELSEWHERE[0], [], t.segments);
      ResolveClean(NOWHERE, t.segments);
      assert Directory(t, base).Some?;
      ResolveLength(NOWHERE, t.segments);
      var far: seq<Segment> := seq(2 * |t.segments| + 2, _ => Name("d"));
      ResolveLength(far, t.segments);
      ResolveClean(far, t.segments);
      var d: Dir := far;
      var after: Dir := Found(t, far);
      assert Lands(t, d, after) && after != Directory(t, base).value;
    }
  }

  lemma {:induction false} FollowRight(chain: seq<Target>, start: Option<Dir>, d: Dir, after: Dir)
    requires SeenBy(chain, start) && (start.Some? ==> d == start.value) && LandsBy(chain, d, after)
    ensures Follow(chain, start).Some? ==> after == Follow(chain, start).value
    decreases chain
  {
    if chain != [] {
      var mid: Dir :| Lands(chain[0], d, mid) && LandsBy(chain[1..], mid, after);
      DirectoryRight(chain[0], start, d, mid);
      FollowRight(chain[1..], Directory(chain[0], start), mid, after);
    }
  }
}
