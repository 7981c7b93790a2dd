/**
  Scripts whose moves can all be read, executed command by command, and the labels of
  `_Tracker` (ember_armor/ledger/shellpaths.py): from a known directory they are the same.
 */
module Simulation {
  import opened Prelude
  import opened Paths
  import opened DirStacks
  import opened Moves
  import opened Scopes
  import opened Analysis
  import opened Soundness
  import opened Precision

  // ---- one command ----------------------------------------------------------------------------

  /** A shell of which everything is known, as the gate describes it. */
  function AllKnown(s: Shell): Place {
    Place(Some(s.current), s.previous, seq(|s.stack|, k requires 0 <= k < |s.stack| => Some(s.stack[k])))
  }

  /** The operand names one directory, seen from `s`. */
  predicate Plain(word: Word, s: Shell) {
    match word
    case Previous => s.previous.Some?
    case Path(target) => target.To? && Literal(target.segments)
    case _ => false
  }

  function Goal(word: Word, s: Shell): Dir
    requires Plain(word, s)
  {
    match word
    case Previous => s.previous.value
    case Path(target) =>
      ResolveClean(if target.absolute then [] else s.current, target.segments);
      Found(target, s.current)
  }

  /** The move says where it leads, and succeeds. */
  predicate Clear(c: Command, home: Option<Dir>, s: Shell) {
    match c
    case Move(verb, words, piped) =>
      !piped &&
      (match verb
       case Cd => (words == [] && home.Some?) || (|words| == 1 && Plain(words[0], s))
       case Pushd => (words == [] && s.stack != []) || (|words| == 1 && Plain(words[0], s))
       case Popd => words == [] && s.stack != [])
    case _ => true
  }

  /** What the shell does. */
  function Go(c: Command, home: Option<Dir>, s: Shell): Shell
    requires Clear(c, home, s)
  {
    match c
    case Move(verb, words, _) =>
      (match verb
       case Cd => Shell(if words == [] then home.value else Goal(words[0], s), Some(s.current), s.stack)
       case Pushd =>
         if words == [] then Shell(Last(s.stack), Some(s.current), Init(s.stack) + [s.current])
         else Shell(Goal(words[0], s), Some(s.current), s.stack + [s.current])
       case Popd => Shell(Last(s.stack), Some(s.current), Init(s.stack)))
    case _ => s
  }

  /** It is what a real shell does, up to a directory before that is not known. */
  predicate Alike(s: Shell, actual: Shell) {
    actual.current == s.current && actual.stack == s.stack && (s.previous.Some? ==> actual.previous == s.previous)
  }

  lemma OneWord(word: Word, s: Shell)
    requires Plain(word, s)
    ensures Targets([word]) == Some([word]) && Lead([word]) == []
  {
    ClearPush(word);
  }

  lemma GoIsReal(c: Command, home: Option<Dir>, s: Shell, actual: Shell)
    requires Clear(c, home, s) && Alike(s, actual)
    ensures exists after :: Steps(c, home, actual, after) && Alike(Go(c, home, s), after)
  {
    hide Lead, Targets, Goal;
    if c.Move? {
      var words := c.words;
      if words != [] {
        assert words == [words[0]];
        OneWord(words[0], s);
        GoalLands(words[0], s);
      } else {
        NoWords();
      }
      assert Steps(c, home, actual, Go(c, home, s));
    } else {
      assert Steps(c, home, actual, actual);
    }
  }

  lemma NoWords() ensures Targets([]) == Some([]) && Lead([]) == [] && Number([]).None? {}

  lemma GoalLands(word: Word, s: Shell)
    requires Plain(word, s)
    ensures Leads(word, s, Goal(word, s))
    ensures word.Path? ==> Directory(word.target, Some(s.current)) == Some(Goal(word, s))
  {
  }

  /** And the gate follows it, everything known. */
  lemma GoIsSeen(c: Command, home: Option<Dir>, s: Shell)
    requires Clear(c, home, s)
    ensures Step(c, AllKnown(s), home) == AllKnown(Go(c, home, s))
  {
    hide Lead, Targets, Goal, Directory;
    if c.Move? {
      var words, w, after := c.words, AllKnown(s), Go(c, home, s);
      if words != [] {
        assert words == [words[0]];
        OneWord(words[0], s);
        GoalLands(words[0], s);
      } else {
        NoWords();
      }
      if s.stack != [] { assert Last(w.stack) == Some(Last(s.stack)); }
      assert Step(c, w, home).stack == AllKnown(after).stack;
    }
  }

  // ---- a script --------------------------------------------------------------------------------

  function Landing(chain: seq<Target>, d: Dir): Dir
    requires forall i :: 0 <= i < |chain| ==> chain[i].To? && Literal(chain[i].segments)
    decreases chain
  {
    if chain == [] then d
    else
      ResolveClean(if chain[0].absolute then [] else d, chain[0].segments);
      Landing(chain[1..], Found(chain[0], d))
  }

  predicate PlainChain(chain: seq<Target>) {
    forall i :: 0 <= i < |chain| ==> chain[i].To? && Literal(chain[i].segments)
  }

  /** Where the shell is as before, and whether it was elsewhere before that is not known. */
  function Forget(s: Shell, end: Shell): Shell { if end.previous == s.previous then s else s.(previous := None) }

  function Into(c: Call, n: nat, s: Shell): Shell {
    if PlainChain(Chain(c, n)) then s.(current := Landing(Chain(c, n), s.current)) else s
  }

  function GoOn(c: Command, home: Option<Dir>, s: Shell): Shell { if Clear(c, home, s) then Go(c, home, s) else s }

  /** Every command once, and every scope entered: the shell behind, and the one each command finds. */
  function Simulate(c: Call, i: nat, p: nat, h: nat, s: Shell): (Shell, seq<Shell>)
    requires Known(c) && h <= Size(c)
    decreases Size(c) - i, if p < |Opens(c, i)| then |Opens(c, i)| - p else 0
  {
    if i >= h then (s, [])
    else if p < |Opens(c, i)| then
      EntryFacts(c.parsed, i, p);
      var e := Opens(c, i)[p];
      var start :=
        if IsLoop(c, e.1) then Forget(s, Simulate(c, i, p + 1, e.0, s).0)
        else if IsMaybe(c, e.1) then s
        else Into(c, e.1, s);
      var body := Simulate(c, i, p + 1, e.0, start);
      var behind := if IsKept(c, e.1) then body.0 else if IsOwn(c, e.1) then s else Forget(s, body.0);
      var rest := Simulate(c, e.0, 0, h, behind);
      (rest.0, body.1 + rest.1)
    else
      var rest := Simulate(c, i + 1, 0, h, GoOn(c.parsed.commands[i], c.home, s));
      (rest.0, [s] + rest.1)
  }

  predicate Back(s: Shell, end: Shell) { end.current == s.current && end.stack == s.stack }

  /** Every move says where it leads, and what may be left out or repeated ends where it began. */
  predicate Simple(c: Call, i: nat, p: nat, h: nat, s: Shell)
    requires Known(c) && h <= Size(c)
    decreases Size(c) - i, if p < |Opens(c, i)| then |Opens(c, i)| - p else 0
  {
    if i >= h then true
    else if p < |Opens(c, i)| then
      EntryFacts(c.parsed, i, p);
      var e := Opens(c, i)[p];
      (IsLoop(c, e.1) ==> Simple(c, i, p + 1, e.0, s) && Back(s, Simulate(c, i, p + 1, e.0, s).0)) &&
      (e.1 !in c.parsed.guards ==> PlainChain(Chain(c, e.1))) &&
      var start :=
        if IsLoop(c, e.1) then Forget(s, Simulate(c, i, p + 1, e.0, s).0)
        else if IsMaybe(c, e.1) then s
        else Into(c, e.1, s);
      var body := Simulate(c, i, p + 1, e.0, start);
      Simple(c, i, p + 1, e.0, start) && (e.1 in c.parsed.guards ==> Back(s, body.0)) &&
      Simple(c, e.0, 0, h,
             if IsKept(c, e.1) then body.0 else if IsOwn(c, e.1) then s else Forget(s, body.0))
    else
      Clear(c.parsed.commands[i], c.home, s) &&
      Simple(c, i + 1, 0, h, GoOn(c.parsed.commands[i], c.home, s))
  }

  function Places(shells: seq<Shell>): seq<Place> {
    seq(|shells|, k requires 0 <= k < |shells| => AllKnown(shells[k]))
  }

  lemma PlacesJoin(a: seq<Shell>, b: seq<Shell>) ensures Places(a) + Places(b) == Places(a + b) {}

  lemma {:induction false} FollowPlain(chain: seq<Target>, d: Dir)
    requires PlainChain(chain)
    ensures Follow(chain, Some(d)) == Some(Landing(chain, d)) && LandsBy(chain, d, Landing(chain, d))
    decreases chain
  {
    if chain != [] {
      ResolveClean(if chain[0].absolute then [] else d, chain[0].segments);
      var mid: Dir := Found(chain[0], d);
      assert Directory(chain[0], Some(d)) == Some(mid) && Lands(chain[0], d, mid);
      FollowPlain(chain[1..], mid);
    }
  }

  lemma IntoSeen(c: Call, n: nat, s: Shell)
    requires PlainChain(Chain(c, n))
    ensures AllKnown(s).(current := Follow(Chain(c, n), AllKnown(s).current)) == AllKnown(Into(c, n, s))
  {
    FollowPlain(Chain(c, n), s.current);
  }

  lemma Behind(c: Call, n: nat, s: Shell, end: Shell)
    requires n in c.parsed.guards ==> Back(s, end)
    ensures Leave(c, n, AllKnown(s), false, AllKnown(end)) ==
            AllKnown(if IsKept(c, n) then end else if IsOwn(c, n) then s else Forget(s, end))
  {
  }

  lemma TriedOnce(s: Shell, end: Shell)
    requires Back(s, end)
    ensures AfterTrial(AllKnown(end), AllKnown(s)) == AllKnown(Forget(s, end)) && !Differs(AllKnown(end), AllKnown(s))
  {
  }

  /** The labels of a simple script are the shells its commands find when it is executed. */
  lemma {:induction false} LabelsAreSimulated(c: Call, i: nat, p: nat, h: nat, s: Shell, budget: int)
    requires Known(c) && Bounded(c.parsed, i, p, h) && Simple(c, i, p, h, s)
    requires Analyse(c, i, p, h, AllKnown(s), budget).budget >= 0
    ensures Analyse(c, i, p, h, AllKnown(s), budget).place == AllKnown(Simulate(c, i, p, h, s).0)
    ensures Analyse(c, i, p, h, AllKnown(s), budget).labels == Places(Simulate(c, i, p, h, s).1)
    decreases Size(c) - i, if p < |Opens(c, i)| then |Opens(c, i)| - p else 0
  {
    hide Opening, Follow, Leave, Bounded, Go, Clear, Step, Into, AfterTrial, PlainChain;
    if i < h {
      if p < |Opens(c, i)| {
        ScopeBudgets(c, i, p, h, AllKnown(s), budget);
        InnerBounded(c.parsed, i, p, h);
        var e := Opens(c, i)[p];
        if IsLoop(c, e.1) {
          LabelsAreSimulated(c, i, p + 1, e.0, s, budget - (e.0 - i));
          TriedOnce(s, Simulate(c, i, p + 1, e.0, s).0);
        } else if !IsMaybe(c, e.1) {
          IntoSeen(c, e.1, s);
        }
        var start := if IsLoop(c, e.1) then Forget(s, Simulate(c, i, p + 1, e.0, s).0)
                     else if IsMaybe(c, e.1) then s else Into(c, e.1, s);
        var entered := Analysis.Enter(c, i, p, AllKnown(s), budget);
        LabelsAreSimulated(c, i, p + 1, e.0, start, entered.budget);
        var end := Simulate(c, i, p + 1, e.0, start);
        Behind(c, e.1, s, end.0);
        var behind := if IsKept(c, e.1) then end.0 else if IsOwn(c, e.1) then s else Forget(s, end.0);
        LabelsAreSimulated(c, e.0, 0, h, behind, Analyse(c, i, p + 1, e.0, AllKnown(start), entered.budget).budget);
        PlacesJoin(end.1, Simulate(c, e.0, 0, h, behind).1);
      } else {
        NextBounded(c.parsed, i, p, h);
        var next := Go(c.parsed.commands[i], c.home, s);
        GoIsSeen(c.parsed.commands[i], c.home, s);
        LabelsAreSimulated(c, i + 1, 0, h, next, budget);
        PlacesJoin([s], Simulate(c, i + 1, 0, h, next).1);
        assert Places([s]) == [AllKnown(s)];
      }
    }
  }

  // ---- the simulation is a run ---------------------------------------------------------------

  /** The run executes each command once, in order, in the shells of the simulation. */
  ghost predicate Visited(visits: seq<(nat, Shell)>, i: nat, shells: seq<Shell>) {
    |visits| == |shells| &&
    forall k :: 0 <= k < |visits| ==> visits[k].0 == i + k && Alike(shells[k], visits[k].1)
  }

  lemma VisitedJoin(a: seq<(nat, Shell)>, b: seq<(nat, Shell)>, i: nat, x: seq<Shell>, y: seq<Shell>)
    requires Visited(a, i, x) && Visited(b, i + |x|, y)
    ensures Visited(a + b, i, x + y)
  {
  }

  lemma {:induction false} SimulationLength(c: Call, i: nat, p: nat, h: nat, s: Shell)
    requires Known(c) && Bounded(c.parsed, i, p, h)
    ensures |Simulate(c, i, p, h, s).1| == h - i
    decreases Size(c) - i, if p < |Opens(c, i)| then |Opens(c, i)| - p else 0
  {
    hide Opening, GoOn, Into;
    if i < h {
      if p < |Opens(c, i)| {
        InnerBounded(c.parsed, i, p, h);
        EntryFacts(c.parsed, i, p);
        var e := Opens(c, i)[p];
        var start := if IsLoop(c, e.1) then Forget(s, Simulate(c, i, p + 1, e.0, s).0)
                     else if IsMaybe(c, e.1) then s else Into(c, e.1, s);
        var body := Simulate(c, i, p + 1, e.0, start);
        SimulationLength(c, i, p + 1, e.0, start);
        SimulationLength(c, e.0, 0, h,
                         if IsKept(c, e.1) then body.0 else if IsOwn(c, e.1) then s else Forget(s, body.0));
      } else {
        NextBounded(c.parsed, i, p, h);
        SimulationLength(c, i + 1, 0, h, GoOn(c.parsed.commands[i], c.home, s));
      }
    }
  }

  lemma IntoReal(c: Call, n: nat, s: Shell, actual: Shell)
    requires PlainChain(Chain(c, n)) && Alike(s, actual)
    ensures Starts(c, n, actual, Into(c, n, actual)) && Alike(Into(c, n, s), Into(c, n, actual))
  {
    FollowPlain(Chain(c, n), actual.current);
  }

  lemma ForgetAlike(s: Shell, end: Shell, actual: Shell)
    ensures Alike(s, actual) ==> Alike(Forget(s, end), actual)
    ensures Back(s, end) && Alike(end, actual) ==> Alike(Forget(s, end), actual)
  {
  }

  /** A shell that is like the simulated one, and everything it does is like the simulation. */
  lemma {:induction false} SimulationIsARun(c: Call, i: nat, p: nat, h: nat, s: Shell, actual: Shell)
      returns (r: Route, after: Shell)
    requires Known(c) && Bounded(c.parsed, i, p, h) && Simple(c, i, p, h, s) && Alike(s, actual)
    ensures Runs(c, i, p, h, actual, r, after) && Alike(Simulate(c, i, p, h, s).0, after)
    ensures Visited(Visits(c, i, p, h, actual, r), i, Simulate(c, i, p, h, s).1)
    decreases Size(c) - i, if p < |Opens(c, i)| then |Opens(c, i)| - p else 0
  {
    hide Opening, Bounded, Go, Clear, Steps, Into, PlainChain, Starts, Alike, Landing, Visited;
    BoundedSize(c.parsed, i, p, h);
    if i >= h {
      r, after := Done, actual;
      assert Visited([], i, []) by { NothingVisited(i); }
    } else if p < |Opens(c, i)| {
      r, after := ScopeIsARun(c, i, p, h, s, actual);
    } else {
      NextBounded(c.parsed, i, p, h);
      var command := c.parsed.commands[i];
      GoIsReal(command, c.home, s, actual);
      var next :| Steps(command, c.home, actual, next) && Alike(Go(command, c.home, s), next);
      var rest;
      rest, after := SimulationIsARun(c, i + 1, 0, h, Go(command, c.home, s), next);
      r := Exec(next, rest);
      OneVisited(i, s, actual);
      VisitedJoin([(i, actual)], Visits(c, i + 1, 0, h, next, rest), i, [s],
                  Simulate(c, i + 1, 0, h, Go(command, c.home, s)).1);
    }
  }

  lemma NothingVisited(i: nat) ensures Visited([], i, []) {}

  lemma OneVisited(i: nat, s: Shell, actual: Shell)
    requires Alike(s, actual)
    ensures Visited([(i, actual)], i, [s])
  {
  }

  /** A loop that goes round once. */
  lemma OnceAround(c: Call, i: nat, p: nat, h: nat, s: Shell, body: Route, mid: Shell, rest: Route, after: Shell)
    requires Known(c) && i < h <= Size(c) && p < |Opens(c, i)| && IsLoop(c, Opens(c, i)[p].1)
    requires Opens(c, i)[p].0 <= Size(c)
    requires Runs(c, i, p + 1, Opens(c, i)[p].0, s, body, mid) && Runs(c, Opens(c, i)[p].0, 0, h, mid, rest, after)
    ensures var r := Again(body, mid, Past(rest));
            Runs(c, i, p, h, s, r, after) &&
            Visits(c, i, p, h, s, r) ==
            Visits(c, i, p + 1, Opens(c, i)[p].0, s, body) + Visits(c, Opens(c, i)[p].0, 0, h, mid, rest)
  {
    hide Opening, Steps, Starts;
    assert Runs(c, i, p, h, mid, Past(rest), after);
  }

  lemma OnceThrough(c: Call, i: nat, p: nat, h: nat, s: Shell, start: Shell, body: Route, mid: Shell, rest: Route,
                    after: Shell)
    requires Known(c) && i < h <= Size(c) && p < |Opens(c, i)| && !IsLoop(c, Opens(c, i)[p].1)
    requires Opens(c, i)[p].0 <= Size(c)
    requires if IsMaybe(c, Opens(c, i)[p].1) then start == s else Starts(c, Opens(c, i)[p].1, s, start)
    requires Runs(c, i, p + 1, Opens(c, i)[p].0, start, body, mid)
    requires Runs(c, Opens(c, i)[p].0, 0, h, if IsOwn(c, Opens(c, i)[p].1) then s else mid, rest, after)
    ensures var r, e := Through(start, body, mid, rest), Opens(c, i)[p];
            Runs(c, i, p, h, s, r, after) &&
            Visits(c, i, p, h, s, r) ==
            Visits(c, i, p + 1, e.0, start, body) + Visits(c, e.0, 0, h, if IsOwn(c, e.1) then s else mid, rest)
  {
    hide Opening, Steps, Starts;
  }

  lemma {:induction false} ScopeIsARun(c: Call, i: nat, p: nat, h: nat, s: Shell, actual: Shell)
      returns (r: Route, after: Shell)
    requires Known(c) && Bounded(c.parsed, i, p, h) && Simple(c, i, p, h, s) && Alike(s, actual)
    requires i < h && p < |Opens(c, i)|
    ensures Runs(c, i, p, h, actual, r, after) && Alike(Simulate(c, i, p, h, s).0, after)
    ensures Visited(Visits(c, i, p, h, actual, r), i, Simulate(c, i, p, h, s).1)
    decreases Size(c) - i, |Opens(c, i)| - p, 0
  {
    hide Opening, Bounded, Into, PlainChain, Starts, Alike, Visited, Runs, Visits, Forget, Back, Clear, Go;
    BoundedSize(c.parsed, i, p, h);
    InnerBounded(c.parsed, i, p, h);
    EntryFacts(c.parsed, i, p);
    var e := Opens(c, i)[p];
    var begun, start := actual, s;
    if IsLoop(c, e.1) {
      start := Forget(s, Simulate(c, i, p + 1, e.0, s).0);
      ForgetAlike(s, Simulate(c, i, p + 1, e.0, s).0, actual);
    } else if !IsMaybe(c, e.1) {
      start, begun := Into(c, e.1, s), Into(c, e.1, actual);
      IntoReal(c, e.1, s, actual);
    }
    var body, mid := SimulationIsARun(c, i, p + 1, e.0, start, begun);
    var end := Simulate(c, i, p + 1, e.0, start);
    ForgetAlike(s, end.0, mid);
    var behind := if IsKept(c, e.1) then end.0 else if IsOwn(c, e.1) then s else Forget(s, end.0);
    var found := if IsOwn(c, e.1) then actual else mid;
    var rest;
    rest, after := SimulationIsARun(c, e.0, 0, h, behind, found);
    SimulationLength(c, i, p + 1, e.0, start);
    VisitedJoin(Visits(c, i, p + 1, e.0, begun, body), Visits(c, e.0, 0, h, found, rest), i, end.1,
                Simulate(c, e.0, 0, h, behind).1);
    if IsLoop(c, e.1) {
      r := Again(body, mid, Past(rest));
      OnceAround(c, i, p, h, actual, body, mid, rest, after);
    } else {
      r := Through(begun, body, mid, rest);
      OnceThrough(c, i, p, h, actual, begun, body, mid, rest, after);
    }
  }

  /**
    Every label of a simple script names a directory, and some run the scopes allow executes
    each command in the directory its label names.
   */
  lemma SimpleScriptsAreKnown(c: Call, s: Shell, budget: int) returns (r: Route, after: Shell)
    requires Known(c) && s.previous.None? && s.stack == [] && Simple(c, 0, 0, Size(c), s)
    requires Whole(c, Some(s.current), budget).budget >= 0
    ensures Runs(c, 0, 0, Size(c), s, r, after)
    ensures var labels, visits := Whole(c, Some(s.current), budget).labels, Visits(c, 0, 0, Size(c), s, r);
            |labels| == |visits| == Size(c) &&
            forall k :: 0 <= k < Size(c) ==> visits[k].0 == k && labels[k].current == Some(visits[k].1.current)
  {
    hide Opening, Simple, Runs, Analyse, Visits;
    WholeBounded(c.parsed);
    assert AllKnown(s) == Beginning(Some(s.current));
    LabelsAreSimulated(c, 0, 0, Size(c), s, budget);
    SimulationLength(c, 0, 0, Size(c), s);
    r, after := SimulationIsARun(c, 0, 0, Size(c), s, s);
  }
}
