/**
  What `_Tracker` (ember_armor/ledger/shellpaths.py) works out, as a recursive analysis
  over the scopes of one call, and its soundness against every run the scopes allow.
  `Tracker` proves that the flat walk with its list of open scopes computes this.
 */
module Analysis {
  import opened Prelude
  import opened Paths
  import opened Moves
  import opened Scopes

  /** One call: its parse result, and the home directory when it is known. */
  datatype Call = Call(parsed: Parsed, home: Option<Dir>)

  ghost predicate Known(c: Call) { Valid(c.parsed) }

  function Size(c: Call): nat { |c.parsed.commands| }

  function Opens(c: Call, i: nat): seq<Entry> { Opening(c.parsed.scopes, i) }

  predicate IsLoop(c: Call, n: nat) { n in c.parsed.guards && c.parsed.guards[n].Loop? }

  predicate IsMaybe(c: Call, n: nat) { n in c.parsed.guards && c.parsed.guards[n].Maybe? }

  predicate IsKept(c: Call, n: nat) { n !in c.parsed.guards && n in c.parsed.kept }

  predicate IsOwn(c: Call, n: nat) { n !in c.parsed.guards && n !in c.parsed.kept }

  function Chain(c: Call, n: nat): seq<Target> {
    if n in c.parsed.entered then c.parsed.entered[n] else []
  }

  // ---- the analysis ----------------------------------------------------------

  /** Where the shell is afterwards, what is left of the budget, and where it was when
      each command started. */
  datatype Outcome = Outcome(place: Place, budget: int, labels: seq<Place>)

  datatype Started = Started(place: Place, wild: bool, budget: int)

  /** What one trial pass, ending in `end`, makes of a loop entered in `w`. */
  function AfterTrial(end: Place, w: Place): Place {
    if Differs(end, w) then Lost(w)
    else if end.previous != w.previous then w.(previous := None)
    else w
  }

  /** `_leave`. */
  function Leave(c: Call, n: nat, before: Place, wild: bool, w: Place): Place {
    if IsKept(c, n) then w
    else if IsOwn(c, n) then before
    else if wild || Differs(w, before) then Lost(w)
    else if w.previous != before.previous then w.(previous := None)
    else w
  }

  /** `_enter` for the scope at position `p` of those that open at `i`. */
  function Enter(c: Call, i: nat, p: nat, w: Place, budget: int): Started
    requires Known(c) && p < |Opens(c, i)|
    decreases Size(c) - i, |Opens(c, i)| - p, 0
  {
    EntryFacts(c.parsed, i, p);
    var e := Opens(c, i)[p];
    if IsLoop(c, e.1) then
      var left := budget - (e.0 - i);
      if left < 0 then Started(Lost(w), true, left)
      else
        var pass := Analyse(c, i, p + 1, e.0, w, left);
        Started(AfterTrial(pass.place, w), Differs(pass.place, w), pass.budget)
    else if IsMaybe(c, e.1) then Started(w, false, budget)
    else Started(w.(current := Follow(Chain(c, e.1), w.current)), false, budget)
  }

  /** The commands from `i` up to `h`, without the first `p` scopes that open at `i`. */
  function Analyse(c: Call, i: nat, p: nat, h: nat, w: Place, budget: int): Outcome
    requires Known(c) && h <= Size(c)
    decreases Size(c) - i, if p < |Opens(c, i)| then |Opens(c, i)| - p else 0, 1
  {
    if i >= h then Outcome(w, budget, [])
    else if p < |Opens(c, i)| then
      EntryFacts(c.parsed, i, p);
      var e := Opens(c, i)[p];
      var start := Enter(c, i, p, w, budget);
      var body := Analyse(c, i, p + 1, e.0, start.place, start.budget);
      var rest := Analyse(c, e.0, 0, h, Leave(c, e.1, w, start.wild, body.place), body.budget);
      Outcome(rest.place, rest.budget, body.labels + rest.labels)
    else
      var rest := Analyse(c, i + 1, 0, h, Step(c.parsed.commands[i], w, c.home), budget);
      Outcome(rest.place, rest.budget, [w] + rest.labels)
  }

  // ---- the runs the scopes allow -----------------------------------------------

  /** How one run goes through a stretch of commands. */
  datatype Route =
    | Done
    | Exec(after: Shell, rest: Route)
    | Through(start: Shell, body: Route, after: Shell, rest: Route)
    | Again(body: Route, after: Shell, rest: Route)
    | Past(rest: Route)
    | Part(end: nat, body: Route, rest: Route)

  /** The shell a scope without a guard starts with: moved by its starter, and for a
      process of its own perhaps without a directory stack and without `OLDPWD`. */
  ghost predicate Starts(c: Call, n: nat, s: Shell, start: Shell) {
    LandsBy(Chain(c, n), s.current, start.current) &&
    (start.previous == s.previous || (IsOwn(c, n) && start.previous.None?)) &&
    (start.stack == s.stack || (IsOwn(c, n) && start.stack == []))
  }

  /**
    `r` takes the shell from `s` to `after` through the commands from `i` up to `h`: a
    process of its own leaves the shell where it was, a `maybe` scope is run or skipped, a
    loop makes any number of whole passes, `eval` runs in place, and every move succeeds.
    A `maybe` scope and the last pass of a loop may also break off where the shell is the one
    they began with: behind the condition of a loop or of an `elif`, say.
   */
  ghost predicate Runs(c: Call, i: nat, p: nat, h: nat, s: Shell, r: Route, after: Shell)
    requires Known(c) && h <= Size(c)
    decreases r
  {
    if i >= h then r.Done? && after == s
    else if p < |Opens(c, i)| then
      EntryFacts(c.parsed, i, p);
      var e := Opens(c, i)[p];
      match r
      case Through(start, body, mid, rest) =>
        !IsLoop(c, e.1) &&
        (if IsMaybe(c, e.1) then start == s else Starts(c, e.1, s, start)) &&
        Runs(c, i, p + 1, e.0, start, body, mid) &&
        Runs(c, e.0, 0, h, if IsOwn(c, e.1) then s else mid, rest, after)
      case Again(body, mid, rest) =>
        IsLoop(c, e.1) && Runs(c, i, p + 1, e.0, s, body, mid) && Runs(c, i, p, h, mid, rest, after)
      case Past(rest) =>
        (IsLoop(c, e.1) || IsMaybe(c, e.1)) && Runs(c, e.0, 0, h, s, rest, after)
      case Part(end, body, rest) =>
        (IsLoop(c, e.1) || IsMaybe(c, e.1)) && end <= e.0 && Bounded(c.parsed, i, p + 1, end) &&
        Runs(c, i, p + 1, end, s, body, s) && Runs(c, e.0, 0, h, s, rest, after)
      case _ => false
    else
      r.Exec? && Steps(c.parsed.commands[i], c.home, s, r.after) && Runs(c, i + 1, 0, h, r.after, r.rest, after)
  }

  /** The commands a run executes, in order, each with the shell it finds. */
  function Visits(c: Call, i: nat, p: nat, h: nat, s: Shell, r: Route): seq<(nat, Shell)>
    requires Known(c) && h <= Size(c)
    decreases r
  {
    if i >= h then []
    else if p < |Opens(c, i)| then
      EntryFacts(c.parsed, i, p);
      var e := Opens(c, i)[p];
      match r
      case Through(start, body, mid, rest) =>
        Visits(c, i, p + 1, e.0, start, body) + Visits(c, e.0, 0, h, if IsOwn(c, e.1) then s else mid, rest)
      case Again(body, mid, rest) =>
        Visits(c, i, p + 1, e.0, s, body) + Visits(c, i, p, h, mid, rest)
      case Past(rest) => Visits(c, e.0, 0, h, s, rest)
      case Part(end, body, rest) =>
        (if end <= e.0 then Visits(c, i, p + 1, end, s, body) else []) + Visits(c, e.0, 0, h, s, rest)
      case _ => []
    else if r.Exec? then [(i, s)] + Visits(c, i + 1, 0, h, r.after, r.rest)
    else []
  }

  // ---- when the analysis can be believed -----------------------------------------

  /** A pass over a loop, replayed from where the tracker takes it to begin, ends there. */
  predicate Settles(c: Call, i: nat, p: nat, start: Started, budget: int)
    requires Known(c) && p < |Opens(c, i)|
  {
    EntryFacts(c.parsed, i, p);
    var e := Opens(c, i)[p];
    start.wild ||
    var end := Analyse(c, i, p + 1, e.0, start.place, budget - (e.0 - i)).place;
    !Differs(end, start.place) && (start.place.previous.Some? ==> end.previous == start.place.previous)
  }

  /** Every command reached is readable where it is reached, and every loop settles. */
  predicate Readably(c: Call, i: nat, p: nat, h: nat, w: Place, budget: int)
    requires Known(c) && h <= Size(c)
    decreases Size(c) - i, if p < |Opens(c, i)| then |Opens(c, i)| - p else 0
  {
    if i >= h then true
    else if p < |Opens(c, i)| then
      EntryFacts(c.parsed, i, p);
      var e := Opens(c, i)[p];
      var start := Enter(c, i, p, w, budget);
      var body := Analyse(c, i, p + 1, e.0, start.place, start.budget);
      SeenBy(if e.1 in c.parsed.guards then [] else Chain(c, e.1), w.current) &&
      (IsLoop(c, e.1) && !start.wild ==>
         Settles(c, i, p, start, budget) && Readably(c, i, p + 1, e.0, start.place, budget - (e.0 - i))) &&
      Readably(c, i, p + 1, e.0, start.place, start.budget) &&
      Readably(c, e.0, 0, h, Leave(c, e.1, w, start.wild, body.place), body.budget)
    else
      StepReadable(c.parsed.commands[i], w) &&
      Readably(c, i + 1, 0, h, Step(c.parsed.commands[i], w, c.home), budget)
  }

  // ---- soundness -------------------------------------------------------------------

  /** Each visit finds the shell as the label of its command describes it. */
  ghost predicate Describes(labels: seq<Place>, i: nat, visits: seq<(nat, Shell)>) {
    forall v :: 0 <= v < |visits| ==>
      i <= visits[v].0 < i + |labels| && Matches(labels[visits[v].0 - i], visits[v].1)
  }

  lemma {:induction false} LabelCount(c: Call, i: nat, p: nat, h: nat, w: Place, budget: int)
    requires Known(c) && Bounded(c.parsed, i, p, h)
    ensures |Analyse(c, i, p, h, w, budget).labels| == h - i
    decreases Size(c) - i, if p < |Opens(c, i)| then |Opens(c, i)| - p else 0
  {
    if i < h {
      if p < |Opens(c, i)| {
        InnerBounded(c.parsed, i, p, h);
        var e := Opens(c, i)[p];
        var start := Enter(c, i, p, w, budget);
        var body := Analyse(c, i, p + 1, e.0, start.place, start.budget);
        LabelCount(c, i, p + 1, e.0, start.place, start.budget);
        LabelCount(c, e.0, 0, h, Leave(c, e.1, w, start.wild, body.place), body.budget);
      } else {
        NextBounded(c.parsed, i, p, h);
        LabelCount(c, i + 1, 0, h, Step(c.parsed.commands[i], w, c.home), budget);
      }
    }
  }

  /** `wide` knows nothing that `w` does not. */
  predicate Wider(w: Place, wide: Place) {
    wide == Lost(wide) ||
    (wide.current == w.current && wide.stack == w.stack && (wide.previous.None? || wide.previous == w.previous))
  }

  lemma WiderMatches(w: Place, wide: Place, s: Shell)
    requires Wider(w, wide) && Matches(w, s)
    ensures Matches(wide, s)
  {
    if wide == Lost(wide) { LostMatches(wide, s); }
  }

  /** What is taken after a scope that may be left out covers both ways through it. */
  lemma LeaveWider(c: Call, n: nat, before: Place, wild: bool, w: Place)
    requires n in c.parsed.guards
    ensures Wider(w, Leave(c, n, before, wild, w)) && Wider(before, Leave(c, n, before, wild, w))
  {
    assert Lost(Lost(w)) == Lost(w);
  }

  lemma DescribesJoin(a: seq<Place>, b: seq<Place>, i: nat, va: seq<(nat, Shell)>, vb: seq<(nat, Shell)>)
    requires Describes(a, i, va) && Describes(b, i + |a|, vb)
    ensures Describes(a + b, i, va + vb)
  {
    forall v | 0 <= v < |va + vb|
      ensures i <= (va + vb)[v].0 < i + |a + b| && Matches((a + b)[(va + vb)[v].0 - i], (va + vb)[v].1)
    {
      if v >= |va| { assert (va + vb)[v] == vb[v - |va|]; }
    }
  }

  /** A stretch that breaks off is described as far as it goes. */
  lemma {:induction false} Shorter(c: Call, i: nat, p: nat, k: nat, h: nat, w: Place, budget: int)
    requires Known(c) && Bounded(c.parsed, i, p, k) && Bounded(c.parsed, i, p, h) && k <= h
    ensures Analyse(c, i, p, k, w, budget).labels <= Analyse(c, i, p, h, w, budget).labels
    ensures Readably(c, i, p, h, w, budget) ==> Readably(c, i, p, k, w, budget)
    decreases Size(c) - i, if p < |Opens(c, i)| then |Opens(c, i)| - p else 0
  {
    hide Opening, Bounded, Step, Leave, SeenBy, Settles, StepReadable, Follow;
    if i < k {
      if p < |Opens(c, i)| {
        InnerBounded(c.parsed, i, p, k);
        InnerBounded(c.parsed, i, p, h);
        var e := Opens(c, i)[p];
        var start := Enter(c, i, p, w, budget);
        var body := Analyse(c, i, p + 1, e.0, start.place, start.budget);
        Shorter(c, e.0, 0, k, h, Leave(c, e.1, w, start.wild, body.place), body.budget);
      } else {
        NextBounded(c.parsed, i, p, k);
        NextBounded(c.parsed, i, p, h);
        Shorter(c, i + 1, 0, k, h, Step(c.parsed.commands[i], w, c.home), budget);
      }
    }
  }

  lemma DescribesLonger(a: seq<Place>, b: seq<Place>, i: nat, visits: seq<(nat, Shell)>)
    requires Describes(a, i, visits) && a <= b
    ensures Describes(b, i, visits)
  {
  }

  /** A guarded scope that breaks off. */
  lemma {:induction false} SoundPart(c: Call, i: nat, p: nat, e: Entry, w: Place, budget: int, s: Shell, end: nat,
                                     r: Route)
    requires Known(c) && Bounded(c.parsed, i, p + 1, e.0) && Readably(c, i, p + 1, e.0, w, budget) && Matches(w, s)
    requires Bounded(c.parsed, i, p + 1, end) && end <= e.0 && Runs(c, i, p + 1, end, s, r, s)
    ensures Describes(Analyse(c, i, p + 1, e.0, w, budget).labels, i, Visits(c, i, p + 1, end, s, r))
    decreases r, 3
  {
    hide Matches, Describes, Opening, Bounded, Step, Leave, SeenBy, Settles, StepReadable, Follow;
    BoundedSize(c.parsed, i, p + 1, e.0);
    Shorter(c, i, p + 1, end, e.0, w, budget);
    Sound(c, i, p + 1, end, w, budget, s, r, s);
    DescribesLonger(Analyse(c, i, p + 1, end, w, budget).labels, Analyse(c, i, p + 1, e.0, w, budget).labels, i,
                    Visits(c, i, p + 1, end, s, r));
  }

  lemma {:induction false} Sound(
    c: Call, i: nat, p: nat, h: nat, w: Place, budget: int, s: Shell, r: Route, after: Shell)
    requires Known(c) && Bounded(c.parsed, i, p, h) && Readably(c, i, p, h, w, budget)
    requires Matches(w, s) && Runs(c, i, p, h, s, r, after)
    ensures Matches(Analyse(c, i, p, h, w, budget).place, after)
    ensures Describes(Analyse(c, i, p, h, w, budget).labels, i, Visits(c, i, p, h, s, r))
    decreases r, 2
  {
    if i < h {
      if p < |Opens(c, i)| {
        var e := Opens(c, i)[p];
        if IsLoop(c, e.1) {
          var start := Enter(c, i, p, w, budget);
          var body := Analyse(c, i, p + 1, e.0, start.place, start.budget);
          assert Lost(Lost(w)) == Lost(w);
          WiderMatches(w, start.place, s);
          LeaveWider(c, e.1, w, start.wild, body.place);
          WiderMatches(w, Leave(c, e.1, w, start.wild, body.place), s);
          SoundLoop(c, i, p, h, w, budget, s, r, after);
        } else {
          SoundScope(c, i, p, h, w, budget, s, r, after);
        }
      } else {
        var command := c.parsed.commands[i];
        StepRight(command, c.home, w, s, r.after);
        NextBounded(c.parsed, i, p, h);
        Sound(c, i + 1, 0, h, Step(command, w, c.home), budget, r.after, r.rest, after);
        DescribesJoin([w], Analyse(c, i + 1, 0, h, Step(command, w, c.home), budget).labels, i,
                      [(i, s)], Visits(c, i + 1, 0, h, r.after, r.rest));
      }
    }
  }

  /** A scope without a guard, or one that may be left out. */
  lemma {:induction false} SoundScope(
    c: Call, i: nat, p: nat, h: nat, w: Place, budget: int, s: Shell, r: Route, after: Shell)
    requires Known(c) && Bounded(c.parsed, i, p, h) && Readably(c, i, p, h, w, budget)
    requires i < h && p < |Opens(c, i)| && !IsLoop(c, Opens(c, i)[p].1)
    requires Matches(w, s) && Runs(c, i, p, h, s, r, after)
    ensures Matches(Analyse(c, i, p, h, w, budget).place, after)
    ensures Describes(Analyse(c, i, p, h, w, budget).labels, i, Visits(c, i, p, h, s, r))
    decreases r, 1
  {
    hide Matches, Describes, SeenBy, Follow, Step, Wider, Opening, Bounded, StepReadable, Steps, Starts;
    InnerBounded(c.parsed, i, p, h);
    var e := Opens(c, i)[p];
    var start := Enter(c, i, p, w, budget);
    var body := Analyse(c, i, p + 1, e.0, start.place, start.budget);
    var out := Leave(c, e.1, w, start.wild, body.place);
    var rest := Analyse(c, e.0, 0, h, out, body.budget);
    LabelCount(c, i, p + 1, e.0, start.place, start.budget);
    if IsMaybe(c, e.1) { LeaveWider(c, e.1, w, start.wild, body.place); }
    match r
    case Past(more) =>
      WiderMatches(w, out, s);
      Sound(c, e.0, 0, h, out, body.budget, s, more, after);
      DescribesJoin(body.labels, rest.labels, i, [], Visits(c, e.0, 0, h, s, more));
      assert [] + Visits(c, e.0, 0, h, s, more) == Visits(c, e.0, 0, h, s, more);
    case Part(end, inner, more) =>
      WiderMatches(w, out, s);
      SoundPart(c, i, p, e, start.place, start.budget, s, end, inner);
      Sound(c, e.0, 0, h, out, body.budget, s, more, after);
      DescribesJoin(body.labels, rest.labels, i, Visits(c, i, p + 1, end, s, inner), Visits(c, e.0, 0, h, s, more));
    case Through(begin, inner, mid, more) =>
      if !IsMaybe(c, e.1) { StartMatches(c, e.1, w, s, begin); }
      Sound(c, i, p + 1, e.0, start.place, start.budget, begin, inner, mid);
      if IsMaybe(c, e.1) { WiderMatches(body.place, out, mid); }
      var next := if IsOwn(c, e.1) then s else mid;
      Sound(c, e.0, 0, h, out, body.budget, next, more, after);
      DescribesJoin(body.labels, rest.labels, i, Visits(c, i, p + 1, e.0, begin, inner),
                    Visits(c, e.0, 0, h, next, more));
  }

  lemma StartMatches(c: Call, n: nat, w: Place, s: Shell, begin: Shell)
    requires Matches(w, s) && Starts(c, n, s, begin) && SeenBy(Chain(c, n), w.current)
    ensures Matches(w.(current := Follow(Chain(c, n), w.current)), begin)
  {
    FollowRight(Chain(c, n), w.current, s.current, begin.current);
  }

  /** Where the shell is taken to be behind the scope at position `p`. */
  function Exit(c: Call, i: nat, p: nat, w: Place, budget: int): Place
    requires Known(c) && p < |Opens(c, i)|
  {
    EntryFacts(c.parsed, i, p);
    var e := Opens(c, i)[p];
    var start := Enter(c, i, p, w, budget);
    Leave(c, e.1, w, start.wild, Analyse(c, i, p + 1, e.0, start.place, start.budget).place)
  }

  lemma NothingDescribed(labels: seq<Place>, i: nat) ensures Describes(labels, i, []) {}

  /** What stands behind a stretch that was described. */
  lemma {:induction false} SoundBehind(c: Call, i: nat, k: nat, h: nat, labels: seq<Place>, seen: seq<(nat, Shell)>,
                                       w: Place, budget: int, s: Shell, r: Route, after: Shell)
    requires Known(c) && Bounded(c.parsed, k, 0, h) && Readably(c, k, 0, h, w, budget)
    requires Matches(w, s) && Runs(c, k, 0, h, s, r, after) && Describes(labels, i, seen) && k == i + |labels|
    ensures Matches(Analyse(c, k, 0, h, w, budget).place, after)
    ensures Describes(labels + Analyse(c, k, 0, h, w, budget).labels, i, seen + Visits(c, k, 0, h, s, r))
    decreases r, 3
  {
    BoundedSize(c.parsed, k, 0, h);
    hide Matches, Describes, Opening, Bounded, Readably, Analyse, Runs, Visits;
    Sound(c, k, 0, h, w, budget, s, r, after);
    DescribesJoin(labels, Analyse(c, k, 0, h, w, budget).labels, i, seen, Visits(c, k, 0, h, s, r));
  }

  /** A loop, from the beginning of any of its passes or at its end. */
  lemma {:induction false} SoundLoop(
    c: Call, i: nat, p: nat, h: nat, w: Place, budget: int, s: Shell, r: Route, after: Shell)
    requires Known(c) && Bounded(c.parsed, i, p, h) && Readably(c, i, p, h, w, budget)
    requires i < h && p < |Opens(c, i)| && IsLoop(c, Opens(c, i)[p].1)
    requires Matches(Enter(c, i, p, w, budget).place, s) && Matches(Exit(c, i, p, w, budget), s)
    requires Runs(c, i, p, h, s, r, after)
    ensures Matches(Analyse(c, i, p, h, w, budget).place, after)
    ensures Describes(Analyse(c, i, p, h, w, budget).labels, i, Visits(c, i, p, h, s, r))
    decreases r, 1
  {
    hide Matches, Describes, SeenBy, Follow, Step, Wider, Opening, Bounded, Leave, StepReadable, Steps, Starts;
    InnerBounded(c.parsed, i, p, h);
    var e := Opens(c, i)[p];
    var start := Enter(c, i, p, w, budget);
    var body := Analyse(c, i, p + 1, e.0, start.place, start.budget);
    var out := Leave(c, e.1, w, start.wild, body.place);
    var rest := Analyse(c, e.0, 0, h, out, body.budget);
    LabelCount(c, i, p + 1, e.0, start.place, start.budget);
    match r
    case Past(more) =>
      NothingDescribed(body.labels, i);
      SoundBehind(c, i, e.0, h, body.labels, [], out, body.budget, s, more, after);
      assert [] + Visits(c, e.0, 0, h, s, more) == Visits(c, e.0, 0, h, s, more);
    case Part(end, inner, more) =>
      SoundPart(c, i, p, e, start.place, start.budget, s, end, inner);
      SoundBehind(c, i, e.0, h, body.labels, Visits(c, i, p + 1, end, s, inner), out, body.budget, s, more, after);
    case Again(pass, mid, more) =>
      Sound(c, i, p + 1, e.0, start.place, start.budget, s, pass, mid);
      LeaveWider(c, e.1, w, start.wild, body.place);
      WiderMatches(body.place, out, mid);
      if start.wild {
        LostMatches(w, mid);
      } else {
        Sound(c, i, p + 1, e.0, start.place, budget - (e.0 - i), s, pass, mid);
        WiderMatches(Analyse(c, i, p + 1, e.0, start.place, budget - (e.0 - i)).place, start.place, mid);
      }
      SoundLoop(c, i, p, h, w, budget, mid, more, after);
      DescribesAlso(body.labels + rest.labels, body.labels, i, Visits(c, i, p + 1, e.0, s, pass),
                    Visits(c, i, p, h, mid, more));
  }

  lemma DescribesAlso(all: seq<Place>, first: seq<Place>, i: nat, va: seq<(nat, Shell)>, vb: seq<(nat, Shell)>)
    requires first <= all && Describes(first, i, va) && Describes(all, i, vb)
    ensures Describes(all, i, va + vb)
  {
    forall v | 0 <= v < |va + vb|
      ensures i <= (va + vb)[v].0 < i + |all| && Matches(all[(va + vb)[v].0 - i], (va + vb)[v].1)
    {
      if v >= |va| { assert (va + vb)[v] == vb[v - |va|]; }
    }
  }
}
