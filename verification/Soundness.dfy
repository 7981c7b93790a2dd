/**
  The labels `shell_facts` (ember_armor/ledger/shellpaths.py) gives to the commands of a
  call name the directory each one runs in, in every run; scripts for which that always
  holds; and one for which it does not.
 */
module Soundness {
  import opened Prelude
  import opened Paths
  import opened DirStacks
  import opened Moves
  import opened Scopes
  import opened Analysis

  /** Passes over the commands of loops before the directory inside them is unknown. */
  const TRIAL_STEPS := 20_000

  function Beginning(known: Option<Dir>): Place { Place(known, None, []) }

  function Whole(c: Call, known: Option<Dir>, budget: int): Outcome
    requires Known(c)
  {
    Analyse(c, 0, 0, Size(c), Beginning(known), budget)
  }

  lemma {:induction false} ReadablyEach(c: Call, i: nat, p: nat, h: nat, w: Place, budget: int, k: nat)
    requires Known(c) && Bounded(c.parsed, i, p, h) && Readably(c, i, p, h, w, budget)
    requires i <= k < h
    ensures |Analyse(c, i, p, h, w, budget).labels| == h - i
    ensures StepReadable(c.parsed.commands[k], Analyse(c, i, p, h, w, budget).labels[k - i])
    decreases Size(c) - i, if p < |Opens(c, i)| then |Opens(c, i)| - p else 0
  {
    hide Opening, Follow;
    LabelCount(c, i, p, h, w, budget);
    if p < |Opens(c, i)| {
      InnerBounded(c.parsed, i, p, h);
      var e := Opens(c, i)[p];
      var start := Enter(c, i, p, w, budget);
      var body := Analyse(c, i, p + 1, e.0, start.place, start.budget);
      LabelCount(c, i, p + 1, e.0, start.place, start.budget);
      if k < e.0 {
        ReadablyEach(c, i, p + 1, e.0, start.place, start.budget, k);
      } else {
        ReadablyEach(c, e.0, 0, h, Leave(c, e.1, w, start.wild, body.place), body.budget, k);
      }
    } else if i < k {
      NextBounded(c.parsed, i, p, h);
      ReadablyEach(c, i + 1, 0, h, Step(c.parsed.commands[i], w, c.home), budget, k);
    }
  }

  /**
    When a command is labelled with a known directory, every run the scopes allow executes
    it in exactly that directory: over any nesting of scopes, for any number of passes, and
    whatever is left of the budget for trial passes.
   */
  lemma LabelsAreRight(
    c: Call, known: Option<Dir>, budget: int, s: Shell, r: Route, after: Shell, v: nat, actual: Dir)
    requires Known(c) && Agrees(known, s.current)
    requires Readably(c, 0, 0, Size(c), Beginning(known), budget)
    requires Runs(c, 0, 0, Size(c), s, r, after) && v < |Visits(c, 0, 0, Size(c), s, r)|
    requires var visit := Visits(c, 0, 0, Size(c), s, r)[v];
             visit.0 < Size(c) && MayRunIn(c.parsed.commands[visit.0], visit.1.current, actual)
    ensures var k := Visits(c, 0, 0, Size(c), s, r)[v].0;
            k < |Whole(c, known, budget).labels| &&
            var named := RunsIn(c.parsed.commands[k], Whole(c, known, budget).labels[k].current);
            named.Some? ==> named.value == actual
  {
    hide Runs, Readably, Analyse, Opening, Bounded, Matches, StepReadable, MayRunIn, RunsIn, Follow, Sort, Succeeds;
    BeginsRight(known, s);
    WholeBounded(c.parsed);
    Sound(c, 0, 0, Size(c), Beginning(known), budget, s, r, after);
    var visit := Visits(c, 0, 0, Size(c), s, r)[v];
    ReadablyEach(c, 0, 0, Size(c), Beginning(known), budget, visit.0);
    LabelRight(c.parsed.commands[visit.0], Whole(c, known, budget).labels[visit.0], visit.1, actual);
  }

  lemma BeginsRight(known: Option<Dir>, s: Shell)
    requires Agrees(known, s.current)
    ensures Matches(Beginning(known), s)
  {
    assert StackMatches([], s.stack);
  }

  // ---- scripts that can always be believed -------------------------------------------

  predicate SteadyTarget(t: Target) {
    t.To? && !t.absolute && Literal(t.segments) ==> !Climbs(t.segments, 0)
  }

  predicate SteadyChain(chain: seq<Target>) { forall i :: 0 <= i < |chain| ==> SteadyTarget(chain[i]) }

  /** Words with which `pushd` and `popd` rearrange the stack (`-n`, `+1`). */
  predicate Rearranges(verb: Verb, words: seq<Word>) {
    !verb.Cd? && exists i :: 0 <= i < |words| && (words[i].Stay? || Counts(words[i]))
  }

  /** Nothing rearranges the stack, no bare `pushd`, no climbing relative path. */
  predicate SteadyCommand(c: Command) {
    match c
    case Move(verb, words, piped) =>
      piped ||
      (!Rearranges(verb, words) &&
       !(verb.Pushd? && words == []) &&
       (forall i :: 0 <= i < |words| && words[i].Path? ==> SteadyTarget(words[i].target)))
    case Run(chdir, options, _) => SteadyChain(chdir) && (options.Some? ==> SteadyChain(options.value))
    case Redirection => true
  }

  /** `cd -` and its other spellings. */
  predicate GoesBack(c: Command) {
    c.Move? && Targets(c.words) == Some([Previous])
  }

  predicate NoGoingBack(c: Call, low: nat, high: nat) {
    forall k :: low <= k < high && k < Size(c) ==> !GoesBack(c.parsed.commands[k])
  }

  predicate Steady(c: Call) {
    (forall k :: 0 <= k < Size(c) ==> SteadyCommand(c.parsed.commands[k])) &&
    (forall n: nat :: n < |c.parsed.scopes| && IsLoop(c, n) ==>
      NoGoingBack(c, c.parsed.scopes[n].0, c.parsed.scopes[n].1)) &&
    (forall n: nat :: n < |c.parsed.scopes| ==> SteadyChain(Chain(c, n)))
  }

  lemma {:induction false} SteadySeen(chain: seq<Target>, start: Option<Dir>)
    requires SteadyChain(chain)
    ensures SeenBy(chain, start)
    decreases chain
  {
    if chain != [] {
      assert SteadyTarget(chain[0]);
      SteadySeen(chain[1..], Directory(chain[0], start));
    }
  }

  lemma {:induction false} OperandsThere(words: seq<Word>, word: Word)
    requires word in Operands(words)
    ensures word in words
    decreases words
  {
    assert words == Init(words) + [Last(words)];
    if word in Operands(Init(words)) { OperandsThere(Init(words), word); }
  }

  lemma SteadyMoveReadable(verb: Verb, words: seq<Word>, w: Place)
    requires SteadyCommand(Move(verb, words, false))
    ensures Readable(verb, words, w)
  {
    hide Targets, Operands, Lead, Number;
    match verb
    case Cd =>
      if Targets(words).Some? && |Targets(words).value| == 1 && Targets(words).value[0].Path? {
        var word := Targets(words).value[0];
        OneTarget(words);
        var i :| 0 <= i < |words| && words[i] == word;
        assert SteadyTarget(words[i].target);
      }
    case Pushd =>
      SteadyLead(words);
      if |words| == 1 && words[0].Path? { assert SteadyTarget(words[0].target); }
    case Popd =>
      if words != [] { assert !(words[0].Stay? || Counts(words[0])); }
  }

  lemma SteadyLead(words: seq<Word>)
    requires forall i :: 0 <= i < |words| ==> !words[i].Stay? && !Counts(words[i])
    ensures Understood(Lead(words)) ==> Lead(words) == []
  {
    if Lead(words) != [] { assert Lead(words)[0] == words[0]; }
  }

  lemma OneTarget(words: seq<Word>)
    requires Targets(words).Some? && |Targets(words).value| == 1
    ensures Targets(words).value[0] in words
  {
    OperandsThere(words, Targets(words).value[0]);
  }

  predicate Twins(w: Place, v: Place) { w.current == v.current && w.stack == v.stack }

  predicate TwinOutcomes(a: Outcome, b: Outcome) { Twins(a.place, b.place) && a.budget == b.budget }

  lemma TwinSteps(command: Command, w: Place, v: Place, home: Option<Dir>)
    requires Twins(w, v) && !GoesBack(command)
    ensures Twins(Step(command, w, home), Step(command, v, home))
  {
    hide Targets;
    if command.Move? && Targets(command.words).Some? && |Targets(command.words).value| == 1 {
      assert Targets(command.words).value == [Targets(command.words).value[0]];
    }
  }

  lemma TwinLeaves(c: Call, n: nat, w: Place, v: Place, wild: bool, end: Place, end': Place)
    requires Twins(w, v) && Twins(end, end')
    ensures Twins(Leave(c, n, w, wild, end), Leave(c, n, v, wild, end'))
  {
  }

  lemma TwinEntries(c: Call, i: nat, p: nat, w: Place, v: Place, budget: int)
    requires Known(c) && i < Size(c) && p < |Opens(c, i)| && Opens(c, i)[p].0 <= Size(c) && Twins(w, v)
    requires var e := Opens(c, i)[p];
             IsLoop(c, e.1) && budget >= e.0 - i ==>
               TwinOutcomes(Analyse(c, i, p + 1, e.0, w, budget - (e.0 - i)),
                            Analyse(c, i, p + 1, e.0, v, budget - (e.0 - i)))
    ensures var start, start' := Enter(c, i, p, w, budget), Enter(c, i, p, v, budget);
            Twins(start.place, start'.place) && start.wild == start'.wild && start.budget == start'.budget
  {
  }

  /** Without `cd -`, where the shell was before never decides where it is. */
  lemma {:induction false} PreviousIsIdle(c: Call, i: nat, p: nat, h: nat, w: Place, v: Place, budget: int)
    requires Known(c) && Bounded(c.parsed, i, p, h) && NoGoingBack(c, i, h) && Twins(w, v)
    ensures TwinOutcomes(Analyse(c, i, p, h, w, budget), Analyse(c, i, p, h, v, budget))
    decreases Size(c) - i, if p < |Opens(c, i)| then |Opens(c, i)| - p else 0
  {
    if i < h {
      if p < |Opens(c, i)| {
        InnerBounded(c.parsed, i, p, h);
        var e := Opens(c, i)[p];
        assert NoGoingBack(c, i, e.0) && NoGoingBack(c, e.0, h);
        if IsLoop(c, e.1) && budget >= e.0 - i {
          PreviousIsIdle(c, i, p + 1, e.0, w, v, budget - (e.0 - i));
        }
        TwinEntries(c, i, p, w, v, budget);
        var start, start' := Enter(c, i, p, w, budget), Enter(c, i, p, v, budget);
        PreviousIsIdle(c, i, p + 1, e.0, start.place, start'.place, start.budget);
        var end := Analyse(c, i, p + 1, e.0, start.place, start.budget);
        var end' := Analyse(c, i, p + 1, e.0, start'.place, start.budget);
        TwinLeaves(c, e.1, w, v, start.wild, end.place, end'.place);
        PreviousIsIdle(c, e.0, 0, h, Leave(c, e.1, w, start.wild, end.place),
                       Leave(c, e.1, v, start.wild, end'.place), end.budget);
      } else {
        NextBounded(c.parsed, i, p, h);
        var command := c.parsed.commands[i];
        assert !GoesBack(command);
        TwinSteps(command, w, v, c.home);
        PreviousIsIdle(c, i + 1, 0, h, Step(command, w, c.home), Step(command, v, c.home), budget);
      }
    }
  }

  /** Every state of a steady script is readable and all its loops settle. */
  lemma {:induction false} SteadyReadably(c: Call, i: nat, p: nat, h: nat, w: Place, budget: int)
    requires Known(c) && Bounded(c.parsed, i, p, h) && Steady(c)
    ensures Readably(c, i, p, h, w, budget)
    decreases Size(c) - i, if p < |Opens(c, i)| then |Opens(c, i)| - p else 0
  {
    hide Opening, Follow;
    if i < h {
      if p < |Opens(c, i)| {
        InnerBounded(c.parsed, i, p, h);
        EntryFacts(c.parsed, i, p);
        var e := Opens(c, i)[p];
        var start := Enter(c, i, p, w, budget);
        var body := Analyse(c, i, p + 1, e.0, start.place, start.budget);
        if IsLoop(c, e.1) && !start.wild {
          assert NoGoingBack(c, i, e.0);
          PreviousIsIdle(c, i, p + 1, e.0, w, start.place, budget - (e.0 - i));
          SteadyReadably(c, i, p + 1, e.0, start.place, budget - (e.0 - i));
        }
        assert SteadyChain(Chain(c, e.1));
        SteadySeen(Chain(c, e.1), w.current);
        SteadyReadably(c, i, p + 1, e.0, start.place, start.budget);
        SteadyReadably(c, e.0, 0, h, Leave(c, e.1, w, start.wild, body.place), body.budget);
      } else {
        NextBounded(c.parsed, i, p, h);
        var command := c.parsed.commands[i];
        assert SteadyCommand(command);
        if command.Run? && command.options.Some? {
          assert SteadyChain(command.chdir + command.options.value);
          SteadySeen(command.chdir + command.options.value, w.current);
        }
        if command.Move? && !command.piped { SteadyMoveReadable(command.verb, command.words, w); }
        SteadyReadably(c, i + 1, 0, h, Step(command, w, c.home), budget);
      }
    }
  }

  /** The labels of a script that never rearranges the stack, swaps with a bare `pushd`,
      climbs with a relative path or goes back inside a loop are right in every run. */
  lemma SteadyScriptsAreLabelledRight(
    c: Call, known: Option<Dir>, budget: int, s: Shell, r: Route, after: Shell, v: nat, actual: Dir)
    requires Known(c) && Steady(c) && Agrees(known, s.current)
    requires Runs(c, 0, 0, Size(c), s, r, after) && v < |Visits(c, 0, 0, Size(c), s, r)|
    requires var visit := Visits(c, 0, 0, Size(c), s, r)[v];
             visit.0 < Size(c) && MayRunIn(c.parsed.commands[visit.0], visit.1.current, actual)
    ensures var k := Visits(c, 0, 0, Size(c), s, r)[v].0;
            k < |Whole(c, known, budget).labels| &&
            var named := RunsIn(c.parsed.commands[k], Whole(c, known, budget).labels[k].current);
            named.Some? ==> named.value == actual
  {
    WholeBounded(c.parsed);
    SteadyReadably(c, 0, 0, Size(c), Beginning(known), budget);
    LabelsAreRight(c, known, budget, s, r, after, v, actual);
  }
}
