/**
  `cd -` inside a loop: the trial pass of `_Tracker` compares where the shell is and its
  stack, not where it was before (`_Where.differs`, ember_armor/ledger/shellpaths.py), so a
  pass that ends where it began may still send the next one somewhere else.
 */
module GoingBack {
  import opened Prelude
  import opened Paths
  import opened DirStacks
  import opened Moves
  import opened Scopes
  import opened Analysis
  import opened Soundness

  const U: Dir := [Name("u")]
  const UV: Dir := [Name("u"), Name("v")]
  const UU: Dir := [Name("u"), Name("u")]
  const UUV: Dir := [Name("u"), Name("u"), Name("v")]

  function Go(rest: seq<Segment>): Command { Move(Cd, [Word.Path(To(false, rest))], false) }

  /** `cd u/v; while ...; do cd -; cd u; cd v; done` */
  const SCRIPT: Call :=
    Call(Parsed([Go(UV), Move(Cd, [Previous], false), Go(U), Go([Name("v")])], [(1, 4)], map[0 := Loop], {},
      map[]), None)

  lemma Openings()
    ensures Opens(SCRIPT, 0) == [] && Opens(SCRIPT, 1) == [(4, 0)] && Opens(SCRIPT, 2) == [] && Opens(SCRIPT, 3) == []
  {
    var scopes := SCRIPT.parsed.scopes;
    assert Listed(scopes, 0, 1) == [] && Listed(scopes, 2, 1) == [] && Listed(scopes, 3, 1) == [];
    assert Listed(scopes, 1, 1) == [(4, 0)];
    assert Init([(4, 0)]) == [];
  }

  /** One `cd` by name. */
  lemma Enters(d: Dir, names: Dir)
    ensures Found(To(false, names), d) == d + names
    ensures Directory(To(false, names), Some(d)) == Some(d + names)
  {
    NormalStays(d, names);
  }

  /** A pass from `d`, entered with `before` as the previous directory. */
  function Pass(d: Dir, before: Dir): (Shell, Shell, Shell) {
    (Shell(before, Some(d), []),
     Shell(before + U, Some(before), []),
     Shell(before + UV, Some(before + U), []))
  }

  function PassRoute(d: Dir, before: Dir): Route {
    var (x, y, z) := Pass(d, before);
    Exec(x, Exec(y, Exec(z, Done)))
  }

  lemma PassRuns(d: Dir, before: Dir)
    requires Known(SCRIPT)
    ensures var s := Shell(d, Some(before), []);
            Runs(SCRIPT, 1, 1, 4, s, PassRoute(d, before), Pass(d, before).2) &&
            Visits(SCRIPT, 1, 1, 4, s, PassRoute(d, before))[0] == (1, s)
  {
    Openings();
    var (x, y, z) := Pass(d, before);
    Enters(before, U);
    Enters(before + U, [Name("v")]);
    assert before + U + [Name("v")] == before + UV;
    assert Runs(SCRIPT, 4, 0, 4, z, Done, z);
    assert Runs(SCRIPT, 3, 0, 4, y, Exec(z, Done), z);
    assert Runs(SCRIPT, 2, 0, 4, x, Exec(y, Exec(z, Done)), z);
  }

  /** The trial pass from `/u/v`, reached from `/`, ends in `/u/v`. */
  lemma TrialAgrees(budget: int)
    requires Known(SCRIPT) && budget >= 3
    ensures Enter(SCRIPT, 1, 0, Place(Some(UV), Some([]), []), budget).place == Place(Some(UV), None, [])
  {
    Openings();
    var root: Dir := [];
    Enters([], U);
    Enters(U, [Name("v")]);
    assert root + U == U && U + [Name("v")] == UV;
    var w1 := Place(Some(root), Some(UV), []);
    var w2 := Place(Some(U), Some(root), []);
    var w3 := Place(Some(UV), Some(U), []);
    assert Analyse(SCRIPT, 4, 0, 4, w3, budget - 3).place == w3;
    assert Analyse(SCRIPT, 3, 0, 4, w2, budget - 3).place == w3;
    assert Analyse(SCRIPT, 2, 0, 4, w1, budget - 3).place == w3;
    assert Analyse(SCRIPT, 1, 1, 4, Place(Some(UV), Some(root), []), budget - 3).place == w3;
  }

  const BEFORE := Shell([], None, [])
  const FIRST := Shell(UV, Some([]), [])
  const SECOND := Shell(UV, Some(U), [])
  const THIRD := Shell(UUV, Some(UU), [])

  function End(): Shell { Pass(UUV, UU).2 }

  function Passes3(): Route { Again(PassRoute(UUV, UU), End(), Past(Done)) }

  function Passes2(): Route { Again(PassRoute(UV, U), THIRD, Passes3()) }

  function Passes1(): Route { Again(PassRoute(UV, []), SECOND, Passes2()) }

  lemma PassesMeet()
    ensures Pass(UV, []).2 == SECOND && Pass(UV, U).2 == THIRD
  {
    var root: Dir := [];
    assert root + UV == UV && root + U == U && U + U == UU && U + UV == UUV;
  }

  lemma PassesRun()
    requires Known(SCRIPT)
    ensures Runs(SCRIPT, 1, 0, 4, FIRST, Passes1(), End())
  {
    Openings();
    PassesMeet();
    PassRuns(UV, []);
    PassRuns(UV, U);
    PassRuns(UUV, UU);
    assert Runs(SCRIPT, 4, 0, 4, End(), Done, End());
    assert Runs(SCRIPT, 1, 0, 4, End(), Past(Done), End());
    assert Runs(SCRIPT, 1, 0, 4, THIRD, Passes3(), End());
    assert Runs(SCRIPT, 1, 0, 4, SECOND, Passes2(), End());
  }

  lemma PassesVisit()
    requires Known(SCRIPT)
    ensures var visits := Visits(SCRIPT, 1, 0, 4, FIRST, Passes1()); |visits| > 6 && visits[6] == (1, THIRD)
  {
    Openings();
    VisitsOfPass(UV, []);
    VisitsOfPass(UV, U);
    VisitsOfPass(UUV, UU);
    PassRuns(UUV, UU);
    var third := Visits(SCRIPT, 1, 0, 4, THIRD, Passes3());
    assert third[0] == (1, THIRD);
    var second := Visits(SCRIPT, 1, 0, 4, SECOND, Passes2());
    assert second == Visits(SCRIPT, 1, 1, 4, SECOND, PassRoute(UV, U)) + third;
    assert second[3] == (1, THIRD);
    var first := Visits(SCRIPT, 1, 0, 4, FIRST, Passes1());
    assert first == Visits(SCRIPT, 1, 1, 4, FIRST, PassRoute(UV, [])) + second;
  }

  lemma LoopLabel()
    requires Known(SCRIPT)
    ensures var labels := Whole(SCRIPT, Some([]), TRIAL_STEPS).labels;
            |labels| > 1 && labels[1] == Place(Some(UV), None, [])
  {
    Openings();
    var root: Dir := [];
    Enters(root, UV);
    assert root + UV == UV;
    var w := Place(Some(UV), Some(root), []);
    assert Step(SCRIPT.parsed.commands[0], Beginning(Some(root)), None) == w;
    WholeBounded(SCRIPT.parsed);
    NextBounded(SCRIPT.parsed, 0, 0, 4);
    LabelCount(SCRIPT, 1, 0, 4, w, TRIAL_STEPS);
    TrialAgrees(TRIAL_STEPS);
    FirstLabel(w, TRIAL_STEPS);
  }

  lemma FirstLabel(w: Place, budget: int)
    requires Known(SCRIPT)
    ensures var labels := Analyse(SCRIPT, 1, 0, 4, w, budget).labels;
            labels != [] && labels[0] == Enter(SCRIPT, 1, 0, w, budget).place
  {
    Openings();
    var start := Enter(SCRIPT, 1, 0, w, budget);
    assert Analyse(SCRIPT, 1, 1, 4, start.place, start.budget).labels[0] == start.place;
  }

  /**
    Without the condition on loops a label can be wrong: in the third pass `cd -` runs in
    `/u/u/v`, and its label is `/u/v`.  Every command of the script is steady on its own.
   */
  lemma GoingBackInALoopMisleads() returns (s: Shell, r: Route, after: Shell, v: nat)
    ensures Known(SCRIPT) && (forall k :: 0 <= k < Size(SCRIPT) ==> SteadyCommand(SCRIPT.parsed.commands[k]))
    ensures Runs(SCRIPT, 0, 0, Size(SCRIPT), s, r, after) && v < |Visits(SCRIPT, 0, 0, Size(SCRIPT), s, r)|
    ensures Visits(SCRIPT, 0, 0, Size(SCRIPT), s, r)[v].0 == 1
    ensures Visits(SCRIPT, 0, 0, Size(SCRIPT), s, r)[v].1.current == UUV
    ensures |Whole(SCRIPT, Some(s.current), TRIAL_STEPS).labels| > 1
    ensures RunsIn(SCRIPT.parsed.commands[1], Whole(SCRIPT, Some(s.current), TRIAL_STEPS).labels[1].current) == Some(UV)
  {
    hide Runs, Visits, Analyse, Whole;
    s, r, after, v := BEFORE, Exec(FIRST, Passes1()), End(), 7;
    AllSteady();
    ScriptRuns();
    ScriptVisits();
    LoopLabel();
  }

  lemma AllSteady()
    ensures forall k :: 0 <= k < Size(SCRIPT) ==> SteadyCommand(SCRIPT.parsed.commands[k])
  {
    var commands := SCRIPT.parsed.commands;
    assert SteadyCommand(commands[0]) && SteadyCommand(commands[1]) && SteadyCommand(commands[2]) &&
      SteadyCommand(commands[3]);
  }

  lemma FirstMove()
    ensures Steps(SCRIPT.parsed.commands[0], None, BEFORE, FIRST)
  {
    var root: Dir := [];
    Enters(root, UV);
    assert root + UV == UV;
  }

  lemma ScriptRuns()
    ensures Known(SCRIPT) && Runs(SCRIPT, 0, 0, 4, BEFORE, Exec(FIRST, Passes1()), End())
  {
    Openings();
    FirstMove();
    PassesRun();
    hide Steps, Opening, Known, Passes1, End;
  }

  lemma ScriptVisits()
    requires Known(SCRIPT)
    ensures var visits := Visits(SCRIPT, 0, 0, 4, BEFORE, Exec(FIRST, Passes1()));
            |visits| > 7 && visits[7] == (1, THIRD)
  {
    Openings();
    PassesVisit();
    var visits := Visits(SCRIPT, 0, 0, 4, BEFORE, Exec(FIRST, Passes1()));
    assert visits == [(0, BEFORE)] + Visits(SCRIPT, 1, 0, 4, FIRST, Passes1());
  }

  lemma VisitsOfPass(d: Dir, before: Dir)
    requires Known(SCRIPT)
    ensures |Visits(SCRIPT, 1, 1, 4, Shell(d, Some(before), []), PassRoute(d, before))| == 3
  {
    Openings();
    var (x, y, z) := Pass(d, before);
    assert Visits(SCRIPT, 4, 0, 4, z, Done) == [];
    assert |Visits(SCRIPT, 3, 0, 4, y, Exec(z, Done))| == 1;
    assert |Visits(SCRIPT, 2, 0, 4, x, Exec(y, Exec(z, Done)))| == 2;
  }
}
