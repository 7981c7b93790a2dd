/**
  Conditions of loops that move the shell: `while cd T && [[ ... ]]; do cd D; done; make`
  (`_Tracker` in ember_armor/ledger/shellpaths.py).  The last condition moves the shell once more,
  and the trial pass of the tracker does not see it.
 */
module MovingTests {
  import opened Prelude
  import opened Paths
  import opened DirStacks
  import opened Moves
  import opened Scopes
  import opened Analysis
  import opened Soundness
  import opened Scripts
  import opened Fitting
  import opened ScriptRuns
  import F = Forests
  import R = Ranges

  function To(t: Target): Command { Move(Cd, [Path(t)], false) }

  const MAKE := Run([], Some([]), false)

  function Moving(t: Target, d: Target): Body {
    Body(Item.Loop(Condition(t), Body(Plain([To(d)], false), Nothing)), More(None, Plain([MAKE], false), Nothing))
  }

  const TEST := More(Some(R.AndThen), Plain([], true), Nothing)

  function Condition(t: Target): Body {
    Body(Plain([To(t)], false), TEST)
  }

  /** Both operands say where they lead: `t` from anywhere, `d` always to the same directory. */
  predicate Readable(t: Target, d: Target) {
    t.To? && Literal(t.segments) && d.To? && Literal(d.segments) && d.absolute
  }

  function Goal(t: Target, from: Dir): Dir
    requires t.To? && Literal(t.segments)
  {
    ResolveClean(if t.absolute then [] else from, t.segments);
    Found(t, from)
  }

  // ---- the parse -------------------------------------------------------------------------------

  /** Both commands of the loop stand in one range, and nothing else does. */
  lemma MovingParse(t: Target, d: Target)
    ensures var c := ScriptCall(Moving(t, d), None);
            Known(c) && c.parsed.commands == [To(t), To(d), MAKE] && |Opens(c, 0)| == 1 && Opens(c, 0)[0].0 == 2 &&
            IsLoop(c, Opens(c, 0)[0].1) && Opens(c, 1) == [] && Opens(c, 2) == [] && c.home == None
  {
    var body := Moving(t, d);
    var c := ScriptCall(body, None);
    ScriptFits(body, None);
    MovingForest(t, d);
    MovingCommands(t, d);
    assert c.home == None;
    hide *;
    MovingFits(c);
  }

  lemma MovingCommands(t: Target, d: Target)
    ensures BodyCommands(Moving(t, d)) == [To(t), To(d), MAKE]
  {
    var cond, inner := Condition(t), Body(Plain([To(d)], false), Nothing);
    assert Commands(Plain([], true)) == [] && RestCommands(Nothing) == [];
    assert RestCommands(Condition(t).rest) == [];
    assert BodyCommands(cond) == [To(t)];
    assert BodyCommands(inner) == [To(d)];
    assert RestCommands(Moving(t, d).rest) == [MAKE];
    assert Commands(Moving(t, d).first) == [To(t), To(d)];
  }

  lemma MovingForest(t: Target, d: Target)
    ensures F.BodyForest(Moving(t, d)) == [F.Node(Some(Guard.Loop), [F.Leaf, F.Leaf]), F.Leaf]
  {
    var cond, inner := Condition(t), Body(Plain([To(d)], false), Nothing);
    var two := [F.Leaf, F.Leaf];
    ForestOfOne(To(t));
    ForestOfOne(To(d));
    ForestOfOne(MAKE);
    ForestOfTest();
    assert !F.Raises(cond.first);
    assert F.BodyForest(cond) == [F.Leaf] && F.BodyForest(inner) == [F.Leaf];
    assert two[1..] == [F.Leaf] && [F.Leaf][1..] == [] && F.Size([F.Leaf]) == 1 && F.Size(two) == 2;
    hide F.BodyForest, F.UpTo, F.Size;
    assert F.BodyForest(cond) + F.BodyForest(inner) == two;
    assert F.Forest(Moving(t, d).first) == [F.Node(Some(Guard.Loop), two)];
    LastIsLeaf(Moving(t, d));
  }

  lemma ForestOfOne(c: Command)
    ensures F.Forest(Plain([c], false)) == [F.Leaf] && F.UpTo(Nothing, F.Raises(Plain([c], false)), None).trees == []
  {
    assert F.Leaves(1) == [F.Leaf];
  }

  lemma ForestOfTest()
    ensures F.UpTo(TEST, false, None).trees == []
  {
    assert F.Leaves(0) == [] && F.UpTo(Nothing, true, None).trees == [];
    assert F.Forest(Plain([], true)) == [];
  }

  lemma LastIsLeaf(body: Body)
    requires body.rest == More(None, Plain([MAKE], false), Nothing)
    ensures F.BodyForest(body) == F.Forest(body.first) + [F.Leaf]
  {
    ForestOfOne(MAKE);
  }

  lemma MovingFits(c: Call)
    requires Known(c) && Fits(c, 0, 0, [F.Node(Some(Guard.Loop), [F.Leaf, F.Leaf]), F.Leaf])
    ensures |Opens(c, 0)| == 1 && Opens(c, 0)[0].0 == 2 && IsLoop(c, Opens(c, 0)[0].1)
    ensures Opens(c, 1) == [] && Opens(c, 2) == []
  {
    hide Bounded, Opening;
    var two := [F.Leaf, F.Leaf];
    assert two[1..] == [F.Leaf] && [F.Leaf][1..] == [];
    assert F.Size([F.Leaf]) == 1 && F.Size(two) == 2;
    FitsNode(c, 0, 0, [F.Node(Some(Guard.Loop), two), F.Leaf]);
    FitsLeaf(c, 0, 1, two);
    FitsLeaf(c, 1, 0, [F.Leaf]);
    assert [F.Node(Some(Guard.Loop), two), F.Leaf][1..] == [F.Leaf];
    FitsLeaf(c, 2, 0, [F.Leaf]);
  }

  // ---- the label -----------------------------------------------------------------------------------

  lemma ToStep(t: Target, w: Place)
    requires t.To? && Literal(t.segments) && (w.current.Some? || t.absolute)
    ensures var from := if w.current.Some? then w.current.value else [];
            Step(To(t), w, None) == Place(Some(Goal(t, from)), w.current, w.stack)
  {
    assert Init([Path(t)]) == [] && Operands([Path(t)]) == [Path(t)];
  }

  lemma Pass(c: Call, t: Target, d: Target, w: Place, budget: int)
    requires c == ScriptCall(Moving(t, d), None) && Readable(t, d)
    ensures Known(c) && Size(c) == 3 && |Opens(c, 0)| == 1
    ensures var end := Step(To(d), Step(To(t), w, None), None);
            Analyse(c, 0, 1, 2, w, budget) == Outcome(end, budget, [w, Step(To(t), w, None)])
    ensures Analyse(c, 2, 0, 3, w, budget).labels == [w]
  {
    MovingParse(t, d);
    hide Opening, Step, ScriptCall, Directory;
    var next := Step(To(t), w, None);
    assert Analyse(c, 2, 0, 2, Step(To(d), next, None), budget) == Outcome(Step(To(d), next, None), budget, []);
    assert Analyse(c, 1, 0, 2, next, budget) == Outcome(Step(To(d), next, None), budget, [next]);
    assert Analyse(c, 3, 0, 3, Step(MAKE, w, None), budget).labels == [];
  }

  /** The tracker labels `make` with where it began, or gives up, by where the body ends. */
  lemma MovingLabel(t: Target, d: Target, s: Dir, budget: int)
    requires Readable(t, d) && budget >= 2
    ensures var c := ScriptCall(Moving(t, d), None);
            Known(c) && |Whole(c, Some(s), budget).labels| == 3 &&
            RunsIn(MAKE, Whole(c, Some(s), budget).labels[2].current) == if Goal(d, s) == s then Some(s) else None
  {
    var c := ScriptCall(Moving(t, d), None);
    MovingParse(t, d);
    var w := Beginning(Some(s));
    var mid := Place(Some(Goal(t, s)), Some(s), []);
    var end := Place(Some(Goal(d, s)), Some(Goal(t, s)), []);
    ToStep(t, w);
    ToStep(d, mid);
    assert Goal(d, Goal(t, s)) == Goal(d, s);
    Pass(c, t, d, w, budget - 2);
    hide Opening, ScriptCall, Step, Goal, Directory;
    var start := Enter(c, 0, 0, w, budget);
    assert start.place == AfterTrial(end, w) && start.wild == Differs(end, w) && start.budget == budget - 2;
    Pass(c, t, d, start.place, start.budget);
    var body := Analyse(c, 0, 1, 2, start.place, start.budget);
    var out := Leave(c, Opens(c, 0)[0].1, w, start.wild, body.place);
    assert Goal(d, s) == s ==> start.place == w && out == w;
    assert Goal(d, s) != s ==> out.current == None;
    Pass(c, t, d, out, body.budget);
    assert Whole(c, Some(s), budget).labels == body.labels + [out];
  }

  // ---- the executions ------------------------------------------------------------------------------

  /** A move that succeeds goes where its operand says. */
  lemma ToGoes(t: Target, s: Shell, after: Shell)
    requires t.To? && Literal(t.segments) && Steps(To(t), None, s, after)
    ensures after.current == Goal(t, s.current)
  {
    assert Init([Path(t)]) == [] && Operands([Path(t)]) == [Path(t)];
    assert Targets([Path(t)]) == Some([Path(t)]);
  }

  /** One command. */
  lemma OnePlayed(c: Command, act: Act, at: nat, s: Shell)
    requires act.Ran? && |act.after| == 1 && (!act.ok ==> !c.Move?)
    ensures Play(Plain([c], false), act, at, s, None) ==
            if Steps(c, None, s, act.after[0]) then Some(Played(act.after[0], [(at, s)], act.ok)) else None
  {
    hide Steps;
    var after := act.after[0];
    assert [c][1..] == [] && act.after[1..] == [] && [(at, s)] + [] == [(at, s)];
    assert PlayAll([], [], at + 1, after, None) == Some(Played(after, [], true));
    assert !c.Move? ==> R.CanFail([c]) by { assert [c][0] == c; }
  }

  /** An execution of one command is of this kind. */
  lemma OnePlayable(c: Command, act: Act, at: nat, s: Shell)
    requires Play(Plain([c], false), act, at, s, None).Some?
    ensures act.Ran? && |act.after| == 1 && (!act.ok ==> !c.Move?)
  {
    hide Steps;
    if c.Move? { assert !R.CanFail([c]); }
  }

  lemma OneTested(act: Act, at: nat, s: Shell)
    requires Play(Plain([], true), act, at, s, None).Some?
    ensures Play(Plain([], true), act, at, s, None).value == Played(s, [], act.ok)
  {
  }

  lemma TestPlayed(acts: RestActs, at: nat, s: Shell, ok: bool)
    requires PlayRest(TEST, acts, at, s, ok, None).Some?
    ensures PlayRest(TEST, acts, at, s, ok, None).value.after == s
    ensures PlayRest(TEST, acts, at, s, ok, None).value.seen == []
  {
    if acts.Onward? && acts.act.Some? {
      RestRuns(TEST, acts, at, s, ok, None);
      OneTested(acts.act.value, at, s);
      NothingMore([]);
    } else {
      RestSkips(TEST, acts, at, s, ok, None);
    }
    hide Play, Commands;
  }

  lemma ConditionPlayed(t: Target, acts: Acts, at: nat, s: Shell)
    requires t.To? && Literal(t.segments) && PlayBody(Condition(t), acts, at, s, None).Some?
    ensures var o := PlayBody(Condition(t), acts, at, s, None).value;
            o.after.current == Goal(t, s.current) && o.seen == [(at, s)]
  {
    hide Goal, Steps, Play, Commands, PlayRest;
    BodyIs(Condition(t), acts, at, s, None);
    OnePlayable(To(t), acts.first, at, s);
    OnePlayed(To(t), acts.first, at, s);
    ToGoes(t, s, acts.first.after[0]);
    var p := Play(Condition(t).first, acts.first, at, s, None).value;
    TestPlayed(acts.rest, at + |Commands(Condition(t).first)|, p.after, p.ok);
    NothingMore([(at, s)]);
  }

  lemma InnerPlayed(d: Target, acts: Acts, at: nat, s: Shell)
    requires d.To? && Literal(d.segments)
    requires PlayBody(Body(Plain([To(d)], false), Nothing), acts, at, s, None).Some?
    ensures var o := PlayBody(Body(Plain([To(d)], false), Nothing), acts, at, s, None).value;
            o.after.current == Goal(d, s.current) && o.seen == [(at, s)]
  {
    hide Goal, Steps;
    OnePlayable(To(d), acts.first, at, s);
    OnePlayed(To(d), acts.first, at, s);
    ToGoes(d, s, acts.first.after[0]);
    var body := Body(Plain([To(d)], false), Nothing);
    var p := Play(body.first, acts.first, at, s, None).value;
    hide Play, Commands;
    NothingMore([(at, s)]);
    var q := PlayRest(body.rest, acts.rest, at + |Commands(body.first)|, p.after, p.ok, None);
    assert q == Some(Played(p.after, [], p.ok));
  }

  predicate InLoop(seen: seq<(nat, Shell)>) { forall v :: 0 <= v < |seen| ==> seen[v].0 < 2 }

  /** When the body comes back, the loop ends where it began, or one condition further. */
  lemma {:induction false} LoopPlayed(t: Target, d: Target, act: Act, s: Shell, ok: bool)
    requires Readable(t, d) && Goal(d, s.current) == s.current
    requires PlayLoop(Condition(t), Body(Plain([To(d)], false), Nothing), act, 0, s, ok, None).Some?
    ensures var o := PlayLoop(Condition(t), Body(Plain([To(d)], false), Nothing), act, 0, s, ok, None).value;
            InLoop(o.seen) && (o.after.current == s.current || o.after.current == Goal(t, s.current))
    decreases act
  {
    var cond, inner := Condition(t), Body(Plain([To(d)], false), Nothing);
    hide PlayBody, Goal;
    match act
    case Stop =>
    case Tested(acts) => ConditionPlayed(t, acts, 0, s);
    case Round(test, pass, next) =>
      var x := PlayBody(cond, test, 0, s, None).value;
      ConditionPlayed(t, test, 0, s);
      var at := 0 + |BodyCommands(cond)|;
      assert at == 1 by { OneCommand(t); }
      InnerPlayed(d, pass, at, x.after);
      assert Goal(d, x.after.current) == Goal(d, s.current) by { AlwaysThere(d, x.after.current, s.current); }
      var y := PlayBody(inner, pass, at, x.after, None).value;
      LoopPlayed(t, d, next, y.after, y.ok);
  }

  lemma OneCommand(t: Target) ensures |BodyCommands(Condition(t))| == 1 { MovingCommands(t, t); }

  lemma AlwaysThere(d: Target, a: Dir, b: Dir)
    requires d.To? && d.absolute && Literal(d.segments)
    ensures Goal(d, a) == Goal(d, b)
  {
  }

  /** A command is labelled with another directory than the one it was executed in. */
  ghost predicate Misled(t: Target, d: Target, acts: Acts, s: Shell, budget: int, v: nat) {
    var (c, o) := (ScriptCall(Moving(t, d), None), PlayBody(Moving(t, d), acts, 0, s, None));
    Known(c) && o.Some? && v < |o.value.seen| && o.value.seen[v].0 == 2 &&
    |Whole(c, Some(s.current), budget).labels| == 3 &&
    var named := RunsIn(MAKE, Whole(c, Some(s.current), budget).labels[2].current);
    named.Some? && named.value != o.value.seen[v].1.current
  }

  /** Where `make` is executed. */
  lemma MakePlayed(t: Target, d: Target, acts: Acts, s: Shell, v: nat)
    requires Readable(t, d) && Goal(d, s.current) == s.current
    requires var o := PlayBody(Moving(t, d), acts, 0, s, None);
             o.Some? && v < |o.value.seen| && o.value.seen[v].0 == 2
    ensures var x := PlayBody(Moving(t, d), acts, 0, s, None).value.seen[v].1.current;
            x == s.current || x == Goal(t, s.current)
  {
    var item := Moving(t, d).first;
    var p := Play(item, acts.first, 0, s, None).value;
    LoopPlayed(t, d, acts.first, s, true);
    hide PlayLoop, Goal, Steps;
    var at := 0 + |Commands(item)|;
    var q := PlayRest(Moving(t, d).rest, acts.rest, at, p.after, p.ok, None).value;
    assert q.seen == [(at, p.after)] by { OnlyMake(acts.rest, at, p.after, p.ok); }
    assert forall n :: 0 <= n < |p.seen| ==> (p.seen + q.seen)[n].0 < 2;
    assert (p.seen + q.seen)[|p.seen|] == q.seen[0];
  }

  lemma OnlyMake(acts: RestActs, at: nat, s: Shell, ok: bool)
    requires PlayRest(More(None, Plain([MAKE], false), Nothing), acts, at, s, ok, None).Some?
    ensures PlayRest(More(None, Plain([MAKE], false), Nothing), acts, at, s, ok, None).value.seen == [(at, s)]
  {
    OnePlayable(MAKE, acts.act.value, at, s);
    OnePlayed(MAKE, acts.act.value, at, s);
    hide Play, Commands;
    NothingMore([(at, s)]);
  }

  /** The condition is tested once and fails. */
  lemma OneTest(t: Target, d: Target, s: Dir) returns (acts: Acts, start: Shell)
    requires Readable(t, d)
    ensures start.current == s && PlayBody(Moving(t, d), acts, 0, start, None).Some?
    ensures var seen := PlayBody(Moving(t, d), acts, 0, start, None).value.seen;
            |seen| == 2 && seen[1].0 == 2 && seen[1].1.current == Goal(t, s)
  {
    start := Shell(s, None, []);
    var after := Shell(Goal(t, s), Some(s), []);
    var test := Acts(Ran([after], true), Onward(Some(Ran([], false)), Over));
    Going(t, s);
    ConditionFails(t, test, start, after);
    hide *;
    acts := Acts(Tested(test), Onward(Some(Ran([after], true)), Over));
    TestedOnce(t, d, test, start, after);
    MovingSize(t, d);
    MakeOnce(t, d, after);
    BodyIs2(Moving(t, d), acts, 0, start);
    TwoSeen(start, after);
  }

  lemma Going(t: Target, s: Dir)
    requires t.To? && Literal(t.segments)
    ensures Steps(To(t), None, Shell(s, None, []), Shell(Goal(t, s), Some(s), []))
  {
    assert Init([Path(t)]) == [] && Operands([Path(t)]) == [Path(t)];
  }

  lemma ConditionFails(t: Target, test: Acts, start: Shell, after: Shell)
    requires Steps(To(t), None, start, after)
    requires test == Acts(Ran([after], true), Onward(Some(Ran([], false)), Over))
    ensures PlayBody(Condition(t), test, 0, start, None) == Some(Played(after, [(0, start)], false))
  {
    var cond := Condition(t);
    OnePlayed(To(t), test.first, 0, start);
    assert |Commands(cond.first)| == 1;
    TestFails(after);
    hide Steps, Play, PlayRest, Commands, PlayBody;
    BodyIs2(cond, test, 0, start);
    NothingMore([(0, start)]);
  }

  lemma TwoSeen(start: Shell, after: Shell)
    ensures var p, q := Played(after, [(0, start)], true), Played(after, [(2, after)], true);
            Then(p, q).seen == [(0, start), (2, after)]
  {
  }

  lemma TestedOnce(t: Target, d: Target, test: Acts, start: Shell, after: Shell)
    requires PlayBody(Condition(t), test, 0, start, None) == Some(Played(after, [(0, start)], false))
    ensures Play(Moving(t, d).first, Tested(test), 0, start, None) == Some(Played(after, [(0, start)], true))
  {
    hide PlayBody;
  }

  lemma MakeOnce(t: Target, d: Target, s: Shell)
    ensures PlayRest(Moving(t, d).rest, Onward(Some(Ran([s], true)), Over), 2, s, true, None) ==
            Some(Played(s, [(2, s)], true))
  {
    MakeStays(s);
    OnePlayed(MAKE, Ran([s], true), 2, s);
    NothingMore([(2, s)]);
    hide Play, Commands;
  }

  lemma TestFails(s: Shell)
    ensures PlayRest(TEST, Onward(Some(Ran([], false)), Over), 1, s, true, None) == Some(Played(s, [], false))
  {
    assert Play(Plain([], true), Ran([], false), 1, s, None) == Some(Played(s, [], false));
    NothingMore([]);
  }

  lemma MakeStays(s: Shell) ensures Steps(MAKE, None, s, s) {}

  lemma MovingSize(t: Target, d: Target)
    ensures |Commands(Moving(t, d).first)| == 2
  {
    MovingCommands(t, d);
    assert RestCommands(Moving(t, d).rest) == [MAKE];
  }

  lemma BodyIs2(body: Body, acts: Acts, at: nat, s: Shell)
    requires var p := Play(body.first, acts.first, at, s, None);
             p.Some? &&
             PlayRest(body.rest, acts.rest, at + |Commands(body.first)|, p.value.after, p.value.ok, None).Some?
    ensures var p := Play(body.first, acts.first, at, s, None).value;
            var q := PlayRest(body.rest, acts.rest, at + |Commands(body.first)|, p.after, p.ok, None).value;
            PlayBody(body, acts, at, s, None) == Some(Then(p, q))
  {
    hide Play, PlayRest, Commands;
  }

  /**
    Some execution of `while cd T && [[ ... ]]; do cd D; done; make` runs `make` in another
    directory than its label names, exactly if the body comes back to where the loop began and the
    condition leads away from there.
   */
  lemma MovingTestMisleadsExactly(t: Target, d: Target, s: Dir, budget: int)
    requires Readable(t, d) && budget >= 2
    ensures (exists acts: Acts, start: Shell, v: nat :: start.current == s && Misled(t, d, acts, start, budget, v)) <==>
            Goal(d, s) == s && Goal(t, s) != s
  {
    MovingLabel(t, d, s, budget);
    if acts: Acts, start: Shell, v: nat :| start.current == s && Misled(t, d, acts, start, budget, v) {
      MakePlayed(t, d, acts, start, v);
    }
    if Goal(d, s) == s && Goal(t, s) != s {
      var acts, start := OneTest(t, d, s);
      hide PlayBody, Goal, ScriptCall, RunsIn, Whole;
      assert Misled(t, d, acts, start, budget, 1);
    }
  }
}
