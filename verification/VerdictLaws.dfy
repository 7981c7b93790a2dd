/**
  What becomes of the verdicts on the rules of a ledger (`evaluate` in
  ember_armor/ledger/engine.py): the parts of a call a scoped rule sees are judged as if there
  were no scope, and every verdict is noted once, in the order of the rules.
 */
module VerdictLaws {
  import opened Prelude
  import opened Evaluation
  import Reminders

  // ---- one rule ------------------------------------------------------------------------------------

  function Unscoped(rule: Rule): Rule { rule.(scope := None) }

  /** The same world without exceptions. */
  function Strict(w: World): World { w.(excepted := (_, _, _, _) => Some(false)) }

  lemma {:induction false} StrictHolds(p: Predicate, call: Call, possible: bool, w: World)
    ensures Holds(p, call, possible, Strict(w)) == Holds(p, call, possible, w)
    decreases p, 0
  {
    match p
    case All(of) => StrictUntil(of, false, call, possible, w);
    case Any(of) => StrictUntil(of, true, call, possible, w);
    case Not(inner) => StrictHolds(inner, call, possible, w);
    case _ =>
  }

  lemma {:induction false} StrictUntil(of: seq<Predicate>, stop: bool, call: Call, possible: bool, w: World)
    ensures Until(of, stop, call, possible, Strict(w)) == Until(of, stop, call, possible, w)
    decreases of, 1
  {
    if of != [] {
      StrictHolds(of[0], call, possible, w);
      StrictUntil(of[1..], stop, call, possible, w);
    }
  }

  /** A rule without a scope and without exceptions fires exactly when it is broken. */
  lemma UnscopedJudged(rule: Rule, call: Call, possible: bool, w: World)
    ensures Judge(Unscoped(rule), call, possible, Strict(w)) ==
            if !(rule.tools == [] || exists tool :: tool in rule.tools && w.tool(tool)) then Quiet
            else
              match Holds(rule.when, call, possible, w)
              case None => Unjudged
              case Some(held) => if held == rule.obligation then Quiet else Fires(false)
  {
    StrictHolds(rule.when, call, possible, w);
    if tool :| tool in rule.tools && w.tool(tool) {
      var i :| 0 <= i < |rule.tools| && rule.tools[i] == tool;
      assert w.tool(rule.tools[i]);
    }
    hide Holds;
  }

  /** What would be said of a part of the call. */
  function Of(rule: Rule, part: Call, possible: bool, w: World): Verdict {
    Judge(Unscoped(rule), part, possible, Strict(w))
  }

  /** A rule that is broken in what it sees fires, unless an exception holds or cannot be judged. */
  lemma BrokenWhereSeen(rule: Rule, call: Call, possible: bool, w: World)
    requires View(call, rule.scope, w).0.Some? && Of(rule, View(call, rule.scope, w).0.value, possible, w).Fires?
    ensures Judge(rule, call, possible, w) ==
            match w.excepted(rule, call, View(call, rule.scope, w).0.value, possible)
            case Some(true) => Excepted
            case Some(false) => Fires(false)
            case None => Fires(true)
  {
    Reduces(rule, call, View(call, rule.scope, w).0.value, possible, w);
    hide Holds, View, ForTool;
  }

  lemma Reduces(rule: Rule, call: Call, part: Call, possible: bool, w: World)
    ensures Of(rule, part, possible, w) ==
            if !ForTool(rule, w) then Quiet
            else
              match Holds(rule.when, part, possible, w)
              case None => Unjudged
              case Some(held) => if held == rule.obligation then Quiet else Fires(false)
  {
    StrictHolds(rule.when, part, possible, w);
    assert ForTool(Unscoped(rule), Strict(w)) == ForTool(rule, w);
    hide Holds, ForTool;
  }

  /**
    Otherwise it never fires.  It is said that it might exactly if it is broken in the part of the
    call that nobody can place, and it is not judged when a part it depends on cannot be.
   */
  lemma KeptWhereSeen(rule: Rule, call: Call, possible: bool, w: World)
    requires View(call, rule.scope, w).0.Some? ==>
               !Of(rule, View(call, rule.scope, w).0.value, possible, w).Fires?
    ensures var (view, maybe) := View(call, rule.scope, w);
            Judge(rule, call, possible, w) ==
            if view.Some? && Of(rule, view.value, possible, w).Unjudged? then Unjudged
            else if maybe.None? then Quiet
            else
              match Of(rule, maybe.value, possible, w)
              case Fires(_) => MightFire
              case other => other
  {
    var (view, maybe) := View(call, rule.scope, w);
    if view.Some? { Reduces(rule, call, view.value, possible, w); }
    if maybe.Some? { Reduces(rule, call, maybe.value, possible, w); }
    hide Holds, View, ForTool, Of;
  }

  // ---- all rules -----------------------------------------------------------------------------------

  /** The names of the rules with such a verdict, in order. */
  function Told(rules: seq<Rule>, call: Call, possible: bool, w: World, which: Verdict -> bool): seq<string> {
    if rules == [] then []
    else
      Told(Init(rules), call, possible, w, which) +
      if which(Judge(Last(rules), call, possible, w)) then [Last(rules).id] else []
  }

  function Reports(rules: seq<Rule>, call: Call, possible: bool, w: World): seq<Reminders.Rule> {
    if rules == [] then []
    else
      Reports(Init(rules), call, possible, w) +
      if Judge(Last(rules), call, possible, w).Fires? then [Last(rules).report] else []
  }

  /** All that is noted of rules that are judged alike. */
  predicate Adds(before: State, after: State, rules: seq<Rule>, call: Call, possible: bool, w: World) {
    after.fired == before.fired + Reports(rules, call, possible, w) &&
    after.excepted == before.excepted + Told(rules, call, possible, w, (v: Verdict) => v.Excepted?) &&
    after.failures == before.failures +
      Told(rules, call, possible, w, (v: Verdict) => v.Unjudged? || v == Fires(true)) &&
    after.possible == before.possible + Told(rules, call, possible, w, (v: Verdict) => v.MightFire?)
  }

  lemma AddsNothing(s: State, call: Call, possible: bool, w: World) ensures Adds(s, s, [], call, possible, w) {}

  lemma ToldMore(list: seq<string>, rules: seq<Rule>, call: Call, possible: bool, w: World, which: Verdict -> bool)
    requires rules != []
    ensures list + Told(rules, call, possible, w, which) ==
            if which(Judge(Last(rules), call, possible, w))
            then list + Told(Init(rules), call, possible, w, which) + [Last(rules).id]
            else list + Told(Init(rules), call, possible, w, which)
  {
    hide Judge;
    var told := Told(Init(rules), call, possible, w, which);
    assert told + [] == told && list + (told + [Last(rules).id]) == list + told + [Last(rules).id];
  }

  lemma ReportedMore(list: seq<Reminders.Rule>, rules: seq<Rule>, call: Call, possible: bool, w: World)
    requires rules != []
    ensures list + Reports(rules, call, possible, w) ==
            if Judge(Last(rules), call, possible, w).Fires?
            then list + Reports(Init(rules), call, possible, w) + [Last(rules).report]
            else list + Reports(Init(rules), call, possible, w)
  {
    hide Judge;
    var told := Reports(Init(rules), call, possible, w);
    assert told + [] == told && list + (told + [Last(rules).report]) == list + told + [Last(rules).report];
  }

  lemma AddsOne(before: State, s: State, rules: seq<Rule>, call: Call, possible: bool, w: World)
    requires rules != [] && Adds(before, s, Init(rules), call, possible, w)
    ensures Adds(before, Note(s, Last(rules), Judge(Last(rules), call, possible, w)), rules, call, possible, w)
  {
    hide Judge, Told, Reports;
    ReportedMore(before.fired, rules, call, possible, w);
    ToldMore(before.excepted, rules, call, possible, w, (v: Verdict) => v.Excepted?);
    ToldMore(before.failures, rules, call, possible, w, (v: Verdict) => v.Unjudged? || v == Fires(true));
    ToldMore(before.possible, rules, call, possible, w, (v: Verdict) => v.MightFire?);
  }

  /**
    The rules that ask nothing about other rules are judged one by one, and each verdict is noted
    in one list, where it belongs, in the order of the ledger.
   */
  lemma {:induction false} FirstIsNoted(rules: seq<Rule>, call: Call, w: World)
    ensures Adds(State([], [], [], []), First(rules, call, w), rules, call, false, w)
    decreases rules
  {
    hide Judge, Adds, Note;
    if rules == [] {
      AddsNothing(State([], [], [], []), call, false, w);
    } else {
      FirstIsNoted(Init(rules), call, w);
      AddsOne(State([], [], [], []), First(Init(rules), call, w), rules, call, false, w);
    }
  }

  /** So are the others, in the call with its unknown directories taken for its own. */
  lemma {:induction false} SecondIsNoted(s: State, rules: seq<Rule>, call: Call, w: World)
    requires s.possible != []
    ensures Adds(s, Second(s, rules, call, w), rules, AtHome(call), true, w) && Second(s, rules, call, w).possible != []
    decreases rules
  {
    hide Judge, Adds, Note, AtHome;
    if rules == [] {
      AddsNothing(s, AtHome(call), true, w);
    } else {
      SecondIsNoted(s, Init(rules), call, w);
      var before := Second(s, Init(rules), call, w);
      AddsOne(s, before, rules, AtHome(call), true, w);
      StillPossible(s, Second(s, rules, call, w), rules, AtHome(call), w);
    }
  }

  lemma StillPossible(s: State, after: State, rules: seq<Rule>, call: Call, w: World)
    requires s.possible != [] && Adds(s, after, rules, call, true, w)
    ensures after.possible != []
  {
  }

  /** At home every item stands in a directory that is known, or in that of the call. */
  lemma HomeIsKnown(call: Call)
    ensures var home := AtHome(call);
            |home.commands| == |call.commands| && |home.paths| == |call.paths| && home.madeIn == call.madeIn &&
            (forall i :: 0 <= i < |call.commands| ==>
               home.commands[i].text == call.commands[i].text && home.commands[i].cwd != UNKNOWN &&
               Here(home.commands[i], home) ==
                 if call.commands[i].cwd == UNKNOWN then call.madeIn else Here(call.commands[i], call)) &&
            (forall i :: 0 <= i < |call.paths| ==>
               home.paths[i].text == call.paths[i].text && home.paths[i].cwd != UNKNOWN &&
               Here(home.paths[i], home) ==
                 if call.paths[i].cwd == UNKNOWN then call.madeIn else Here(call.paths[i], call))
  {
  }
}
