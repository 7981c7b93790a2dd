/**
  What happens to a decision when rules are added to a ledger (`evaluate` in
  ember_armor/ledger/engine.py): when no rule that fired is ever lost, and how a rule that
  requires unknown directories is.
 */
module LedgerGrowth {
  import opened Prelude
  import opened Evaluation
  import opened LedgerOrder
  import Reminders

  /** No rule requires that unknown directories be possible. */
  predicate NoRequire(rules: seq<Rule>) {
    forall rule :: rule in rules && rule.when.Unknown? ==> !rule.obligation
  }

  // ---- nothing is lost -------------------------------------------------------------------

  lemma {:induction false} NothingFiresUnasked(rules: seq<Rule>, call: Call, w: World)
    requires forall rule :: rule in rules ==> rule.when.Unknown? && !rule.obligation
    ensures Fired(rules, call, false, w) == multiset{}
    decreases rules
  {
    hide View;
    if rules != [] {
      assert rules == Init(rules) + [Last(rules)];
      assert Last(rules) in rules;
      NothingFiresUnasked(Init(rules), call, w);
    }
  }

  lemma {:induction false} SecondOnlyAdds(s: State, rules: seq<Rule>, call: Call, w: World)
    ensures multiset(s.fired) <= multiset(Second(s, rules, call, w).fired)
    decreases rules
  {
    hide Judge, AtHome, Note, OneFired;
    if rules != [] {
      SecondOnlyAdds(s, Init(rules), call, w);
      var before := Second(s, Init(rules), call, w);
      NoteFires(before, Last(rules), AtHome(call), before.possible != [], w);
    }
  }

  /** Where nothing is required, whatever fires without further rules fires with them. */
  lemma MoreRulesKeep(rules: seq<Rule>, more: seq<Rule>, call: Call, w: World)
    requires multiset(rules) <= multiset(more) && NoRequire(rules)
    ensures multiset(Judged(rules, call, w).fired) <= multiset(Judged(more, call, w).fired)
  {
    hide Judge, AtHome, Clashes, Fired, SomeMight, First, Second;
    NoScopedRequireNoClash(rules, call, w);
    FiredUnlessClash(rules, call, w);
    MoreRulesSplit(rules, more);
    MoreRulesMoreFired(Others(rules), Others(more), call, false, w);
    if SomeMight(Others(rules), call, w) {
      MightInMore(Others(rules), Others(more), call, w);
      MightNoClash(more, call, w);
      FiredUnlessClash(more, call, w);
      MoreRulesMoreFired(Deferred(rules), Deferred(more), AtHome(call), true, w);
    } else {
      forall rule | rule in Deferred(rules) ensures rule.when.Unknown? && !rule.obligation {
        SplitCounts(rules, rule);
        assert rule in multiset(Deferred(rules)) && rule in multiset(rules);
      }
      NothingFiresUnasked(Deferred(rules), AtHome(call), w);
      FirstFires(Others(more), call, w);
      SecondOnlyAdds(First(Others(more), call, w), Deferred(more), call, w);
    }
  }

  /** So the decision is never weakened: whatever is added, a `require` rule included. */
  lemma MoreRulesNeverLower(rules: seq<Rule>, more: seq<Rule>, call: Call, w: World)
    requires multiset(rules) <= multiset(more) && NoRequire(rules)
    ensures multiset(Decide(rules, call, w).fired) <= multiset(Decide(more, call, w).fired)
    ensures Strength(Decide(rules, call, w).effect) <= Strength(Decide(more, call, w).effect)
  {
    hide Judged, Decide;
    MoreRulesKeep(rules, more, call, w);
    EffectIsStrongest(rules, call, w);
    EffectIsStrongest(more, call, w);
    MoreFiredStronger(rules, more, call, w);
  }

  // ---- a rule that is lost ------------------------------------------------------------------

  /** The rules of a ledger are told apart by what they report. */
  predicate DistinctReports(rules: seq<Rule>) {
    forall i, j :: 0 <= i < j < |rules| ==> rules[i].report != rules[j].report
  }

  lemma {:induction false} FiredReports(rules: seq<Rule>, call: Call, possible: bool, w: World, report: Reminders.Rule)
    requires report in Fired(rules, call, possible, w)
    ensures exists rule :: rule in rules && rule.report == report && Judge(rule, call, possible, w).Fires?
    decreases rules
  {
    hide Judge;
    assert rules != [];
    assert rules == Init(rules) + [Last(rules)] && Last(rules) in rules;
    if report in Fired(Init(rules), call, possible, w) {
      FiredReports(Init(rules), call, possible, w, report);
    }
  }

  lemma NotWhenPossible(rule: Rule, call: Call, w: World)
    requires rule.when.Unknown? && rule.obligation
    ensures Judge(rule, call, true, w).Quiet?
  {
    hide View;
  }

  /** In a ledger where nothing else is possible, a required rule fires. */
  lemma RequiredFires(rules: seq<Rule>, required: Rule, call: Call, w: World)
    requires required in rules && required.when.Unknown? && Judge(required, AtHome(call), false, w).Fires?
    requires !SomeMight(Others(rules), call, w) && !SomeMight(Deferred(rules), AtHome(call), w)
    ensures required.report in multiset(Judged(rules, call, w).fired)
  {
    hide Judge, AtHome, Judged, Fired, SomeMight;
    InDeferred(rules, required);
    FiredUnlessClash(rules, call, w);
    FiredHolds(Deferred(rules), required, AtHome(call), false, w);
  }

  /** One more rule, which would fire where the gate cannot see, and it does not. */
  lemma RequiredIsSilenced(rules: seq<Rule>, required: Rule, other: Rule, call: Call, w: World)
    requires DistinctReports(rules) && required in rules && required.when.Unknown? && required.obligation
    requires !other.when.Unknown? && Judge(other, call, false, w).MightFire?
    ensures required.report !in multiset(Judged(rules + [other], call, w).fired)
  {
    hide Judge, AtHome, Judged, Fired, Clashes, Others, Deferred, SomeMight, DistinctReports;
    var more := rules + [other];
    SplitAlike([other], false);
    SplitInTwo(rules, [other]);
    assert Others(more) == Others(rules) + [other] && Deferred(more) == Deferred(rules) + [] == Deferred(rules);
    assert other in Others(more);
    SomeoneMight(Others(more), other, call, w);
    MightNoClash(more, call, w);
    FiredUnlessClash(more, call, w);
    var report := required.report;
    if report in Fired(Others(more), call, false, w) {
      FiredReports(Others(more), call, false, w, report);
      var rule :| rule in Others(more) && rule.report == report && Judge(rule, call, false, w).Fires?;
      assert rule != other;
      InLedger(rules, rule, false);
      SameReport(rules, rule, required);
    } else if report in Fired(Deferred(more), AtHome(call), true, w) {
      FiredReports(Deferred(more), AtHome(call), true, w, report);
      var rule :| rule in Deferred(rules) && rule.report == report && Judge(rule, AtHome(call), true, w).Fires?;
      InLedger(rules, rule, true);
      SameReport(rules, rule, required);
      NotWhenPossible(required, AtHome(call), w);
    }
  }

  lemma SameReport(rules: seq<Rule>, a: Rule, b: Rule)
    requires DistinctReports(rules) && a in rules && b in rules && a.report == b.report
    ensures a == b
  {
    var i :| 0 <= i < |rules| && rules[i] == a;
    var j :| 0 <= j < |rules| && rules[j] == b;
  }

  lemma InLedger(rules: seq<Rule>, rule: Rule, deferred: bool)
    requires rule in if deferred then Deferred(rules) else Others(rules)
    ensures rule in rules && rule.when.Unknown? == deferred
  {
    SplitCounts(rules, rule);
    assert rule in multiset(if deferred then Deferred(rules) else Others(rules));
    assert rule in multiset(rules);
  }

  // ---- such a rule, call and world exist for every ledger -----------------------------------------

  /** A number that no scope of the ledger has. */
  function Unused(rules: seq<Rule>): (n: nat)
    ensures forall rule :: rule in rules && rule.scope.Some? ==> rule.scope.value.number < n
  {
    if rules == [] then 0
    else
      var n, last := Unused(Init(rules)), Last(rules);
      assert rules == Init(rules) + [last];
      if last.scope.Some? && last.scope.value.number >= n then last.scope.value.number + 1 else n
  }

  /** Whether the repository of a path is known does not depend on who asks. */
  ghost predicate Real(w: World) {
    forall n, m, path :: w.rooted(n, path).None? <==> w.rooted(m, path).None?
  }

  /** A command in the directory the call is made in, and the same one in an unknown directory. */
  const CALL := Call([Item("", "x"), Item(UNKNOWN, "x")], [], "/")

  /** All that is known is in every scope, except the one with this number. */
  function AllButOne(number: nat): (w: World)
    ensures Real(w)
  {
    World(_ => true, (n, _) => n != number, (_, _) => Some(true), (_, _) => Some(false), (_, _, _, _) => Some(false))
  }

  /** A rule on every command in a directory that the call is not made in. */
  function Elsewhere(number: nat, report: Reminders.Rule): Rule {
    Rule("elsewhere", report, [], Some(Scope(number, true, false)), All([]), false)
  }

  lemma ElsewhereMight(number: nat, report: Reminders.Rule)
    ensures Judge(Elsewhere(number, report), CALL, false, AllButOne(number)).MightFire?
  {
    var w, scope := AllButOne(number), Scope(number, true, false);
    TwoItems(scope, w, Some(true));
    TwoItems(scope, w, None);
    assert Inside("/", scope, w) == Some(false);
    assert Those(CALL.commands, CALL, scope, w, false, Some(true)) == [];
    assert Those(CALL.commands, CALL, scope, w, false, None) == [Item(UNKNOWN, "x")];
    assert Those([], CALL, scope, w, false, Some(true)) == Those([], CALL, scope, w, false, None) == [];
    assert View(CALL, Some(scope), w) == (None, Some(CALL.(commands := [Item(UNKNOWN, "x")])));
    hide View;
  }

  lemma TwoItems(scope: Scope, w: World, verdict: Option<bool>)
    ensures Those(CALL.commands, CALL, scope, w, false, verdict) ==
            (if Inside("/", scope, w) == verdict then [Item("", "x")] else []) +
            (if verdict == None then [Item(UNKNOWN, "x")] else [])
  {
    hide Inside;
    assert Inside(UNKNOWN, scope, w) == None by { OutOfSight(scope, w); }
    var first, second := Item("", "x"), Item(UNKNOWN, "x");
    assert Init(CALL.commands) == [first] && Init([first]) == [];
    assert Those([], CALL, scope, w, false, verdict) == [];
    assert Those([first], CALL, scope, w, false, verdict)
        == if Inside("/", scope, w) == verdict then [first] else [];
  }

  lemma OutOfSight(scope: Scope, w: World) ensures Inside(UNKNOWN, scope, w) == None {}

  /** Where atoms say the same of every call, so do predicates. */
  lemma {:induction false} SameOfAll(p: Predicate, a: Call, b: Call, number: nat)
    ensures Holds(p, a, false, AllButOne(number)) == Holds(p, b, false, AllButOne(number))
    decreases p, 0
  {
    match p
    case Atom(_) =>
    case Unknown =>
    case All(of) => SameUntil(of, false, a, b, number);
    case Any(of) => SameUntil(of, true, a, b, number);
    case Not(inner) => SameOfAll(inner, a, b, number);
  }

  lemma {:induction false} SameUntil(of: seq<Predicate>, stop: bool, a: Call, b: Call, number: nat)
    ensures Until(of, stop, a, false, AllButOne(number)) == Until(of, stop, b, false, AllButOne(number))
    decreases of, 1
  {
    if of != [] {
      SameOfAll(of[0], a, b, number);
      SameUntil(of[1..], stop, a, b, number);
    }
  }

  /** A rule of the ledger finds the same in the part it can see and in the other one. */
  lemma NothingMight(rule: Rule, number: nat)
    requires rule.scope.Some? ==> rule.scope.value.number < number
    ensures !Judge(rule, CALL, false, AllButOne(number)).MightFire?
  {
    var w := AllButOne(number);
    if rule.scope.Some? {
      var scope := rule.scope.value;
      TwoItems(scope, w, Some(true));
      assert Inside("/", scope, w) == Some(true);
      assert View(CALL, rule.scope, w).0.Some?;
    }
    hide View;
    var (view, maybe) := View(CALL, rule.scope, w);
    if maybe.Some? { SameOfAll(rule.when, view.value, maybe.value, number); }
  }

  /** With every command at home, the whole call is in every scope of the ledger. */
  lemma HomeView(scope: Option<Scope>, number: nat)
    requires scope.Some? ==> scope.value.number < number
    ensures View(AtHome(CALL), scope, AllButOne(number)).0.Some?
    ensures View(AtHome(CALL), scope, AllButOne(number)).1.None?
  {
    var w, home, item := AllButOne(number), AtHome(CALL), Item("", "x");
    assert home.commands == [item, item] && home.paths == [] && home.madeIn == "/";
    if scope.Some? {
      var s := scope.value;
      assert Inside("/", s, w) == Some(true);
      assert Here(item, home) == "/";
      assert Init(home.commands) == [item] && Init([item]) == [];
      assert Those([item], home, s, w, false, None) == [];
      assert Those(home.commands, home, s, w, false, None) == [];
      assert Last(home.commands) == item;
      assert item in Those(home.commands, home, s, w, false, Some(true));
    }
  }

  lemma NothingMightAtHome(rule: Rule, number: nat)
    requires rule.scope.Some? ==> rule.scope.value.number < number
    ensures !Judge(rule, AtHome(CALL), false, AllButOne(number)).MightFire?
    ensures rule.when.Unknown? && rule.obligation ==> Judge(rule, AtHome(CALL), false, AllButOne(number)).Fires?
  {
    HomeView(rule.scope, number);
    var w := AllButOne(number);
    assert ForTool(rule, w) by { if rule.tools != [] { assert w.tool(rule.tools[0]); } }
    hide View, AtHome, ForTool;
  }

  /** Every rule that requires unknown directories can be silenced by one added rule. */
  lemma RequireCanBeSilenced(rules: seq<Rule>, required: Rule) returns (other: Rule, call: Call, w: World)
    requires DistinctReports(rules) && required in rules && required.when.Unknown? && required.obligation
    ensures Real(w) && required.report in multiset(Judged(rules, call, w).fired)
    ensures required.report !in multiset(Judged(rules + [other], call, w).fired)
  {
    hide Judge, Judged, View, AllButOne, AtHome;
    var number := Unused(rules);
    call, w, other := CALL, AllButOne(number), Elsewhere(number, required.report);
    ElsewhereMight(number, required.report);
    NothingMightAtHome(required, number);
    forall rule | rule in Others(rules) ensures !Judge(rule, call, false, w).MightFire? {
      InLedger(rules, rule, false);
      NothingMight(rule, number);
    }
    forall rule | rule in Deferred(rules) ensures !Judge(rule, AtHome(call), false, w).MightFire? {
      InLedger(rules, rule, true);
      NothingMightAtHome(rule, number);
    }
    RequiredFires(rules, required, call, w);
    RequiredIsSilenced(rules, required, other, call, w);
  }

  /**
    Adding rules never takes one away that fired, for any call and in any world the gate can
    be in, exactly if no rule of the ledger requires unknown directories.
   */
  lemma MoreRulesKeepExactly(rules: seq<Rule>)
    requires DistinctReports(rules)
    ensures NoRequire(rules) <==>
            forall more: seq<Rule>, call: Call, w: World ::
              Real(w) && multiset(rules) <= multiset(more) ==>
              multiset(Judged(rules, call, w).fired) <= multiset(Judged(more, call, w).fired)
  {
    hide Judged;
    if NoRequire(rules) {
      forall more: seq<Rule>, call: Call, w: World | Real(w) && multiset(rules) <= multiset(more)
        ensures multiset(Judged(rules, call, w).fired) <= multiset(Judged(more, call, w).fired)
      {
        MoreRulesKeep(rules, more, call, w);
      }
    } else {
      var required :| required in rules && required.when.Unknown? && required.obligation;
      var other, call, w := RequireCanBeSilenced(rules, required);
      assert multiset(rules) <= multiset(rules + [other]);
    }
  }

  // ---- the decision falls ---------------------------------------------------------------------

  /** A ledger of one such rule: what another rule would have done somewhere leaves no effect at all. */
  lemma RequireIsSilenced(required: Rule, other: Rule, call: Call, w: World)
    requires required.when.Unknown? && required.obligation && Judge(required, AtHome(call), false, w).Fires?
    requires !other.when.Unknown? && Judge(other, call, false, w).MightFire?
    ensures Decide([required], call, w).effect == Some(required.report.effect)
    ensures Decide([required, other], call, w).effect == None
  {
    hide AtHome, View;
    SilencedState(required, other, call, w);
    EffectIsStrongest([required], call, w);
    EffectIsStrongest([required, other], call, w);
    var d := Decide([required], call, w);
    assert multiset(d.fired) == multiset{required.report};
    var r :| r in d.fired && r.effect == d.effect.value;
    assert r in multiset(d.fired);
    assert |multiset(Decide([required, other], call, w).fired)| == 0;
  }

  lemma SilencedState(required: Rule, other: Rule, call: Call, w: World)
    requires required.when.Unknown? && required.obligation && Judge(required, AtHome(call), false, w).Fires?
    requires !other.when.Unknown? && Judge(other, call, false, w).MightFire?
    ensures Judged([required], call, w).fired == [required.report]
    ensures Judged([required, other], call, w).fired == []
  {
    hide AtHome, Judge;
    var none := State([], [], [], []);
    SplitAlike([required], true);
    SplitAlike([other], false);
    assert [required, other] == [required] + [other];
    SplitInTwo([required], [other]);
    assert [] + [other] == [other] && [required] + [] == [required];
    assert Others([required, other]) == [other] && Deferred([required, other]) == [required];
    assert First([], call, w) == none;
    FirstMore([], other, call, w);
    assert First([other], call, w) == none.(possible := [other.id]);
    SecondOne(none, required, call, w);
    SecondOne(none.(possible := [other.id]), required, call, w);
    NotWhenPossible(required, AtHome(call), w);
  }

  /** And it does, for every rule that requires unknown directories. */
  lemma DecisionCanFall(required: Rule) returns (other: Rule, call: Call, w: World)
    requires required.when.Unknown? && required.obligation
    ensures Real(w) && Decide([required], call, w).effect == Some(required.report.effect)
    ensures Decide([required, other], call, w).effect == None
  {
    hide Judge, Decide, View, AllButOne, AtHome;
    var number := Unused([required]);
    assert required in [required];
    call, w, other := CALL, AllButOne(number), Elsewhere(number, required.report);
    ElsewhereMight(number, required.report);
    NothingMightAtHome(required, number);
    RequireIsSilenced(required, other, call, w);
  }
}
