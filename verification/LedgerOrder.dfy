/**
  The order of the rules of a ledger: when a decision does not depend on it, and when it does
  (`evaluate` in ember_armor/ledger/engine.py).
 */
module LedgerOrder {
  import opened Prelude
  import opened Evaluation
  import Reminders

  // ---- the order of the rules ------------------------------------------------------------

  lemma SameRulesSplit(rules: seq<Rule>, other: seq<Rule>)
    requires multiset(rules) == multiset(other)
    ensures multiset(Others(rules)) == multiset(Others(other)) && multiset(Deferred(rules)) == multiset(Deferred(other))
  {
    MoreRulesSplit(rules, other);
    MoreRulesSplit(other, rules);
  }

  lemma MightInMore(rules: seq<Rule>, more: seq<Rule>, call: Call, w: World)
    requires multiset(rules) <= multiset(more)
    ensures SomeMight(rules, call, w) ==> SomeMight(more, call, w)
    ensures Indifferent(more, call, w) ==> Indifferent(rules, call, w)
  {
    hide Judge, OneFired;
    forall rule | rule in rules ensures rule in more { assert rule in multiset(rules); }
  }

  lemma ClashInAnyOrder(rules: seq<Rule>, other: seq<Rule>, call: Call, w: World)
    requires multiset(rules) == multiset(other)
    ensures Clashes(rules, call, w) == Clashes(other, call, w)
    ensures SomeMight(Others(rules), call, w) == SomeMight(Others(other), call, w)
  {
    hide SomeMight, Indifferent, AtHome;
    SameRulesSplit(rules, other);
    MightInMore(Others(rules), Others(other), call, w);
    MightInMore(Others(other), Others(rules), call, w);
    MightInMore(Deferred(rules), Deferred(other), AtHome(call), w);
    MightInMore(Deferred(other), Deferred(rules), AtHome(call), w);
  }

  /** Without a clash, every order of the rules fires the same ones. */
  lemma SameFiredInAnyOrder(rules: seq<Rule>, other: seq<Rule>, call: Call, w: World)
    requires multiset(rules) == multiset(other) && !Clashes(rules, call, w)
    ensures multiset(Judged(rules, call, w).fired) == multiset(Judged(other, call, w).fired)
  {
    hide Clashes, Judged, AtHome, SomeMight;
    ClashInAnyOrder(rules, other, call, w);
    FiredUnlessClash(rules, call, w);
    FiredUnlessClash(other, call, w);
    SameRulesSplit(rules, other);
    SameRulesSameFired(Others(rules), Others(other), call, false, w);
    SameRulesSameFired(Deferred(rules), Deferred(other), AtHome(call), SomeMight(Others(rules), call, w), w);
  }

  lemma {:induction false} SecondInTwo(s: State, a: seq<Rule>, b: seq<Rule>, call: Call, w: World)
    ensures Second(s, a + b, call, w) == Second(Second(s, a, call, w), b, call, w)
    decreases b
  {
    hide Judge, Note, AtHome;
    if b == [] {
      assert a + b == a;
    } else {
      assert Init(a + b) == a + Init(b) && Last(a + b) == Last(b);
      SecondInTwo(s, a, Init(b), call, w);
    }
  }

  lemma SecondOne(s: State, rule: Rule, call: Call, w: World)
    ensures Second(s, [rule], call, w) == Note(s, rule, Judge(rule, AtHome(call), s.possible != [], w))
  {
    hide Judge, Note, AtHome;
    assert Init([rule]) == [] && Last([rule]) == rule;
  }

  /** Only a `require` rule makes something possible that was not, and it does not fire itself. */
  lemma MightIsRequired(rule: Rule, call: Call, w: World)
    requires rule.when.Unknown? && Judge(rule, call, false, w).MightFire?
    ensures rule.obligation && rule.scope.Some? &&
            OneFired(rule, call, false, w) == OneFired(rule, call, true, w) == multiset{}
  {
    hide View;
    ViewUnscoped(call, w);
  }

  lemma ViewUnscoped(call: Call, w: World)
    ensures View(call, None, w) == (Some(call), None)
  {
  }

  /** Of two rules that clash: `r` before `s`. */
  lemma FirstClashing(s0: State, r: Rule, s: Rule, rest: seq<Rule>, call: Call, w: World)
    requires s0.possible == [] && r.when.Unknown? && Judge(r, AtHome(call), false, w).MightFire?
    ensures multiset(Second(s0, [r, s] + rest, call, w).fired)
         == multiset(s0.fired) + OneFired(s, AtHome(call), true, w) + Fired(rest, AtHome(call), true, w)
  {
    hide Judge, Note, AtHome, OneFired;
    var home := AtHome(call);
    assert [r, s] + rest == [r] + ([s] + rest);
    SecondInTwo(s0, [r], [s] + rest, call, w);
    SecondOne(s0, r, call, w);
    NoteFires(s0, r, home, false, w);
    MightIsRequired(r, home, w);
    SecondWhenPossible(Second(s0, [r], call, w), [s] + rest, call, w);
    FiredInTwo([s], rest, home, true, w);
    assert Init([s]) == [];
  }

  /** Of two rules that clash: `s` before `r`. */
  lemma LastClashing(s0: State, r: Rule, s: Rule, rest: seq<Rule>, call: Call, w: World)
    requires s0.possible == [] && r.when.Unknown? && Judge(r, AtHome(call), false, w).MightFire?
    ensures multiset(Second(s0, [s, r] + rest, call, w).fired)
         == multiset(s0.fired) + OneFired(s, AtHome(call), false, w) + Fired(rest, AtHome(call), true, w)
  {
    hide Judge, Note, AtHome, OneFired;
    var home := AtHome(call);
    assert [s, r] + rest == [s] + ([r] + rest);
    SecondInTwo(s0, [s], [r] + rest, call, w);
    SecondInTwo(Second(s0, [s], call, w), [r], rest, call, w);
    SecondOne(s0, s, call, w);
    var s1 := Second(s0, [s], call, w);
    NoteFires(s0, s, home, false, w);
    SecondOne(s1, r, call, w);
    NoteFires(s1, r, home, s1.possible != [], w);
    MightIsRequired(r, home, w);
    SecondWhenPossible(Second(s1, [r], call, w), rest, call, w);
  }

  lemma {:induction false} SplitInTwo(a: seq<Rule>, b: seq<Rule>)
    ensures Others(a + b) == Others(a) + Others(b) && Deferred(a + b) == Deferred(a) + Deferred(b)
    decreases b
  {
    if b == [] {
      assert a + b == a;
    } else {
      assert Init(a + b) == a + Init(b) && Last(a + b) == Last(b);
      SplitInTwo(a, Init(b));
    }
  }

  lemma {:induction false} SplitAlike(rules: seq<Rule>, deferred: bool)
    requires forall rule :: rule in rules ==> rule.when.Unknown? == deferred
    ensures Others(rules) == (if deferred then [] else rules) && Deferred(rules) == (if deferred then rules else [])
    decreases rules
  {
    if rules != [] {
      assert rules == Init(rules) + [Last(rules)];
      assert Last(rules) in rules;
      SplitAlike(Init(rules), deferred);
    }
  }

  /** The rules in the order in which they are judged. */
  lemma InJudgingOrder(rules: seq<Rule>, deferred: seq<Rule>)
    requires multiset(deferred) == multiset(Deferred(rules))
    ensures var other := Others(rules) + deferred;
            multiset(other) == multiset(rules) && Others(other) == Others(rules) && Deferred(other) == deferred
  {
    hide Others, Deferred;
    forall rule | rule in Others(rules) ensures !rule.when.Unknown? {
      SplitCounts(rules, rule);
      assert rule in multiset(Others(rules));
    }
    forall rule | rule in deferred ensures rule.when.Unknown? {
      SplitCounts(rules, rule);
      assert rule in multiset(deferred);
    }
    SplitAlike(Others(rules), false);
    SplitAlike(deferred, true);
    SplitInTwo(Others(rules), deferred);
    SplitAll(rules);
  }

  lemma SplitAll(rules: seq<Rule>)
    ensures multiset(Others(rules)) + multiset(Deferred(rules)) == multiset(rules)
  {
    hide Others, Deferred;
    forall rule: Rule ensures (multiset(Others(rules)) + multiset(Deferred(rules)))[rule] == multiset(rules)[rule] {
      SplitCounts(rules, rule);
    }
  }

  /** Two of the deferred rules, and the others. */
  lemma Pick(rules: seq<Rule>, r: Rule, s: Rule) returns (rest: seq<Rule>)
    requires r in rules && s in rules && r != s
    ensures multiset([r, s] + rest) == multiset(rules) == multiset([s, r] + rest)
  {
    var left := TakeOut(rules, r);
    assert s in multiset(left) by { assert s in multiset(rules); }
    assert s in left;
    rest := TakeOut(left, s);
    assert multiset([r, s] + rest) == multiset([r, s]) + multiset(rest);
    assert multiset([s, r] + rest) == multiset([s, r]) + multiset(rest);
    assert multiset([r, s]) == multiset([s, r]) == multiset{s} + multiset{r};
  }

  lemma TakeOut(rules: seq<Rule>, r: Rule) returns (left: seq<Rule>)
    requires r in rules
    ensures multiset(rules) == multiset(left) + multiset{r}
  {
    var i :| 0 <= i < |rules| && rules[i] == r;
    MultisetWithout(rules, i);
    left := Without(rules, i);
  }

  lemma Cancel(x: multiset<Reminders.Rule>, a: multiset<Reminders.Rule>, b: multiset<Reminders.Rule>,
      y: multiset<Reminders.Rule>)
    requires x + a + y == x + b + y
    ensures a == b
  {
    forall e: Reminders.Rule ensures a[e] == b[e] { assert (x + a + y)[e] == (x + b + y)[e]; }
  }

  /** When two deferred rules clash, two orders of the ledger fire different rules. */
  lemma ClashShows(rules: seq<Rule>, call: Call, w: World) returns (one: seq<Rule>, two: seq<Rule>)
    requires Clashes(rules, call, w)
    ensures multiset(one) == multiset(two) == multiset(rules)
    ensures multiset(Judged(one, call, w).fired) != multiset(Judged(two, call, w).fired)
  {
    hide Judge, AtHome, OneFired, First, Second, Fired, Others, Deferred;
    var home, deferred := AtHome(call), Deferred(rules);
    var r :| r in deferred && Judge(r, home, false, w).MightFire?;
    var s :| s in deferred && OneFired(s, home, false, w) != OneFired(s, home, true, w);
    SplitCounts(rules, r);
    assert r in multiset(deferred);
    MightIsRequired(r, home, w);
    var rest := Pick(deferred, r, s);
    InJudgingOrder(rules, [r, s] + rest);
    InJudgingOrder(rules, [s, r] + rest);
    one, two := Others(rules) + ([r, s] + rest), Others(rules) + ([s, r] + rest);
    var s0 := First(Others(rules), call, w);
    FirstFires(Others(rules), call, w);
    FirstClashing(s0, r, s, rest, call, w);
    LastClashing(s0, r, s, rest, call, w);
    if multiset(Judged(one, call, w).fired) == multiset(Judged(two, call, w).fired) {
      Cancel(multiset(s0.fired), OneFired(s, home, true, w), OneFired(s, home, false, w), Fired(rest, home, true, w));
    }
  }

  /** The order of the rules tells in what fires exactly when two deferred rules clash. */
  lemma OrderMattersExactly(rules: seq<Rule>, call: Call, w: World)
    ensures Clashes(rules, call, w) <==>
            exists other: seq<Rule> :: multiset(other) == multiset(rules) &&
              multiset(Judged(other, call, w).fired) != multiset(Judged(rules, call, w).fired)
  {
    hide Clashes, Judged;
    if Clashes(rules, call, w) {
      var one, two := ClashShows(rules, call, w);
      assert multiset(Judged(one, call, w).fired) != multiset(Judged(rules, call, w).fired)
          || multiset(Judged(two, call, w).fired) != multiset(Judged(rules, call, w).fired);
    } else {
      forall other: seq<Rule> | multiset(other) == multiset(rules)
        ensures multiset(Judged(other, call, w).fired) == multiset(Judged(rules, call, w).fired)
      {
        SameFiredInAnyOrder(rules, other, call, w);
      }
    }
  }

  /** Two such rules: the order decides whether `s` asks. */
  lemma ClashHappens() returns (r: Rule, s: Rule, call: Call, w: World)
    ensures Clashes([r, s], call, w)
    ensures Judged([r, s], call, w).fired == [s.report] && Judged([s, r], call, w).fired == []
  {
    var report := Reminders.Rule("s", true, Reminders.Ask, "s");
    r := Rule("r", report.(key := "r"), [], Some(Scope(0, true, false)), Unknown, true);
    s := Rule("s", report, [], None, Unknown, false);
    call := Call([Item("", "make")], [], UNKNOWN);
    w := World(_ => true, (_, _) => true, (_, _) => None, (_, _) => Some(false), (_, _, _, _) => Some(false));
    AlreadyHome(call);
    NeitherKnown(r, s, call, w);
    ClashOf(r, s, call, w);
  }

  lemma ClashOf(r: Rule, s: Rule, call: Call, w: World)
    requires AtHome(call) == call && r.when.Unknown? && s.when.Unknown?
    requires Judge(r, call, false, w) == MightFire && Judge(s, call, false, w) == Quiet &&
             Judge(s, call, true, w) == Fires(false)
    ensures Clashes([r, s], call, w)
    ensures Judged([r, s], call, w).fired == [s.report] && Judged([s, r], call, w).fired == []
  {
    hide AtHome, Judge, Others, Deferred, Second, SomeMight, Indifferent, Note;
    SplitAlike([r, s], true);
    SplitAlike([s, r], true);
    assert r in [r, s] && s in [r, s];
    SomeoneMight([r, s], r, call, w);
    NobodyMight(call, w);
    Tells([r, s], s, call, w);
    EitherFirst(r, s, call, w);
  }

  lemma NobodyMight(call: Call, w: World) ensures !SomeMight([], call, w) {}

  lemma Tells(rules: seq<Rule>, rule: Rule, call: Call, w: World)
    requires rule in rules && !Judge(rule, call, false, w).Fires? && Judge(rule, call, true, w).Fires?
    ensures !Indifferent(rules, call, w)
  {
    hide Judge;
    assert OneFired(rule, call, true, w)[rule.report] == 1;
  }

  lemma EitherFirst(r: Rule, s: Rule, call: Call, w: World)
    requires AtHome(call) == call && Judge(r, call, false, w) == MightFire
    requires Judge(s, call, false, w) == Quiet && Judge(s, call, true, w) == Fires(false)
    ensures First([], call, w) == State([], [], [], [])
    ensures Second(First([], call, w), [r, s], call, w).fired == [s.report]
    ensures Second(First([], call, w), [s, r], call, w).fired == []
  {
    hide AtHome, Judge, Second;
    var none := State([], [], [], []);
    assert First([], call, w) == none;
    assert [r, s] == [r] + [s] && [s, r] == [s] + [r];
    SecondInTwo(none, [r], [s], call, w);
    SecondInTwo(none, [s], [r], call, w);
    var might := none.(possible := [r.id]);
    SecondOne(none, r, call, w);
    assert Second(none, [r], call, w) == might;
    SecondOne(might, s, call, w);
    SecondOne(none, s, call, w);
    assert [] + [s.report] == [s.report];
  }

  lemma AlreadyHome(call: Call)
    requires forall item :: item in call.commands || item in call.paths ==> item.cwd != UNKNOWN
    ensures AtHome(call) == call
  {
  }

  lemma NeitherKnown(r: Rule, s: Rule, call: Call, w: World)
    requires call.commands == [Item("", "make")] && call.paths == [] && call.madeIn == UNKNOWN
    requires r.tools == [] && r.scope.Some? && r.when.Unknown? && r.obligation
    requires s.tools == [] && s.scope.None? && s.when.Unknown? && !s.obligation
    requires w.excepted(s, call, call, true) == Some(false)
    ensures Judge(r, call, false, w) == MightFire && Judge(s, call, false, w) == Quiet &&
            Judge(s, call, true, w) == Fires(false)
  {
    var items := call.commands;
    assert Init(items) == [] && Last(items) == items[0];
    ViewUnscoped(call, w);
    assert Those(items, call, r.scope.value, w, false, Some(true)) == [];
    assert Those(items, call, r.scope.value, w, false, None) == items;
  }

  /** No rule with a directory scope requires that unknown directories be possible. */
  predicate NoScopedRequire(rules: seq<Rule>) {
    forall rule :: rule in rules && rule.when.Unknown? && rule.obligation ==> rule.scope.None?
  }

  lemma NoScopedRequireNoClash(rules: seq<Rule>, call: Call, w: World)
    requires NoScopedRequire(rules)
    ensures !Clashes(rules, call, w)
  {
    hide Judge, AtHome, OneFired;
    if SomeMight(Deferred(rules), AtHome(call), w) {
      var r :| r in Deferred(rules) && Judge(r, AtHome(call), false, w).MightFire?;
      SplitCounts(rules, r);
      assert r in multiset(Deferred(rules));
      assert r in multiset(rules);
      MightIsRequired(r, AtHome(call), w);
    }
  }

  // ---- the effect ----------------------------------------------------------------------

  /** The strongest rules come first; the effect is theirs, and none exactly when nothing fired. */
  lemma EffectIsStrongest(rules: seq<Rule>, call: Call, w: World)
    ensures var d := Decide(rules, call, w);
            multiset(d.fired) == multiset(Judged(rules, call, w).fired) &&
            (d.effect.None? <==> d.fired == []) &&
            (d.effect.Some? ==> exists r :: r in d.fired && r.effect == d.effect.value) &&
            (forall r :: r in d.fired ==> Reminders.Severity(r.effect) <= Strength(d.effect)) &&
            forall i, j :: 0 <= i < j < |d.fired| ==>
              Reminders.Severity(d.fired[i].effect) >= Reminders.Severity(d.fired[j].effect)
  {
    hide Judged, Reminders.OfEffect, Reminders.BySeverity;
    var fired := Judged(rules, call, w).fired;
    Reminders.SeverityCount(fired);
    Reminders.StrongestFirst(fired);
    var d := Decide(rules, call, w);
    if d.fired != [] {
      assert d.fired[0] in d.fired;
      forall r | r in d.fired ensures Reminders.Severity(r.effect) <= Strength(d.effect) {
        var i :| 0 <= i < |d.fired| && d.fired[i] == r;
        assert i > 0 ==> Reminders.Severity(d.fired[0].effect) >= Reminders.Severity(d.fired[i].effect);
      }
    }
  }

  lemma MoreFiredStronger(rules: seq<Rule>, more: seq<Rule>, call: Call, w: World)
    requires multiset(Judged(rules, call, w).fired) <= multiset(Judged(more, call, w).fired)
    ensures Strength(Decide(rules, call, w).effect) <= Strength(Decide(more, call, w).effect)
  {
    hide Judged, Decide;
    EffectIsStrongest(rules, call, w);
    EffectIsStrongest(more, call, w);
    var a, b := Decide(rules, call, w), Decide(more, call, w);
    if a.effect.Some? {
      var r :| r in a.fired && r.effect == a.effect.value;
      assert r in multiset(a.fired) && r in multiset(b.fired);
      assert r in b.fired;
    }
  }

  /** A ledger decides the same in every order, when no scoped rule requires unknown directories. */
  lemma OrderDoesNotMatter(rules: seq<Rule>, other: seq<Rule>, call: Call, w: World)
    requires multiset(rules) == multiset(other) && NoScopedRequire(rules)
    ensures multiset(Decide(rules, call, w).fired) == multiset(Decide(other, call, w).fired)
    ensures Decide(rules, call, w).effect == Decide(other, call, w).effect
  {
    hide Judged, Clashes, Decide;
    NoScopedRequireNoClash(rules, call, w);
    SameFiredInAnyOrder(rules, other, call, w);
    EffectIsStrongest(rules, call, w);
    EffectIsStrongest(other, call, w);
    MoreFiredStronger(rules, other, call, w);
    MoreFiredStronger(other, rules, call, w);
  }

  // ---- unknown directories ---------------------------------------------------------------

  lemma {:induction false} FiredHolds(rules: seq<Rule>, rule: Rule, call: Call, possible: bool, w: World)
    requires rule in rules && Judge(rule, call, possible, w).Fires?
    ensures rule.report in Fired(rules, call, possible, w)
    decreases rules
  {
    hide Judge;
    assert rules == Init(rules) + [Last(rules)];
    if rule in Init(rules) {
      FiredHolds(Init(rules), rule, call, possible, w);
    }
  }

  lemma MightNoClash(rules: seq<Rule>, call: Call, w: World)
    requires SomeMight(Others(rules), call, w)
    ensures !Clashes(rules, call, w)
  {
  }

  /** What a scoped rule would have done where the gate cannot see is asked about, as strongly as the ledger says. */
  lemma UnseenIsAsked(rules: seq<Rule>, scoped: Rule, asks: Rule, call: Call, w: World)
    requires scoped in rules && !scoped.when.Unknown? && Judge(scoped, call, false, w).MightFire?
    requires asks in rules && asks.when.Unknown? && !asks.obligation && asks.scope.None? && ForTool(asks, w)
    requires w.excepted(asks, AtHome(call), AtHome(call), true) != Some(true)
    ensures var d := Decide(rules, call, w);
            asks.report in d.fired && Strength(d.effect) >= Reminders.Severity(asks.report.effect) &&
              scoped.id in d.noted.possible
  {
    hide AtHome, Decide, Judged, Clashes, Fired, Judge, SomeMight, ForTool;
    InOthers(rules, scoped);
    InDeferred(rules, asks);
    SomeoneMight(Others(rules), scoped, call, w);
    MightNoClash(rules, call, w);
    FiredUnlessClash(rules, call, w);
    AskedWhenPossible(asks, AtHome(call), w);
    FiredHolds(Deferred(rules), asks, AtHome(call), true, w);
    EffectIsStrongest(rules, call, w);
    assert asks.report in multiset(Decide(rules, call, w).fired);
    NamedAsPossible(rules, scoped, call, w);
  }

  lemma SomeoneMight(rules: seq<Rule>, rule: Rule, call: Call, w: World)
    requires rule in rules && Judge(rule, call, false, w).MightFire?
    ensures SomeMight(rules, call, w)
  {
    hide Judge;
  }

  lemma InOthers(rules: seq<Rule>, rule: Rule)
    requires rule in rules && !rule.when.Unknown?
    ensures rule in Others(rules)
  {
    SplitCounts(rules, rule);
    assert rule in multiset(rules) && rule in multiset(Others(rules));
  }

  lemma InDeferred(rules: seq<Rule>, rule: Rule)
    requires rule in rules && rule.when.Unknown?
    ensures rule in Deferred(rules)
  {
    SplitCounts(rules, rule);
    assert rule in multiset(rules) && rule in multiset(Deferred(rules));
  }

  lemma AskedWhenPossible(asks: Rule, call: Call, w: World)
    requires asks.when.Unknown? && !asks.obligation && asks.scope.None? && ForTool(asks, w)
    requires w.excepted(asks, call, call, true) != Some(true)
    ensures Judge(asks, call, true, w).Fires?
  {
    hide View, ForTool;
    ViewUnscoped(call, w);
  }

  lemma {:induction false} FirstNames(rules: seq<Rule>, rule: Rule, call: Call, w: World)
    requires rule in rules && Judge(rule, call, false, w).MightFire?
    ensures rule.id in First(rules, call, w).possible
    decreases rules
  {
    hide Judge;
    assert rules == Init(rules) + [Last(rules)];
    if rule in Init(rules) {
      FirstNames(Init(rules), rule, call, w);
    }
  }

  lemma {:induction false} SecondKeeps(s: State, rules: seq<Rule>, id: string, call: Call, w: World)
    requires id in s.possible
    ensures id in Second(s, rules, call, w).possible
    decreases rules
  {
    hide Judge, AtHome;
    if rules != [] {
      SecondKeeps(s, Init(rules), id, call, w);
    }
  }

  lemma NamedAsPossible(rules: seq<Rule>, rule: Rule, call: Call, w: World)
    requires rule in Others(rules) && Judge(rule, call, false, w).MightFire?
    ensures rule.id in Decide(rules, call, w).noted.possible
  {
    hide Judge, AtHome;
    FirstNames(Others(rules), rule, call, w);
    SecondKeeps(First(Others(rules), call, w), Deferred(rules), rule.id, call, w);
  }
}
