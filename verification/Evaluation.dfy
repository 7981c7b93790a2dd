/**
  Judging one call by a whole ledger: `evaluate`, `_view` and the shape of `_holds` in
  ember_armor/ledger/engine.py.  Rules on unknown directories are judged last, on what
  the other rules would have done where the gate could not see.
 */
module Evaluation {
  import opened Prelude
  import Reminders

  /** `UNKNOWN_DIR` */
  const UNKNOWN := "?"

  /** A command or a path of a call, and the directory it is run or opened in (empty: the call's). */
  datatype Item = Item(cwd: string, text: string)

  datatype Call = Call(commands: seq<Item>, paths: seq<Item>, madeIn: string)

  datatype Predicate =
    | Atom(name: string)
    | Unknown
    | All(of: seq<Predicate>)
    | Any(of: seq<Predicate>)
    | Not(inner: Predicate)

  /** The directories a rule is limited to: by place, by repository, or both. */
  datatype Scope = Scope(number: nat, places: bool, roots: bool)

  datatype Rule = Rule(
    id: string,
    report: Reminders.Rule,
    tools: seq<string>,
    scope: Option<Scope>,
    when: Predicate,
    obligation: bool)

  /**
    What judging asks of the rest of the gate.  `None` is an error for an atom and for the
    exceptions, and "cannot be known" for a repository.
   */
  datatype World = World(
    tool: string -> bool,
    placed: (nat, string) -> bool,
    rooted: (nat, string) -> Option<bool>,
    atom: (string, Call) -> Option<bool>,
    excepted: (Rule, Call, Call, bool) -> Option<bool>)

  // ---- predicates ----------------------------------------------------------------------

  function Holds(p: Predicate, call: Call, possible: bool, w: World): Option<bool>
    decreases p, 0
  {
    match p
    case Atom(name) => w.atom(name, call)
    case Unknown => Some(possible)
    case All(of) => Until(of, false, call, possible, w)
    case Any(of) => Until(of, true, call, possible, w)
    case Not(inner) => var held := Holds(inner, call, possible, w); if held.None? then None else Some(!held.value)
  }

  /** One after the other, up to the first that is `stop`. */
  function Until(of: seq<Predicate>, stop: bool, call: Call, possible: bool, w: World): Option<bool>
    decreases of, 1
  {
    if of == [] then Some(!stop)
    else
      var held := Holds(of[0], call, possible, w);
      if held.None? || held.value == stop then held else Until(of[1..], stop, call, possible, w)
  }

  // ---- scopes --------------------------------------------------------------------------

  function Rooted(path: string, scope: Scope, w: World): Option<bool> {
    if path == UNKNOWN then None else w.rooted(scope.number, path)
  }

  function Inside(directory: string, scope: Scope, w: World): Option<bool> {
    if directory == UNKNOWN then None
    else if !w.placed(scope.number, directory) then Some(false)
    else if scope.roots then Rooted(directory, scope, w) else Some(true)
  }

  /** The items with one verdict on their directory (or, `byPath`, on their own path). */
  function Those(items: seq<Item>, call: Call, scope: Scope, w: World, byPath: bool, verdict: Option<bool>): seq<Item> {
    if items == [] then []
    else
      var item := Last(items);
      var found := if byPath then Rooted(item.text, scope, w) else Inside(Here(item, call), scope, w);
      Those(Init(items), call, scope, w, byPath, verdict) + if found == verdict then [item] else []
  }

  function Here(item: Item, call: Call): string { if item.cwd == "" then call.madeIn else item.cwd }

  /** The part of a call that lies in a scope, and the part that might. */
  function View(call: Call, scope: Option<Scope>, w: World): (Option<Call>, Option<Call>) {
    if scope.None? then (Some(call), None)
    else
      var s := scope.value;
      if call.commands != [] then
        (Part(call, Those(call.commands, call, s, w, false, Some(true)),
          Those(call.paths, call, s, w, false, Some(true))),
         Part(call, Those(call.commands, call, s, w, false, None), Those(call.paths, call, s, w, false, None)))
      else if call.madeIn == UNKNOWN && s.places then (None, Some(call))
      else if call.madeIn != UNKNOWN && !w.placed(s.number, call.madeIn) then (None, None)
      else if !s.roots then (Some(call), None)
      else if call.paths == [] then
        match Rooted(call.madeIn, s, w)
        case None => (None, Some(call))
        case Some(inside) => (if inside then Some(call) else None, None)
      else
        (Part(call, [], Those(call.paths, call, s, w, true, Some(true))),
          Part(call, [], Those(call.paths, call, s, w, true, None)))
  }

  function Part(call: Call, commands: seq<Item>, paths: seq<Item>): Option<Call> {
    if commands == [] && paths == [] then None else Some(call.(commands := commands, paths := paths))
  }

  function Home(items: seq<Item>): seq<Item> {
    seq(|items|, i requires 0 <= i < |items| => if items[i].cwd == UNKNOWN then items[i].(cwd := "") else items[i])
  }

  function AtHome(call: Call): Call { call.(commands := Home(call.commands), paths := Home(call.paths)) }

  // ---- one rule ------------------------------------------------------------------------

  datatype Verdict = Quiet | MightFire | Fires(failed: bool) | Excepted | Unjudged

  predicate ForTool(rule: Rule, w: World) {
    rule.tools == [] || exists i :: 0 <= i < |rule.tools| && w.tool(rule.tools[i])
  }

  function Judge(rule: Rule, call: Call, possible: bool, w: World): Verdict {
    if !ForTool(rule, w) then Quiet
    else
      var (view, maybe) := View(call, rule.scope, w);
      var held := if view.None? then Some(rule.obligation) else Holds(rule.when, view.value, possible, w);
      if held.None? then Unjudged
      else if held.value == rule.obligation then
        if maybe.None? then Quiet
        else
          match Holds(rule.when, maybe.value, possible, w)
          case None => Unjudged
          case Some(there) => if there != rule.obligation then MightFire else Quiet
      else
        match w.excepted(rule, call, view.value, possible)
        case None => Fires(true)
        case Some(dropped) => if dropped then Excepted else Fires(false)
  }

  // ---- all rules -----------------------------------------------------------------------

  datatype State = State(fired: seq<Reminders.Rule>, excepted: seq<string>, failures: seq<string>,
      possible: seq<string>)

  function Note(s: State, rule: Rule, verdict: Verdict): State {
    match verdict
    case Quiet => s
    case MightFire => s.(possible := s.possible + [rule.id])
    case Fires(failed) =>
      s.(fired := s.fired + [rule.report], failures := if failed then s.failures + [rule.id] else s.failures)
    case Excepted => s.(excepted := s.excepted + [rule.id])
    case Unjudged => s.(failures := s.failures + [rule.id])
  }

  function Others(rules: seq<Rule>): seq<Rule> {
    if rules == [] then [] else Others(Init(rules)) + if !Last(rules).when.Unknown? then [Last(rules)] else []
  }

  function Deferred(rules: seq<Rule>): seq<Rule> {
    if rules == [] then [] else Deferred(Init(rules)) + if Last(rules).when.Unknown? then [Last(rules)] else []
  }

  /** The rules judged first: nothing is possible yet for any of them. */
  function First(rules: seq<Rule>, call: Call, w: World): State {
    if rules == [] then State([], [], [], [])
    else Note(First(Init(rules), call, w), Last(rules), Judge(Last(rules), call, false, w))
  }

  /** The deferred ones: each on what is possible by then. */
  function Second(s: State, rules: seq<Rule>, call: Call, w: World): State {
    if rules == [] then s
    else
      var before := Second(s, Init(rules), call, w);
      Note(before, Last(rules), Judge(Last(rules), AtHome(call), before.possible != [], w))
  }

  function Judged(rules: seq<Rule>, call: Call, w: World): State {
    Second(First(Others(rules), call, w), Deferred(rules), call, w)
  }

  /** `effect` is `None` when nothing fired. */
  datatype Decision = Decision(effect: Option<Reminders.Effect>, fired: seq<Reminders.Rule>, noted: State)

  /** How strong a decision is; a decision without an effect is the weakest. */
  function Strength(effect: Option<Reminders.Effect>): nat {
    if effect.None? then 0 else Reminders.Severity(effect.value)
  }

  function Decide(rules: seq<Rule>, call: Call, w: World): Decision {
    var s := Judged(rules, call, w);
    var fired := Reminders.BySeverity(s.fired);
    Decision(if fired == [] then None else Some(fired[0].effect), fired, s)
  }

  lemma FirstMore(rules: seq<Rule>, rule: Rule, call: Call, w: World)
    ensures First(rules + [rule], call, w) == Note(First(rules, call, w), rule, Judge(rule, call, false, w))
  {
    hide Judge, Note;
    assert Init(rules + [rule]) == rules;
  }

  method Evaluate(rules: seq<Rule>, call: Call, w: World) returns (d: Decision)
    ensures d == Decide(rules, call, w)
  {
    hide Judge, Note, AtHome;
    var s := State([], [], [], []);
    var deferred: seq<Rule> := [];
    for i := 0 to |rules|
      invariant s == First(Others(rules[..i]), call, w) && deferred == Deferred(rules[..i])
    {
      assert Init(rules[..i + 1]) == rules[..i] && Last(rules[..i + 1]) == rules[i];
      if rules[i].when.Unknown? {
        deferred := deferred + [rules[i]];
        assert Others(rules[..i + 1]) == Others(rules[..i]);
      } else {
        FirstMore(Others(rules[..i]), rules[i], call, w);
        assert Others(rules[..i + 1]) == Others(rules[..i]) + [rules[i]];
        assert Deferred(rules[..i + 1]) == Deferred(rules[..i]);
        var verdict := Judge(rules[i], call, false, w);
        s := Note(s, rules[i], verdict);
      }
    }
    assert rules[..|rules|] == rules;
    ghost var first := s;
    if deferred != [] {
      var home := AtHome(call);
      for i := 0 to |deferred|
        invariant s == Second(first, deferred[..i], call, w)
      {
        assert Init(deferred[..i + 1]) == deferred[..i];
        var verdict := Judge(deferred[i], home, s.possible != [], w);
        s := Note(s, deferred[i], verdict);
      }
      assert deferred[..|deferred|] == deferred;
    }
    var fired := Reminders.BySeverity(s.fired);
    d := Decision(if fired == [] then None else Some(fired[0].effect), fired, s);
  }

  // ---- what is told of a directory nobody knows ---------------------------------------------

  lemma {:induction false} ThoseOnes(items: seq<Item>, call: Call, scope: Scope, w: World, byPath: bool,
      verdict: Option<bool>, item: Item)
    ensures item in Those(items, call, scope, w, byPath, verdict) <==>
            item in items && verdict == if byPath then Rooted(item.text, scope, w)
              else Inside(Here(item, call), scope, w)
    decreases items
  {
    hide Rooted, Inside, Here;
    if items != [] {
      ThoseOnes(Init(items), call, scope, w, byPath, verdict, item);
      assert items == Init(items) + [Last(items)];
    }
  }

  /**
    A command in an unknown directory is not attributed to a rule with a directory scope,
    and it is not lost either: it is in the part the rule might apply to.
   */
  lemma UnknownIsNeverAttributed(call: Call, scope: Scope, w: World, item: Item)
    requires call.commands != [] && (item in call.commands || item in call.paths) && Here(item, call) == UNKNOWN
    ensures var (view, maybe) := View(call, Some(scope), w);
            (view.Some? ==> item !in view.value.commands && item !in view.value.paths) &&
            maybe.Some? && (item in call.commands ==> item in maybe.value.commands) &&
            (item in call.paths ==> item in maybe.value.paths)
  {
    hide Those;
    ThoseOnes(call.commands, call, scope, w, false, Some(true), item);
    ThoseOnes(call.paths, call, scope, w, false, Some(true), item);
    ThoseOnes(call.commands, call, scope, w, false, None, item);
    ThoseOnes(call.paths, call, scope, w, false, None, item);
  }

  // ---- the order of the rules ------------------------------------------------------------------

  function OneFired(rule: Rule, call: Call, possible: bool, w: World): multiset<Reminders.Rule> {
    if Judge(rule, call, possible, w).Fires? then multiset{rule.report} else multiset{}
  }

  /** What fires of some rules that are judged alike. */
  function Fired(rules: seq<Rule>, call: Call, possible: bool, w: World): multiset<Reminders.Rule> {
    if rules == [] then multiset{}
    else Fired(Init(rules), call, possible, w) + OneFired(Last(rules), call, possible, w)
  }

  predicate SomeMight(rules: seq<Rule>, call: Call, w: World) {
    exists rule :: rule in rules && Judge(rule, call, false, w).MightFire?
  }

  function Without(rules: seq<Rule>, k: nat): seq<Rule>
    requires k < |rules|
  {
    rules[..k] + rules[k + 1..]
  }

  lemma NoneFired(call: Call, possible: bool, w: World) ensures Fired([], call, possible, w) == multiset{} {}

  lemma {:induction false} FiredInTwo(a: seq<Rule>, b: seq<Rule>, call: Call, possible: bool, w: World)
    ensures Fired(a + b, call, possible, w) == Fired(a, call, possible, w) + Fired(b, call, possible, w)
    decreases b
  {
    hide OneFired;
    if b == [] {
      assert a + b == a;
    } else {
      assert Init(a + b) == a + Init(b) && Last(a + b) == Last(b);
      FiredInTwo(a, Init(b), call, possible, w);
    }
  }

  lemma FiredWithout(rules: seq<Rule>, k: nat, call: Call, possible: bool, w: World)
    requires k < |rules|
    ensures Fired(rules, call, possible, w) ==
            Fired(Without(rules, k), call, possible, w) + OneFired(rules[k], call, possible, w)
  {
    hide OneFired;
    FiredInTwo(rules[..k], rules[k + 1..], call, possible, w);
    assert Init(rules[..k + 1]) == rules[..k];
    FiredInTwo(rules[..k + 1], rules[k + 1..], call, possible, w);
    assert rules == rules[..k + 1] + rules[k + 1..];
  }

  lemma MultisetWithout(rules: seq<Rule>, k: nat)
    requires k < |rules|
    ensures multiset(rules) == multiset(Without(rules, k)) + multiset{rules[k]}
  {
    assert rules == rules[..k] + [rules[k]] + rules[k + 1..];
  }

  lemma {:induction false} MoreRulesMoreFired(rules: seq<Rule>, more: seq<Rule>, call: Call, possible: bool, w: World)
    requires multiset(rules) <= multiset(more)
    ensures Fired(rules, call, possible, w) <= Fired(more, call, possible, w)
    decreases |rules|
  {
    hide OneFired, Fired;
    if rules == [] {
      NoneFired(call, possible, w);
    } else {
      var rule := Last(rules);
      MultisetWithout(rules, |rules| - 1);
      assert Without(rules, |rules| - 1) == Init(rules);
      assert rule in multiset(more);
      var k :| 0 <= k < |more| && more[k] == rule;
      MultisetWithout(more, k);
      assert multiset(Init(rules)) + multiset{rule} <= multiset(Without(more, k)) + multiset{rule};
      assert multiset(Init(rules)) <= multiset(Without(more, k)) by {
        forall r: Rule ensures multiset(Init(rules))[r] <= multiset(Without(more, k))[r] {
          assert (multiset(Init(rules)) + multiset{rule})[r] <= (multiset(Without(more, k)) + multiset{rule})[r];
        }
      }
      MoreRulesMoreFired(Init(rules), Without(more, k), call, possible, w);
      FiredWithout(more, k, call, possible, w);
      FiredWithout(rules, |rules| - 1, call, possible, w);
    }
  }

  lemma SameRulesSameFired(rules: seq<Rule>, other: seq<Rule>, call: Call, possible: bool, w: World)
    requires multiset(rules) == multiset(other)
    ensures Fired(rules, call, possible, w) == Fired(other, call, possible, w)
  {
    MoreRulesMoreFired(rules, other, call, possible, w);
    MoreRulesMoreFired(other, rules, call, possible, w);
  }

  lemma NoteFires(s: State, rule: Rule, call: Call, possible: bool, w: World)
    ensures var verdict := Judge(rule, call, possible, w);
            multiset(Note(s, rule, verdict).fired) == multiset(s.fired) + OneFired(rule, call, possible, w) &&
            (Note(s, rule, verdict).possible != [] <==> s.possible != [] || verdict.MightFire?)
  {
    hide Judge;
  }

  lemma {:induction false} FirstFires(rules: seq<Rule>, call: Call, w: World)
    ensures multiset(First(rules, call, w).fired) == Fired(rules, call, false, w)
    ensures First(rules, call, w).possible != [] <==> SomeMight(rules, call, w)
    decreases rules
  {
    hide Judge, Note, OneFired;
    if rules != [] {
      FirstFires(Init(rules), call, w);
      NoteFires(First(Init(rules), call, w), Last(rules), call, false, w);
      assert rules == Init(rules) + [Last(rules)];
    }
  }

  lemma {:induction false} CountOthers(rules: seq<Rule>, r: Rule)
    ensures multiset(Others(rules))[r] == if r.when.Unknown? then 0 else multiset(rules)[r]
    decreases rules
  {
    hide Others;
    OthersLast(rules);
    if rules != [] {
      var before, last := Init(rules), Last(rules);
      CountOthers(before, r);
      CountMore(before, last, r);
      CountMore(Others(before), last, r);
      assert rules == before + [last];
    }
  }

  lemma OthersLast(rules: seq<Rule>)
    ensures Others(rules) ==
            if rules == [] then [] else Others(Init(rules)) + (if Last(rules).when.Unknown? then [] else [Last(rules)])
  {
  }

  lemma {:induction false} CountDeferred(rules: seq<Rule>, r: Rule)
    ensures multiset(Deferred(rules))[r] == if r.when.Unknown? then multiset(rules)[r] else 0
    decreases rules
  {
    if rules != [] {
      var before, last := Init(rules), Last(rules);
      CountDeferred(before, r);
      CountMore(before, last, r);
      CountMore(Deferred(before), last, r);
      assert rules == before + [last] && Deferred(before) + [] == Deferred(before);
    }
  }

  lemma SplitCounts(rules: seq<Rule>, r: Rule)
    ensures multiset(Others(rules))[r] == if r.when.Unknown? then 0 else multiset(rules)[r]
    ensures multiset(Deferred(rules))[r] == if r.when.Unknown? then multiset(rules)[r] else 0
  {
    CountOthers(rules, r);
    CountDeferred(rules, r);
  }

  lemma CountMore(rules: seq<Rule>, rule: Rule, r: Rule)
    ensures multiset(rules + [rule])[r] == multiset(rules)[r] + if rule == r then 1 else 0
  {
  }

  lemma MoreRulesSplit(rules: seq<Rule>, more: seq<Rule>)
    requires multiset(rules) <= multiset(more)
    ensures multiset(Others(rules)) <= multiset(Others(more)) && multiset(Deferred(rules)) <= multiset(Deferred(more))
  {
    forall r: Rule
      ensures multiset(Others(rules))[r] <= multiset(Others(more))[r]
      ensures multiset(Deferred(rules))[r] <= multiset(Deferred(more))[r]
    {
      SplitCounts(rules, r);
      SplitCounts(more, r);
    }
  }

  // ---- the deferred rules ----------------------------------------------------------------------

  /** Once something is possible it stays so, and the rest is judged alike. */
  lemma {:induction false} SecondWhenPossible(s: State, rules: seq<Rule>, call: Call, w: World)
    requires s.possible != []
    ensures var after := Second(s, rules, call, w);
            after.possible != [] && multiset(after.fired) == multiset(s.fired) + Fired(rules, AtHome(call), true, w)
    decreases rules
  {
    hide Judge, AtHome, Note, OneFired;
    if rules != [] {
      SecondWhenPossible(s, Init(rules), call, w);
      NoteFires(Second(s, Init(rules), call, w), Last(rules), AtHome(call), true, w);
    }
  }

  /** As long as nothing is possible, the rest is judged alike too. */
  lemma {:induction false} SecondWhenNothing(s: State, rules: seq<Rule>, call: Call, w: World)
    requires s.possible == [] && !SomeMight(rules, AtHome(call), w)
    ensures var after := Second(s, rules, call, w);
            after.possible == [] && multiset(after.fired) == multiset(s.fired) + Fired(rules, AtHome(call), false, w)
    decreases rules
  {
    hide Judge, AtHome, Note, OneFired;
    if rules != [] {
      assert rules == Init(rules) + [Last(rules)];
      SecondWhenNothing(s, Init(rules), call, w);
      NoteFires(Second(s, Init(rules), call, w), Last(rules), AtHome(call), false, w);
      assert Last(rules) in rules;
    }
  }

  /** Every rule fires, or not, whatever is possible. */
  predicate Indifferent(rules: seq<Rule>, call: Call, w: World) {
    forall rule :: rule in rules ==> OneFired(rule, call, false, w) == OneFired(rule, call, true, w)
  }

  lemma {:induction false} SecondWhenIndifferent(s: State, rules: seq<Rule>, call: Call, w: World)
    requires Indifferent(rules, AtHome(call), w)
    ensures multiset(Second(s, rules, call, w).fired) == multiset(s.fired) + Fired(rules, AtHome(call), false, w)
    decreases rules
  {
    hide Judge, AtHome, Note, OneFired;
    if rules != [] {
      assert rules == Init(rules) + [Last(rules)];
      assert Indifferent(Init(rules), AtHome(call), w);
      SecondWhenIndifferent(s, Init(rules), call, w);
      var before := Second(s, Init(rules), call, w);
      NoteFires(before, Last(rules), AtHome(call), before.possible != [], w);
      assert Last(rules) in rules;
    }
  }

  /**
    One deferred rule would make something possible, and another one tells the difference:
    then it matters which of them is judged first.
   */
  predicate Clashes(rules: seq<Rule>, call: Call, w: World) {
    && !SomeMight(Others(rules), call, w)
    && SomeMight(Deferred(rules), AtHome(call), w)
    && !Indifferent(Deferred(rules), AtHome(call), w)
  }

  /** What fires, without an order of the rules. */
  lemma FiredUnlessClash(rules: seq<Rule>, call: Call, w: World)
    requires !Clashes(rules, call, w)
    ensures multiset(Judged(rules, call, w).fired)
         == Fired(Others(rules), call, false, w) +
           Fired(Deferred(rules), AtHome(call), SomeMight(Others(rules), call, w), w)
  {
    hide Judge, AtHome, First, Second, Fired, SomeMight, Indifferent;
    var s := First(Others(rules), call, w);
    FirstFires(Others(rules), call, w);
    if SomeMight(Others(rules), call, w) {
      SecondWhenPossible(s, Deferred(rules), call, w);
    } else if SomeMight(Deferred(rules), AtHome(call), w) {
      SecondWhenIndifferent(s, Deferred(rules), call, w);
    } else {
      SecondWhenNothing(s, Deferred(rules), call, w);
    }
  }
}
