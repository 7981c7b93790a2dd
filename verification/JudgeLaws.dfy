/**
  Laws of judging one rule (`judge` and `_holds` in ember_armor/ledger/engine.py), and the
  agreement of the two descriptions of it: `Evaluation`, where the leaves of a predicate are
  names, and `Lint`, where they are what lint encodes.
 */
module JudgeLaws {
  import opened Prelude
  import opened Evaluation
  import V = Views
  import A = ViewsAgree
  import L = Lint
  import Reminders

  // ---- predicates -------------------------------------------------------------------------

  function Nots(of: seq<Predicate>): seq<Predicate> {
    seq(|of|, i requires 0 <= i < |of| => Not(of[i]))
  }

  lemma DoubleNegation(p: Predicate, call: Call, possible: bool, w: World)
    ensures Holds(Not(Not(p)), call, possible, w) == Holds(p, call, possible, w)
  {
  }

  function Opposite(held: Option<bool>): Option<bool> { if held.None? then None else Some(!held.value) }

  lemma {:induction false} UntilOpposite(of: seq<Predicate>, stop: bool, call: Call, possible: bool, w: World)
    ensures Until(Nots(of), !stop, call, possible, w) == Opposite(Until(of, stop, call, possible, w))
    decreases of
  {
    if of == [] {
      assert Nots(of) == [];
    } else {
      assert Nots(of)[1..] == Nots(of[1..]) && Nots(of)[0] == Not(of[0]);
      UntilOpposite(of[1..], stop, call, possible, w);
    }
  }

  /** Errors come out the same, too. */
  lemma DeMorgan(of: seq<Predicate>, call: Call, possible: bool, w: World)
    ensures Holds(Not(All(of)), call, possible, w) == Holds(Any(Nots(of)), call, possible, w)
    ensures Holds(Not(Any(of)), call, possible, w) == Holds(All(Nots(of)), call, possible, w)
  {
    UntilOpposite(of, false, call, possible, w);
    UntilOpposite(of, true, call, possible, w);
  }

  /** Without errors, `all` is every one of them and `any` is one of them. */
  lemma {:induction false} AllAndAny(of: seq<Predicate>, call: Call, possible: bool, w: World)
    requires forall i :: 0 <= i < |of| ==> Holds(of[i], call, possible, w).Some?
    ensures Holds(All(of), call, possible, w) ==
            Some(forall i :: 0 <= i < |of| ==> Holds(of[i], call, possible, w).value)
    ensures Holds(Any(of), call, possible, w) ==
            Some(exists i :: 0 <= i < |of| && Holds(of[i], call, possible, w).value)
    decreases of
  {
    if of != [] {
      forall i | 0 <= i < |of| - 1 ensures of[1..][i] == of[i + 1] {}
      AllAndAny(of[1..], call, possible, w);
      var rest := of[1..];
      if i :| 0 <= i < |rest| && Holds(rest[i], call, possible, w).value { assert of[i + 1] == rest[i]; }
      if i :| 0 <= i < |rest| && !Holds(rest[i], call, possible, w).value { assert of[i + 1] == rest[i]; }
      forall i | 1 <= i < |of| ensures of[i] == rest[i - 1] {}
    }
  }

  // ---- rules --------------------------------------------------------------------------------

  /** The rule that requires what another forbids. */
  function Dual(rule: Rule): Rule { rule.(when := Not(rule.when), obligation := !rule.obligation) }

  /** To forbid `p` and to require its opposite are the same. */
  lemma ForbidIsRequireNot(rule: Rule, call: Call, possible: bool, w: World)
    requires forall view: Call :: w.excepted(Dual(rule), call, view, possible) == w.excepted(rule, call, view, possible)
    ensures Judge(Dual(rule), call, possible, w) == Judge(rule, call, possible, w)
  {
    assert ForTool(Dual(rule), w) == ForTool(rule, w);
    forall view: Call
      ensures Holds(Dual(rule).when, view, possible, w) == Opposite(Holds(rule.when, view, possible, w)) {}
    hide View, ForTool, Holds;
  }

  /** A rule for several tools fires where a rule for one of them does. */
  lemma ToolsApart(rule: Rule, w: World)
    requires rule.tools != []
    ensures ForTool(rule, w) <==> exists i :: 0 <= i < |rule.tools| && ForTool(rule.(tools := [rule.tools[i]]), w)
    ensures ForTool(rule.(tools := []), w)
  {
    forall i | 0 <= i < |rule.tools| ensures ForTool(rule.(tools := [rule.tools[i]]), w) == w.tool(rule.tools[i]) {
      assert [rule.tools[i]][0] == rule.tools[i];
    }
  }

  // ---- the two descriptions ---------------------------------------------------------------------

  /** The leaves of a predicate, from the left. */
  function Leaves(pred: L.Predicate): seq<L.Predicate>
    decreases pred, 0
  {
    match pred
    case All(of) => LeavesOf(of)
    case Any(of) => LeavesOf(of)
    case Negated(inner) => Leaves(inner)
    case _ => [pred]
  }

  function LeavesOf(of: seq<L.Predicate>): seq<L.Predicate>
    decreases of, 1
  {
    if of == [] then [] else Leaves(of[0]) + LeavesOf(of[1..])
  }

  /** Atom number `n`. */
  function Label(n: nat): string { seq(n, _ => 'x') }

  /** The same predicate with its leaves numbered from `n`. */
  function Named(pred: L.Predicate, n: nat): Predicate
    decreases pred, 0
  {
    match pred
    case All(of) => All(NamedEach(of, n))
    case Any(of) => Any(NamedEach(of, n))
    case Negated(inner) => Not(Named(inner, n))
    case _ => Atom(Label(n))
  }

  function NamedEach(of: seq<L.Predicate>, n: nat): (r: seq<Predicate>)
    ensures |r| == |of|
    decreases of, 1
  {
    if of == [] then [] else [Named(of[0], n)] + NamedEach(of[1..], n + |Leaves(of[0])|)
  }

  /** The atoms from number `n` on say what the leaves say. */
  ghost predicate Interprets(u: World, call: Call, leaves: seq<L.Predicate>, n: nat, w: V.World,
                             scope: Option<V.Area>, part: V.Call) {
    forall k :: 0 <= k < |leaves| ==> u.atom(Label(n + k), call) == Some(L.Holds(w, leaves[k], scope, part))
  }

  lemma InterpretsPart(u: World, call: Call, a: seq<L.Predicate>, b: seq<L.Predicate>, n: nat, w: V.World,
                       scope: Option<V.Area>, part: V.Call)
    requires Interprets(u, call, a + b, n, w, scope, part)
    ensures Interprets(u, call, a, n, w, scope, part) && Interprets(u, call, b, n + |a|, w, scope, part)
  {
    forall k | 0 <= k < |a| ensures u.atom(Label(n + k), call) == Some(L.Holds(w, a[k], scope, part)) {
      assert (a + b)[k] == a[k];
    }
    forall k | 0 <= k < |b| ensures u.atom(Label(n + |a| + k), call) == Some(L.Holds(w, b[k], scope, part)) {
      assert (a + b)[|a| + k] == b[k] && n + (|a| + k) == n + |a| + k;
    }
  }

  /** A predicate says the same in both. */
  lemma {:induction false} HoldsAgree(
    pred: L.Predicate, n: nat, u: World, call: Call, possible: bool, w: V.World, scope: Option<V.Area>, part: V.Call)
    requires Interprets(u, call, Leaves(pred), n, w, scope, part)
    ensures Holds(Named(pred, n), call, possible, u) == Some(L.Holds(w, pred, scope, part))
    decreases pred, 0
  {
    match pred
    case All(of) => EachAgree(of, n, u, call, possible, w, scope, part); AllAndAny(NamedEach(of, n), call, possible, u);
    case Any(of) => EachAgree(of, n, u, call, possible, w, scope, part); AllAndAny(NamedEach(of, n), call, possible, u);
    case Negated(inner) => HoldsAgree(inner, n, u, call, possible, w, scope, part);
    case _ => assert Leaves(pred)[0] == pred && n + 0 == n;
  }

  lemma {:induction false} EachAgree(
    of: seq<L.Predicate>, n: nat, u: World, call: Call, possible: bool, w: V.World, scope: Option<V.Area>, part: V.Call)
    requires Interprets(u, call, LeavesOf(of), n, w, scope, part)
    ensures forall i :: 0 <= i < |of| ==>
              Holds(NamedEach(of, n)[i], call, possible, u) == Some(L.Holds(w, of[i], scope, part))
    decreases of, 1
  {
    if of != [] {
      InterpretsPart(u, call, Leaves(of[0]), LeavesOf(of[1..]), n, w, scope, part);
      HoldsAgree(of[0], n, u, call, possible, w, scope, part);
      EachAgree(of[1..], n + |Leaves(of[0])|, u, call, possible, w, scope, part);
      var rest := NamedEach(of[1..], n + |Leaves(of[0])|);
      forall i | 0 <= i < |of|
        ensures Holds(NamedEach(of, n)[i], call, possible, u) == Some(L.Holds(w, of[i], scope, part))
      {
        if i > 0 { assert NamedEach(of, n)[i] == rest[i - 1] && of[i] == of[1..][i - 1]; }
      }
    }
  }

  // ---- rules in both ----------------------------------------------------------------------------

  /** Two worlds with the same directories and repositories show the same parts. */
  lemma {:induction false} ThoseSame(
    items: seq<Item>, call: Call, scope: Scope, u: World, v: World, byPath: bool, verdict: Option<bool>)
    requires u.placed == v.placed && u.rooted == v.rooted
    ensures Those(items, call, scope, u, byPath, verdict) == Those(items, call, scope, v, byPath, verdict)
    decreases items
  {
    if items != [] { ThoseSame(Init(items), call, scope, u, v, byPath, verdict); }
  }

  lemma ViewSame(call: Call, scope: Option<Scope>, u: World, v: World)
    requires u.placed == v.placed && u.rooted == v.rooted
    ensures View(call, scope, u) == View(call, scope, v)
  {
    if scope.Some? {
      forall items, byPath, verdict
        ensures Those(items, call, scope.value, u, byPath, verdict) ==
                Those(items, call, scope.value, v, byPath, verdict)
      {
        ThoseSame(items, call, scope.value, u, v, byPath, verdict);
      }
      hide Those;
    }
  }

  /** A rule of lint with its leaves named, for a call of its tool. */
  function RuleOf(rule: L.Rule, report: Reminders.Rule): Rule {
    var scope := if V.ViewOf(rule.area).None? then None else Some(A.ScopeOf(rule.area));
    Rule("", report, rule.tools, scope, Named(rule.when, 0), rule.obligation)
  }

  /** The world of a call: its tool, its directories, and what the leaves say of the part the rule sees. */
  ghost predicate WorldFor(u: World, rule: L.Rule, w: V.World, call: V.Call) {
    var scope := V.ViewOf(rule.area);
    u.placed == A.WorldOf(w, rule.area).placed && u.rooted == A.WorldOf(w, rule.area).rooted &&
    (forall name :: u.tool(name) == w.texts.fnmatch(call.tool, name)) &&
    (forall r, c, view, possible :: u.excepted(r, c, view, possible) == Some(false)) &&
    (V.View(w, call, scope).Some? ==>
      var part := V.View(w, call, scope).value;
      Interprets(u, A.Plainly(part), Leaves(rule.when), 0, w, scope, part))
  }

  /** The gate fires a rule, described one way, exactly if it does described the other way. */
  lemma JudgesAgree(rule: L.Rule, report: Reminders.Rule, u: World, w: V.World, call: V.Call, possible: bool)
    requires V.Plain(call) && WorldFor(u, rule, w, call)
    ensures Judge(RuleOf(rule, report), A.Plainly(call), possible, u).Fires? <==> L.Fires(w, rule, call)
  {
    var scope, named := V.ViewOf(rule.area), RuleOf(rule, report);
    var part := V.View(w, call, scope);
    assert ForTool(named, u) == L.ForTool(w, rule.tools, call.tool);
    if scope.Some? {
      A.ViewsAreOne(w, call, rule.area);
      ViewSame(A.Plainly(call), named.scope, u, A.WorldOf(w, rule.area));
    } else {
      V.SeesAll(w, call);
    }
    assert View(A.Plainly(call), named.scope, u).0 == if part.None? then None else Some(A.Plainly(part.value));
    if part.Some? {
      HoldsAgree(rule.when, 0, u, A.Plainly(part.value), possible, w, scope, part.value);
    }
    hide View, V.View, Holds, L.Holds, ForTool, L.ForTool, Named;
  }
}
