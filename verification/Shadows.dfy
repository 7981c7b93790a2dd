/**
  Shadowed rules (`_Linter.run` and `_shadowed` in ember_armor/ledger/lint.py): a rule is
  redundant when another one, at least as severe, fires whenever it does.  All rules lint
  reports as dead or shadowed can be dropped together, and no decision gets weaker.
 */
module Shadows {
  import opened Prelude
  import opened Views
  import opened Lint
  import opened LintModel
  import opened Findings
  import Reminders

  /** A rule of the ledger; built-in rules take part, but are not reported. */
  datatype Listed = Listed(rule: Rule, effect: Reminders.Effect, builtin: bool)

  function Rank(r: Listed): nat { Reminders.Severity(r.effect) }

  // ---- the linter ----------------------------------------------------------------------------

  /** What the solver says of rules by number: that one is dead, and that one covers another. */
  datatype Oracle = Oracle(dead: nat -> bool, covers: (nat, nat) -> bool)

  /** Rule `a` makes rule `b` redundant; of two equivalent rules the earlier one does. */
  predicate Shadows(o: Oracle, rules: seq<Listed>, a: nat, b: nat)
    requires a < |rules| && b < |rules|
  {
    a != b && !o.dead(a) && Rank(rules[a]) >= Rank(rules[b]) && o.covers(a, b) &&
    !(Rank(rules[a]) == Rank(rules[b]) && o.covers(b, a) && a > b)
  }

  function Shadowing(o: Oracle, rules: seq<Listed>, b: nat, n: nat): seq<nat>
    requires b < |rules| && n <= |rules|
  {
    if n == 0 then []
    else Shadowing(o, rules, b, n - 1) + if Shadows(o, rules, n - 1, b) then [n - 1] else []
  }

  predicate Shadowed(o: Oracle, rules: seq<Listed>, b: nat)
    requires b < |rules|
  {
    exists a: nat :: a < |rules| && Shadows(o, rules, a, b)
  }

  lemma {:induction false} ShadowingAre(o: Oracle, rules: seq<Listed>, b: nat, n: nat, a: nat)
    requires b < |rules| && n <= |rules|
    ensures a in Shadowing(o, rules, b, n) <==> a < n && Shadows(o, rules, a, b)
    decreases n
  {
    hide Shadows;
    if n > 0 { ShadowingAre(o, rules, b, n - 1, a); }
  }

  /** `_shadowed`: the rules that make one redundant. */
  method ShadowingOf(o: Oracle, rules: seq<Listed>, b: nat) returns (stronger: seq<nat>)
    requires b < |rules|
    ensures stronger == Shadowing(o, rules, b, |rules|)
  {
    stronger := [];
    for a := 0 to |rules|
      invariant stronger == Shadowing(o, rules, b, a)
    {
      if a == b || o.dead(a) || Rank(rules[a]) < Rank(rules[b]) { continue; }
      if !o.covers(a, b) { continue; }
      var twin := Rank(rules[a]) == Rank(rules[b]) && o.covers(b, a);
      if twin && a > b { continue; }
      stronger := stronger + [a];
    }
  }

  datatype Finding = DeadFinding(rule: nat) | ShadowFinding(rule: nat, stronger: seq<nat>)

  /** Rule `b` is reported as dead or shadowed. */
  predicate Redundant(o: Oracle, rules: seq<Listed>, b: nat)
    requires b < |rules|
  {
    !rules[b].builtin && (o.dead(b) || Shadowed(o, rules, b))
  }

  /** The part of `run` that reports dead and shadowed rules. */
  method Run(o: Oracle, rules: seq<Listed>) returns (findings: seq<Finding>)
    ensures forall f :: f in findings ==>
              f.rule < |rules| && Redundant(o, rules, f.rule) &&
              (f.ShadowFinding? ==> f.stronger == Shadowing(o, rules, f.rule, |rules|))
    ensures forall b: nat :: b < |rules| && Redundant(o, rules, b) ==> exists f :: f in findings && f.rule == b
  {
    hide Shadows;
    findings := [];
    for b := 0 to |rules|
      invariant forall f :: f in findings ==>
                  f.rule < |rules| && Redundant(o, rules, f.rule) &&
                  (f.ShadowFinding? ==> f.stronger == Shadowing(o, rules, f.rule, |rules|))
      invariant forall k: nat :: k < b && Redundant(o, rules, k) ==> exists f :: f in findings && f.rule == k
    {
      if rules[b].builtin { continue; }
      if o.dead(b) {
        findings := findings + [DeadFinding(b)];
        assert DeadFinding(b) in findings;
        continue;
      }
      var stronger := ShadowingOf(o, rules, b);
      forall a: nat ensures a in stronger <==> a < |rules| && Shadows(o, rules, a, b) {
        ShadowingAre(o, rules, b, |rules|, a);
      }
      if stronger != [] {
        assert stronger[0] in stronger;
        findings := findings + [ShadowFinding(b, stronger)];
        assert ShadowFinding(b, stronger) in findings;
      }
    }
  }

  // ---- what may be dropped ---------------------------------------------------------------------

  /** The solver answers exactly. */
  ghost predicate Exact(o: Oracle, w: World, t: Tables, rules: seq<Listed>)
    requires Opened(t) && Split(t) && forall i :: 0 <= i < |rules| ==> RuleKnown(t, rules[i].rule)
  {
    (forall a: nat :: a < |rules| ==> (o.dead(a) <==> Dead(w, t, rules[a].rule))) &&
    (forall a: nat, b: nat :: a < |rules| && b < |rules| ==>
      (o.covers(a, b) <==> CoversRule(w, t, rules[a].rule, rules[b].rule)))
  }

  lemma CoversOn(w: World, t: Tables, a: Rule, b: Rule, c: Rule)
    requires Opened(t) && Split(t) && RuleKnown(t, a) && RuleKnown(t, b) && RuleKnown(t, c)
    requires CoversRule(w, t, a, b) && CoversRule(w, t, b, c)
    ensures CoversRule(w, t, a, c)
  {
    var (x, y, z) := (CaseOf(t, a).applies, CaseOf(t, b).applies, CaseOf(t, c).applies);
    var known := AllAxioms(w, t);
    hide CaseOf, AllAxioms, AllTrue, RuleKnown, Opened, Split;
    forall v: Valuation ensures !AllTrue(known + [z, Not(x)], v) {
      Refuted(known, z, x, v);
      Refuted(known, z, y, v);
      Refuted(known, y, x, v);
      assert !AllTrue(known + [y, Not(x)], v) && !AllTrue(known + [z, Not(y)], v);
    }
  }

  lemma Refuted(known: seq<Term>, p: Term, q: Term, v: Valuation)
    ensures AllTrue(known + [p, Not(q)], v) <==> AllTrue(known, v) && True(p, v) && !True(q, v)
  {
    TrueJoin(known, [p, Not(q)], v);
    PairHolds(p, Not(q), v);
  }

  /** The order in which rules make others redundant. */
  predicate Above(o: Oracle, rules: seq<Listed>, a: nat, b: nat)
    requires a < |rules| && b < |rules|
  {
    o.covers(a, b) && Rank(rules[a]) >= Rank(rules[b]) &&
    (Rank(rules[a]) > Rank(rules[b]) || !o.covers(b, a) || a < b)
  }

  function Up(o: Oracle, rules: seq<Listed>, b: nat): set<nat>
    requires b < |rules|
  {
    set a: nat | a < |rules| && Above(o, rules, a, b)
  }

  predicate Transitive(o: Oracle, n: nat) {
    forall a: nat, b: nat, c: nat :: a < n && b < n && c < n && o.covers(a, b) && o.covers(b, c) ==> o.covers(a, c)
  }

  lemma ExactIsTransitive(o: Oracle, w: World, t: Tables, rules: seq<Listed>)
    requires Opened(t) && Split(t) && forall i :: 0 <= i < |rules| ==> RuleKnown(t, rules[i].rule)
    requires Exact(o, w, t, rules)
    ensures Transitive(o, |rules|)
  {
    hide CoversRule, RuleKnown, Opened, Split, Dead;
    forall a: nat, b: nat, c: nat | a < |rules| && b < |rules| && c < |rules| && o.covers(a, b) && o.covers(b, c)
      ensures o.covers(a, c)
    {
      CoversOn(w, t, rules[a].rule, rules[b].rule, rules[c].rule);
    }
  }

  lemma AboveShrinks(o: Oracle, rules: seq<Listed>, a: nat, b: nat)
    requires a < |rules| && b < |rules| && Transitive(o, |rules|) && Above(o, rules, a, b)
    ensures Up(o, rules, a) < Up(o, rules, b)
  {
    forall x | x in Up(o, rules, a) ensures x in Up(o, rules, b) {
      assert o.covers(x, b);
      if Rank(rules[x]) == Rank(rules[b]) && o.covers(b, x) {
        assert o.covers(a, x) && o.covers(b, a);
      }
    }
    assert a in Up(o, rules, b) && a !in Up(o, rules, a);
  }

  /** A rule is kept when it is not reported. */
  predicate Kept(o: Oracle, rules: seq<Listed>, a: nat)
    requires a < |rules|
  {
    !Redundant(o, rules, a)
  }

  /**
    Of all rules that fire on a call, a kept one is at least as severe: dropping every dead and
    every shadowed rule at once weakens no decision.
   */
  lemma {:induction false} ARuleIsKept(o: Oracle, w: World, t: Tables, rules: seq<Listed>, b: nat, call: Call)
      returns (a: nat)
    requires Opened(t) && Split(t) && forall i :: 0 <= i < |rules| ==> RuleKnown(t, rules[i].rule)
    requires Exact(o, w, t, rules) && Trusted(w, t) && Admissible(w, t, call)
    requires b < |rules| && Fires(w, rules[b].rule, call)
    ensures a < |rules| && Kept(o, rules, a) && Fires(w, rules[a].rule, call) && Rank(rules[a]) >= Rank(rules[b])
    decreases |Up(o, rules, b)|
  {
    hide CoversRule, RuleKnown, Opened, Split, Dead, Trusted, Admissible, Fires;
    if Kept(o, rules, b) { return b; }
    if o.dead(b) {
      DeadRulesNeverFire(w, t, rules[b].rule, call);
      assert false;
    }
    var c: nat :| c < |rules| && Shadows(o, rules, c, b);
    CoveringRulesFireToo(w, t, rules[c].rule, rules[b].rule, call);
    ExactIsTransitive(o, w, t, rules);
    AboveShrinks(o, rules, c, b);
    SmallerSet(Up(o, rules, c), Up(o, rules, b));
    a := ARuleIsKept(o, w, t, rules, c, call);
  }

  /**
    And nothing superfluous is kept: every kept rule of the user can fire, none of them covers
    another one that is no more severe, and built-in rules are never dropped.
   */
  lemma NothingSuperfluousIsKept(o: Oracle, rules: seq<Listed>, a: nat, b: nat)
    requires a < |rules| && b < |rules| && a != b && Kept(o, rules, a) && Kept(o, rules, b)
    requires !rules[a].builtin && !rules[b].builtin && Rank(rules[a]) >= Rank(rules[b])
    ensures !o.dead(a) && !o.covers(a, b)
    ensures forall c: nat :: c < |rules| && rules[c].builtin ==> Kept(o, rules, c)
  {
    assert !Shadows(o, rules, a, b) && !Shadows(o, rules, b, a);
  }

  lemma SmallerSet(s: set<nat>, more: set<nat>)
    requires s < more
    ensures |s| < |more|
  {
    var x :| x in more && x !in s;
    SubsetSize(s, more - {x});
  }

  lemma {:induction false} SubsetSize(s: set<nat>, more: set<nat>)
    requires s <= more
    ensures |s| <= |more|
    decreases s
  {
    if x :| x in s {
      SubsetSize(s - {x}, more - {x});
    }
  }
}
