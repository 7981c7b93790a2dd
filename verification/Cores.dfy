/**
  Contradictions: sets of deny rules that together deny every call in some place, reduced until
  no rule can be dropped (`_core` and `_contradictions`, ember_armor/ledger/lint.py).
 */
module Cores {
  import opened Views
  import opened Lint
  import opened LintModel
  import opened Findings

  /** A solver that answers exactly only says more with more conditions. */
  ghost predicate Monotone(unsat: set<nat> -> bool) {
    forall s, t :: s <= t && unsat(s) ==> unsat(t)
  }

  function Marks(core: seq<nat>): set<nat> { set i | 0 <= i < |core| :: core[i] }

  function Without(core: seq<nat>, mark: nat): seq<nat> {
    if core == [] then []
    else if core[0] == mark then Without(core[1..], mark)
    else [core[0]] + Without(core[1..], mark)
  }

  function Only(marks: seq<nat>, names: set<nat>): seq<nat> {
    if marks == [] then []
    else if marks[0] in names then [marks[0]] + Only(marks[1..], names)
    else Only(marks[1..], names)
  }

  lemma {:induction false} WithoutMarks(core: seq<nat>, mark: nat)
    ensures Marks(Without(core, mark)) == Marks(core) - {mark}
  {
    if core != [] {
      WithoutMarks(core[1..], mark);
      MarksHead(core);
      if core[0] != mark { MarksHead(Without(core, mark)); }
    }
  }

  lemma {:induction false} OnlyMarks(marks: seq<nat>, names: set<nat>)
    ensures Marks(Only(marks, names)) == Marks(marks) * names
  {
    if marks != [] {
      OnlyMarks(marks[1..], names);
      MarksHead(marks);
      if marks[0] in names { MarksHead(Only(marks, names)); }
    }
  }

  lemma MarksHead(core: seq<nat>)
    requires core != []
    ensures Marks(core) == {core[0]} + Marks(core[1..])
  {
    forall m | m in Marks(core) ensures m in {core[0]} + Marks(core[1..]) {
      var i :| 0 <= i < |core| && core[i] == m;
      if i > 0 { assert core[1..][i - 1] == m; }
    }
    forall m | m in Marks(core[1..]) ensures m in Marks(core) {
      var i :| 0 <= i < |core[1..]| && core[1..][i] == m;
      assert core[i + 1] == m;
    }
  }

  /** No mark of the set can be dropped. */
  predicate Irreducible(unsat: set<nat> -> bool, core: set<nat>) {
    unsat(core) && forall m :: m in core ==> !unsat(core - {m})
  }

  /** Some call is allowed, or a set that was reported before explains this scope too. */
  predicate Nothing(unsat: set<nat> -> bool, marks: seq<nat>, reported: seq<seq<nat>>) {
    !unsat(Marks(marks)) || exists i :: 0 <= i < |reported| && unsat(Marks(reported[i]))
  }

  /** `_core`; `names` is the unsat core the solver gives for all marks. */
  method Core(unsat: set<nat> -> bool, marks: seq<nat>, reported: seq<seq<nat>>, names: set<nat>)
      returns (core: seq<nat>)
    requires Monotone(unsat)
    requires unsat(Marks(marks)) ==> names <= Marks(marks) && unsat(names)
    ensures Nothing(unsat, marks, reported) ==> core == []
    ensures !Nothing(unsat, marks, reported) ==> Irreducible(unsat, Marks(core)) && Marks(core) <= Marks(marks)
  {
    var known := false;
    for i := 0 to |reported|
      invariant known <==> exists r :: 0 <= r < i && unsat(Marks(reported[r]))
    {
      known := known || unsat(Marks(reported[i]));
    }
    if known || !unsat(Marks(marks)) { return []; }
    core := Only(marks, names);
    OnlyMarks(marks, names);
    assert Marks(marks) * names == names;
    var all := core;
    for i := 0 to |all|
      invariant unsat(Marks(core)) && Marks(core) <= Marks(all)
      invariant forall j :: 0 <= j < i && all[j] in Marks(core) ==> !unsat(Marks(core) - {all[j]})
    {
      var rest := Without(core, all[i]);
      WithoutMarks(core, all[i]);
      if unsat(Marks(rest)) {
        forall j | 0 <= j < i && all[j] in Marks(rest) ensures !unsat(Marks(rest) - {all[j]}) {
          assert Marks(rest) - {all[j]} <= Marks(core) - {all[j]};
        }
        core := rest;
      } else {
        assert !unsat(Marks(core) - {all[i]});
      }
    }
    forall m | m in Marks(core) ensures !unsat(Marks(core) - {m}) {
      assert m in Marks(all);
      var j :| 0 <= j < |all| && all[j] == m;
    }
  }

  // ---- what a reported set means ------------------------------------------------------

  /** Where a contradiction is looked for: some tools, and a directory or a repository. */
  datatype Place = Place(tools: seq<string>, area: Area)

  /** The rules and the places are encoded. */
  predicate Encased(t: Tables, rules: seq<Rule>, place: Place) {
    Opened(t) && Split(t) && ScopeKnown(t, place.tools, place.area) &&
    forall i :: 0 <= i < |rules| ==> RuleKnown(t, rules[i])
  }

  function Applies(t: Tables, rules: seq<Rule>, place: Place, i: nat): Term
    requires Encased(t, rules, place) && i < |rules|
  {
    CaseOf(t, rules[i]).applies
  }

  /** A valuation of the axioms that describes a call in this place. */
  predicate Describes(w: World, t: Tables, place: Place, v: Valuation)
    requires Opened(t) && Split(t) && ScopeKnown(t, place.tools, place.area)
  {
    AllTrue(AllAxioms(w, t), v) && True(ScopeTerm(t, place.tools, place.area), v)
  }

  /** No description of a call in this place leaves every marked rule silent. */
  ghost predicate Denies(w: World, t: Tables, rules: seq<Rule>, place: Place, marked: set<nat>)
    requires Encased(t, rules, place)
  {
    forall v: Valuation ::
      Describes(w, t, place, v) ==> exists i :: i in marked && i < |rules| && True(Applies(t, rules, place, i), v)
  }

  lemma DeniesMonotone(w: World, t: Tables, rules: seq<Rule>, place: Place, s: set<nat>, more: set<nat>)
    requires Encased(t, rules, place) && s <= more && Denies(w, t, rules, place, s)
    ensures Denies(w, t, rules, place, more)
  {
    hide Describes, Applies;
  }

  /** Some rule of the set fires on the call. */
  ghost predicate Denied(w: World, rules: seq<Rule>, core: set<nat>, call: Call) {
    exists i :: i in core && i < |rules| && Fires(w, rules[i], call)
  }

  predicate Lies(w: World, place: Place, call: Call) { Covers(w, place.tools, place.area, call) }

  /** Every call in the place is denied by a rule of the set. */
  lemma ReportedSetsDenyEveryCall(w: World, t: Tables, rules: seq<Rule>, place: Place, core: set<nat>, call: Call)
    requires Encased(t, rules, place) && Denies(w, t, rules, place, core)
    requires Trusted(w, t) && Admissible(w, t, call) && Lies(w, place, call)
    ensures Denied(w, rules, core, call)
  {
    var v := Induced(w, t, call);
    AxiomsTrue(w, t, call);
    ScopeAgrees(w, t, place.tools, place.area, call);
    assert Describes(w, t, place, v);
    hide Induced, AllTrue, AllAxioms, CaseOf, Fires, Describes, Trusted, ScopeTerm, RuleKnown;
    var i :| i in core && i < |rules| && True(Applies(t, rules, place, i), v);
    FiresAgrees(w, t, rules[i], call);
  }

  /** The valuation makes rule `m`, and no other rule of the set, fire. */
  predicate Alone(t: Tables, rules: seq<Rule>, place: Place, core: set<nat>, m: nat, v: Valuation)
    requires Encased(t, rules, place)
  {
    m < |rules| && True(Applies(t, rules, place, m), v) &&
    forall i :: i in core && i < |rules| && i != m ==> !True(Applies(t, rules, place, i), v)
  }

  /** The axioms leave a description of a call in the place that only rule `m` of the set denies. */
  ghost predicate Needed(w: World, t: Tables, rules: seq<Rule>, place: Place, core: set<nat>, m: nat)
    requires Encased(t, rules, place)
  {
    exists v: Valuation :: Describes(w, t, place, v) && Alone(t, rules, place, core, m, v)
  }

  lemma EachRuleIsNeeded(w: World, t: Tables, rules: seq<Rule>, place: Place, core: set<nat>, m: nat)
    requires Encased(t, rules, place)
    requires Denies(w, t, rules, place, core) && m in core && !Denies(w, t, rules, place, core - {m})
    ensures Needed(w, t, rules, place, core, m)
  {
    hide Applies, Describes, RuleKnown, ScopeKnown, Opened, Split;
    var v: Valuation :| Describes(w, t, place, v) &&
      !exists i :: i in core - {m} && i < |rules| && True(Applies(t, rules, place, i), v);
    var n :| n in core && n < |rules| && True(Applies(t, rules, place, n), v);
    assert n == m;
    forall i | i in core && i < |rules| && i != m ensures !True(Applies(t, rules, place, i), v) {
      assert i in core - {m};
    }
    assert Alone(t, rules, place, core, m, v);
  }

  /** The set is a contradiction of the rules themselves: every call in the place is denied, and no rule is idle. */
  ghost predicate Contradicts(w: World, t: Tables, rules: seq<Rule>, place: Place, core: set<nat>)
    requires Encased(t, rules, place)
  {
    (forall call :: Admissible(w, t, call) && Lies(w, place, call) ==> Denied(w, rules, core, call)) &&
    (forall m :: m in core ==> Needed(w, t, rules, place, core, m))
  }

  lemma CoreIsAContradiction(unsat: set<nat> -> bool, w: World, t: Tables, rules: seq<Rule>, place: Place,
                             core: set<nat>)
    requires Trusted(w, t) && Encased(t, rules, place) && Irreducible(unsat, core)
    requires forall s: set<nat> :: unsat(s) <==> Denies(w, t, rules, place, s)
    ensures Contradicts(w, t, rules, place, core)
  {
    hide Denies, Admissible, Encased, Trusted, Lies, Needed, Denied;
    forall call | Admissible(w, t, call) && Lies(w, place, call) ensures Denied(w, rules, core, call) {
      ReportedSetsDenyEveryCall(w, t, rules, place, core, call);
    }
    forall m | m in core ensures Needed(w, t, rules, place, core, m) {
      EachRuleIsNeeded(w, t, rules, place, core, m);
    }
  }

  // ---- all places ------------------------------------------------------------------------------

  predicate AllEncased(t: Tables, rules: seq<Rule>, places: seq<Place>) {
    forall k :: 0 <= k < |places| ==> Encased(t, rules, places[k])
  }

  /** The solver answers, place by place, what the encoded rules say. */
  ghost predicate Answers(unsat: (nat, set<nat>) -> bool, w: World, t: Tables, rules: seq<Rule>, places: seq<Place>)
    requires AllEncased(t, rules, places)
  {
    forall k: nat, s: set<nat> :: k < |places| ==> (unsat(k, s) <==> Denies(w, t, rules, places[k], s))
  }

  lemma AnswersAreMonotone(
    unsat: (nat, set<nat>) -> bool, w: World, t: Tables, rules: seq<Rule>, places: seq<Place>, k: nat)
    requires AllEncased(t, rules, places)
    requires Answers(unsat, w, t, rules, places) && k < |places|
    ensures Monotone(s => unsat(k, s))
  {
    forall s: set<nat>, more: set<nat> | s <= more && unsat(k, s) ensures unsat(k, more) {
      DeniesMonotone(w, t, rules, places[k], s, more);
    }
  }

  /** A place where nothing is reported: a call is allowed, the place is empty, or a reported set explains it. */
  predicate Settled(unsat: (nat, set<nat>) -> bool, marks: set<nat>, found: seq<(nat, seq<nat>)>, k: nat) {
    !unsat(k, marks) || unsat(k, {}) || exists i :: 0 <= i < |found| && unsat(k, Marks(found[i].1))
  }

  lemma SettledStays(unsat: (nat, set<nat>) -> bool, marks: set<nat>, found: seq<(nat, seq<nat>)>,
                     more: seq<(nat, seq<nat>)>, k: nat)
    requires Settled(unsat, marks, found, k) && found <= more
    ensures Settled(unsat, marks, more, k)
  {
    if i :| 0 <= i < |found| && unsat(k, Marks(found[i].1)) { assert more[i] == found[i]; }
  }

  lemma CoreSettles(unsat: (nat, set<nat>) -> bool, marks: seq<nat>, reported: seq<seq<nat>>,
                    before: seq<(nat, seq<nat>)>, found: seq<(nat, seq<nat>)>, k: nat, core: seq<nat>)
    requires |reported| == |before| && forall i :: 0 <= i < |before| ==> reported[i] == before[i].1
    requires found == before + if core == [] then [] else [(k, core)]
    requires !Nothing(s => unsat(k, s), marks, reported) ==> Irreducible(s => unsat(k, s), Marks(core))
    requires Nothing(s => unsat(k, s), marks, reported) ==> core == []
    ensures Settled(unsat, Marks(marks), found, k)
  {
    if Nothing(s => unsat(k, s), marks, reported) {
      assert found == before;
    } else if core == [] {
      assert Marks(core) == {};
    } else {
      assert found[|before|] == (k, core);
    }
  }

  /** What is reported for a place: marked rules that are a contradiction there. */
  ghost predicate Reported(
    w: World, t: Tables, rules: seq<Rule>, places: seq<Place>, marks: set<nat>, entry: (nat, seq<nat>))
    requires AllEncased(t, rules, places)
  {
    entry.0 < |places| && entry.1 != [] && Marks(entry.1) <= marks &&
    Contradicts(w, t, rules, places[entry.0], Marks(entry.1))
  }

  /** One turn of the loop of `_contradictions`. */
  method CoreAt(
    unsat: (nat, set<nat>) -> bool, names: set<nat>, marks: seq<nat>, reported: seq<seq<nat>>,
    ghost w: World, ghost t: Tables, ghost rules: seq<Rule>, places: seq<Place>, k: nat,
    ghost before: seq<(nat, seq<nat>)>)
      returns (core: seq<nat>)
    requires Trusted(w, t) && AllEncased(t, rules, places) && Answers(unsat, w, t, rules, places) && k < |places|
    requires unsat(k, Marks(marks)) ==> names <= Marks(marks) && unsat(k, names)
    requires |reported| == |before| && forall i :: 0 <= i < |before| ==> reported[i] == before[i].1
    ensures core != [] ==> Reported(w, t, rules, places, Marks(marks), (k, core))
    ensures Settled(unsat, Marks(marks), before + if core == [] then [] else [(k, core)], k)
  {
    hide Contradicts, Trusted, Encased, Irreducible, Nothing, Denies, Monotone, Settled;
    AnswersAreMonotone(unsat, w, t, rules, places, k);
    core := Core(s => unsat(k, s), marks, reported, names);
    CoreSettles(unsat, marks, reported, before, before + if core == [] then [] else [(k, core)], k, core);
    if core != [] { CoreIsAContradiction(s => unsat(k, s), w, t, rules, places[k], Marks(core)); }
  }

  /** `_contradictions`; `names` gives the unsat core of the solver for each place. */
  method Contradictions(
    unsat: (nat, set<nat>) -> bool, names: nat -> set<nat>, marks: seq<nat>,
    ghost w: World, ghost t: Tables, ghost rules: seq<Rule>, places: seq<Place>)
      returns (found: seq<(nat, seq<nat>)>)
    requires Trusted(w, t) && AllEncased(t, rules, places) && Answers(unsat, w, t, rules, places)
    requires forall k: nat :: k < |places| && unsat(k, Marks(marks)) ==>
               names(k) <= Marks(marks) && unsat(k, names(k))
    ensures forall i :: 0 <= i < |found| ==> Reported(w, t, rules, places, Marks(marks), found[i])
    ensures forall k: nat :: k < |places| ==> Settled(unsat, Marks(marks), found, k)
  {
    hide Reported, Trusted, AllEncased, Answers, Settled;
    found := [];
    var reported: seq<seq<nat>> := [];
    for k := 0 to |places|
      invariant |reported| == |found| && forall i :: 0 <= i < |found| ==> reported[i] == found[i].1
      invariant forall i :: 0 <= i < |found| ==> Reported(w, t, rules, places, Marks(marks), found[i])
      invariant forall j: nat :: j < k ==> Settled(unsat, Marks(marks), found, j)
    {
      ghost var before := found;
      var core := CoreAt(unsat, names(k), marks, reported, w, t, rules, places, k, before);
      if core != [] {
        reported := reported + [core];
        found := found + [(k, core)];
      }
      assert found == before + if core == [] then [] else [(k, core)];
      forall j: nat | j < k ensures Settled(unsat, Marks(marks), found, j) {
        SettledStays(unsat, Marks(marks), before, found, j);
      }
    }
  }
}
