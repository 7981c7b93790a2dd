/**
  The analysis of `_Tracker` (ember_armor/ledger/shellpaths.py) forgets nothing it can know:
  where nothing moves every label stays, a scope that may be left out and ends where it began
  leaves the place known, and on scripts whose moves can all be read the labels are those of an
  execution command by command.
 */
module Precision {
  import opened Prelude
  import opened Paths
  import opened DirStacks
  import opened Moves
  import opened Scopes
  import opened Analysis
  import opened Soundness

  // ---- the budget --------------------------------------------------------------------------

  lemma {:induction false} BudgetFalls(c: Call, i: nat, p: nat, h: nat, w: Place, budget: int)
    requires Known(c) && Bounded(c.parsed, i, p, h)
    ensures Analyse(c, i, p, h, w, budget).budget <= budget
    decreases Size(c) - i, if p < |Opens(c, i)| then |Opens(c, i)| - p else 0
  {
    hide Opening, Follow;
    if i < h {
      if p < |Opens(c, i)| {
        InnerBounded(c.parsed, i, p, h);
        EntryFacts(c.parsed, i, p);
        var e := Opens(c, i)[p];
        if IsLoop(c, e.1) { BudgetFalls(c, i, p + 1, e.0, w, budget - (e.0 - i)); }
        var start := Analysis.Enter(c, i, p, w, budget);
        var body := Analyse(c, i, p + 1, e.0, start.place, start.budget);
        BudgetFalls(c, i, p + 1, e.0, start.place, start.budget);
        BudgetFalls(c, e.0, 0, h, Leave(c, e.1, w, start.wild, body.place), body.budget);
      } else {
        NextBounded(c.parsed, i, p, h);
        BudgetFalls(c, i + 1, 0, h, Step(c.parsed.commands[i], w, c.home), budget);
      }
    }
  }

  /** A budget that is never used up decides nothing. */
  lemma {:induction false} EnoughIsEnough(c: Call, i: nat, p: nat, h: nat, w: Place, budget: int, other: int)
    requires Known(c) && Bounded(c.parsed, i, p, h)
    requires Analyse(c, i, p, h, w, budget).budget >= 0 && Analyse(c, i, p, h, w, other).budget >= 0
    ensures var a, b := Analyse(c, i, p, h, w, budget), Analyse(c, i, p, h, w, other);
            a.place == b.place && a.labels == b.labels && budget - a.budget == other - b.budget
    decreases Size(c) - i, if p < |Opens(c, i)| then |Opens(c, i)| - p else 0
  {
    hide Opening, Follow, Leave, Step;
    if i < h {
      if p < |Opens(c, i)| {
        ScopeBudgets(c, i, p, h, w, budget);
        ScopeBudgets(c, i, p, h, w, other);
        InnerBounded(c.parsed, i, p, h);
        var e := Opens(c, i)[p];
        if IsLoop(c, e.1) { EnoughIsEnough(c, i, p + 1, e.0, w, budget - (e.0 - i), other - (e.0 - i)); }
        var start, second := Analysis.Enter(c, i, p, w, budget), Analysis.Enter(c, i, p, w, other);
        EnoughIsEnough(c, i, p + 1, e.0, start.place, start.budget, second.budget);
        var body := Analyse(c, i, p + 1, e.0, start.place, start.budget);
        var twin := Analyse(c, i, p + 1, e.0, start.place, second.budget);
        EnoughIsEnough(c, e.0, 0, h, Leave(c, e.1, w, start.wild, body.place), body.budget, twin.budget);
      } else {
        NextBounded(c.parsed, i, p, h);
        EnoughIsEnough(c, i + 1, 0, h, Step(c.parsed.commands[i], w, c.home), budget, other);
      }
    }
  }

  // ---- where nothing moves ----------------------------------------------------------------------

  /** No move from `i` up to `m`, and no nested shell that starts elsewhere. */
  predicate Still(c: Call, i: nat, m: nat) {
    (forall k :: i <= k < m && k < Size(c) ==> !c.parsed.commands[k].Move?) &&
    (forall n: nat :: n < |c.parsed.scopes| && i <= c.parsed.scopes[n].0 < m && n !in c.parsed.guards ==>
      Chain(c, n) == [])
  }

  function Same(w: Place, n: nat): seq<Place> { seq(n, _ => w) }

  /** What the budget at the end says of the budgets before. */
  lemma ScopeBudgets(c: Call, i: nat, p: nat, h: nat, w: Place, budget: int)
    requires Known(c) && Bounded(c.parsed, i, p, h) && i < h && p < |Opens(c, i)|
    ensures var e, start := Opens(c, i)[p], Analysis.Enter(c, i, p, w, budget);
            var body := Analyse(c, i, p + 1, e.0, start.place, start.budget);
            i < e.0 <= h <= Size(c) && Analyse(c, i, p, h, w, budget).budget <= body.budget <= start.budget &&
            (IsLoop(c, e.1) && start.budget >= 0 ==> budget >= e.0 - i) &&
            (IsLoop(c, e.1) && budget >= e.0 - i ==>
               start.budget == Analyse(c, i, p + 1, e.0, w, budget - (e.0 - i)).budget)
  {
    hide Opening, Follow;
    InnerBounded(c.parsed, i, p, h);
    EntryFacts(c.parsed, i, p);
    var e, start := Opens(c, i)[p], Analysis.Enter(c, i, p, w, budget);
    var body := Analyse(c, i, p + 1, e.0, start.place, start.budget);
    BudgetFalls(c, i, p + 1, e.0, start.place, start.budget);
    BudgetFalls(c, e.0, 0, h, Leave(c, e.1, w, start.wild, body.place), body.budget);
  }

  lemma StillEnters(c: Call, i: nat, p: nat, m: nat, w: Place, budget: int)
    requires Known(c) && p < |Opens(c, i)| && i < m && Still(c, i, m)
    requires var e := Opens(c, i)[p];
             IsLoop(c, e.1) ==> e.0 <= Size(c) && budget >= e.0 - i &&
                                Analyse(c, i, p + 1, e.0, w, budget - (e.0 - i)).place == w
    ensures Analysis.Enter(c, i, p, w, budget) == Started(w, false, Analysis.Enter(c, i, p, w, budget).budget)
  {
    hide Opening;
    EntryFacts(c.parsed, i, p);
  }

  lemma StillLeaves(c: Call, n: nat, w: Place) ensures Leave(c, n, w, false, w) == w {}

  /** A stretch where nothing moves is labelled with the place before it, and leaves it to what follows. */
  lemma {:induction false} StillSkips(c: Call, i: nat, p: nat, m: nat, h: nat, w: Place, budget: int)
      returns (left: int)
    requires Known(c) && Bounded(c.parsed, i, p, h) && Bounded(c.parsed, i, p, m) && i <= m <= h && Still(c, i, m)
    requires Analyse(c, i, p, h, w, budget).budget >= 0 && (i == m ==> p == 0)
    ensures var all, rest := Analyse(c, i, p, h, w, budget), Analyse(c, m, 0, h, w, left);
            all == Outcome(rest.place, rest.budget, Same(w, m - i) + rest.labels)
    decreases Size(c) - i, if p < |Opens(c, i)| then |Opens(c, i)| - p else 0, 1
  {
    hide Opening, Follow;
    if i == m {
      left := budget;
      assert Same(w, 0) + Analyse(c, m, 0, h, w, left).labels == Analyse(c, m, 0, h, w, left).labels;
    } else if p < |Opens(c, i)| {
      left := StillScope(c, i, p, m, h, w, budget);
    } else {
      NextBounded(c.parsed, i, p, h);
      NextBounded(c.parsed, i, p, m);
      left := StillSkips(c, i + 1, 0, m, h, w, budget);
      assert [w] + Same(w, m - i - 1) == Same(w, m - i);
    }
  }

  lemma {:induction false} StillScope(c: Call, i: nat, p: nat, m: nat, h: nat, w: Place, budget: int)
      returns (left: int)
    requires Known(c) && Bounded(c.parsed, i, p, h) && Bounded(c.parsed, i, p, m) && i < m <= h && Still(c, i, m)
    requires Analyse(c, i, p, h, w, budget).budget >= 0 && p < |Opens(c, i)|
    ensures var all, rest := Analyse(c, i, p, h, w, budget), Analyse(c, m, 0, h, w, left);
            all == Outcome(rest.place, rest.budget, Same(w, m - i) + rest.labels)
    decreases Size(c) - i, |Opens(c, i)| - p, 0
  {
    hide Opening, Follow, Analysis.Enter, Bounded, Leave, Still, Same;
    InnerBounded(c.parsed, i, p, m);
    InnerBounded(c.parsed, i, p, h);
    ScopeBudgets(c, i, p, h, w, budget);
    var e := Opens(c, i)[p];
    StillPart(c, i, m, i, e.0);
    StillPart(c, i, m, e.0, m);
    if IsLoop(c, e.1) { StillBody(c, i, p + 1, e.0, w, budget - (e.0 - i)); }
    StillEnters(c, i, p, m, w, budget);
    var start := Analysis.Enter(c, i, p, w, budget);
    StillBody(c, i, p + 1, e.0, w, start.budget);
    StillLeaves(c, e.1, w);
    var body := Analyse(c, i, p + 1, e.0, w, start.budget);
    left := StillSkips(c, e.0, 0, m, h, w, body.budget);
    SameJoin(w, e.0 - i, m - e.0);
  }

  lemma StillPart(c: Call, i: nat, m: nat, j: nat, k: nat)
    requires Still(c, i, m) && i <= j <= k <= m
    ensures Still(c, j, k)
  {
  }

  lemma SameJoin(w: Place, a: nat, b: nat)
    ensures Same(w, a) + Same(w, b) == Same(w, a + b)
    ensures forall rest: seq<Place> :: Same(w, a) + (Same(w, b) + rest) == Same(w, a + b) + rest
  {
  }

  /** A whole stretch where nothing moves: every label and the place behind it are the place before. */
  lemma {:induction false} StillBody(c: Call, i: nat, p: nat, h: nat, w: Place, budget: int)
    requires Known(c) && Bounded(c.parsed, i, p, h) && Still(c, i, h) && i < h
    requires Analyse(c, i, p, h, w, budget).budget >= 0
    ensures Analyse(c, i, p, h, w, budget).place == w
    ensures Analyse(c, i, p, h, w, budget).labels == Same(w, h - i)
    decreases Size(c) - i, if p < |Opens(c, i)| then |Opens(c, i)| - p else 0, 2
  {
    var left := StillSkips(c, i, p, h, h, w, budget);
  }

  // ---- scopes that end where they began ----------------------------------------------------------

  /** What is analysed first: a loop is tried once. */
  function Trying(c: Call, i: nat, e: Entry, budget: int): int {
    if IsLoop(c, e.1) then budget - (e.0 - i) else budget
  }

  /**
    A range that may be left out, or a loop, whose commands end in the directory and with the
    stack they began with: what follows is analysed from there.  Only the directory before may
    be forgotten.
   */
  lemma BalancedStays(c: Call, i: nat, p: nat, h: nat, w: Place, budget: int) returns (behind: Place, left: int)
    requires Known(c) && Bounded(c.parsed, i, p, h) && i < h && p < |Opens(c, i)|
    requires Opens(c, i)[p].1 in c.parsed.guards && Opens(c, i)[p].0 <= Size(c)
    requires var e := Opens(c, i)[p];
             (IsLoop(c, e.1) ==> NoGoingBack(c, i, e.0)) &&
             Twins(Analyse(c, i, p + 1, e.0, w, Trying(c, i, e, budget)).place, w)
    requires Analyse(c, i, p, h, w, budget).budget >= 0
    ensures Twins(behind, w) && (behind.previous.None? || behind.previous == w.previous)
    ensures var e, all := Opens(c, i)[p], Analyse(c, i, p, h, w, budget);
            var rest := Analyse(c, e.0, 0, h, behind, left);
            i < e.0 <= h && |all.labels| >= e.0 - i &&
            all.place == rest.place && all.budget == rest.budget && all.labels[e.0 - i..] == rest.labels
  {
    hide Opening, Follow;
    ScopeBudgets(c, i, p, h, w, budget);
    InnerBounded(c.parsed, i, p, h);
    var e := Opens(c, i)[p];
    var start := Analysis.Enter(c, i, p, w, budget);
    if IsLoop(c, e.1) {
      PreviousIsIdle(c, i, p + 1, e.0, w, start.place, start.budget);
      EnoughIsEnough(c, i, p + 1, e.0, w, budget - (e.0 - i), start.budget);
    }
    var body := Analyse(c, i, p + 1, e.0, start.place, start.budget);
    LabelCount(c, i, p + 1, e.0, start.place, start.budget);
    behind, left := Leave(c, e.1, w, start.wild, body.place), body.budget;
  }

  /** `pushd d; ...; popd`, with nothing in between that moves. */
  predicate PushedAndPopped(c: Call, i: nat, m: nat) {
    i + 2 <= m <= Size(c) && c.parsed.commands[m - 1] == Move(Popd, [], false) &&
    (c.parsed.commands[i].Move? && c.parsed.commands[i].verb.Pushd? && !c.parsed.commands[i].piped) &&
    (|c.parsed.commands[i].words| == 1 && c.parsed.commands[i].words[0].Path?) &&
    Still(c, i + 1, m - 1) && Bounded(c.parsed, i + 1, 0, m - 1) && Opens(c, m - 1) == []
  }

  lemma Pushed(word: Word, w: Place, home: Option<Dir>)
    requires word.Path?
    ensures Moved(Pushd, [word], w, home).stack == w.stack + [w.current]
    ensures Moved(Pushd, [word], w, home).previous == w.current
  {
    ClearPush(word);
  }

  lemma PoppedBack(w: Place, top: Option<Dir>, stack: seq<Option<Dir>>, home: Option<Dir>)
    requires w.stack == stack + [top]
    ensures Moved(Popd, [], w, home).current == top && Moved(Popd, [], w, home).stack == stack
  {
    assert Targets([]) == Some([]) && Init(w.stack) == stack;
  }

  /** Such a stretch ends in the directory and with the stack it began with, whatever is known of `d`. */
  lemma PushedAndPoppedStays(c: Call, i: nat, p: nat, m: nat, w: Place, budget: int)
    requires Known(c) && Bounded(c.parsed, i, p, m) && p >= |Opens(c, i)| && PushedAndPopped(c, i, m)
    requires Analyse(c, i, p, m, w, budget).budget >= 0
    ensures Twins(Analyse(c, i, p, m, w, budget).place, w)
  {
    hide Opening, Follow;
    NextBounded(c.parsed, i, p, m);
    var word := c.parsed.commands[i].words[0];
    assert c.parsed.commands[i].words == [word];
    Pushed(word, w, c.home);
    var pushed := Step(c.parsed.commands[i], w, c.home);
    var left := StillSkips(c, i + 1, 0, m - 1, m, pushed, budget);
    PoppedBack(pushed, w.current, w.stack, c.home);
    var back := Step(c.parsed.commands[m - 1], pushed, c.home);
    assert Analyse(c, m, 0, m, back, left) == Outcome(back, left, []);
    assert Analyse(c, m - 1, 0, m, pushed, left).place == back;
  }

  /** So the command behind a range that may be left out, or a loop, is labelled with the directory before it. */
  lemma LabelBehindIsKept(c: Call, i: nat, p: nat, h: nat, w: Place, budget: int)
    requires Known(c) && Bounded(c.parsed, i, p, h) && i < h && p + 1 == |Opens(c, i)|
    requires var e := Opens(c, i)[p];
             e.1 in c.parsed.guards && e.0 < h && PushedAndPopped(c, i, e.0) && Opens(c, e.0) == []
    requires Analyse(c, i, p, h, w, budget).budget >= 0
    ensures var e, all := Opens(c, i)[p], Analyse(c, i, p, h, w, budget);
            |all.labels| > e.0 - i && all.labels[e.0 - i].current == w.current
  {
    hide Opening, Follow;
    ScopeBudgets(c, i, p, h, w, budget);
    InnerBounded(c.parsed, i, p, h);
    var e := Opens(c, i)[p];
    var body := Analysis.Enter(c, i, p, w, budget);
    PushedAndPoppedStays(c, i, p + 1, e.0, w, Trying(c, i, e, budget));
    forall k | i <= k < e.0 && k < Size(c) ensures !GoesBack(c.parsed.commands[k]) { NoneGoBack(c, i, e.0, k); }
    var behind, left := BalancedStays(c, i, p, h, w, budget);
    LabelCount(c, i, p, h, w, budget);
    assert Analyse(c, e.0, 0, h, behind, left).labels[0] == behind;
  }

  lemma NoneGoBack(c: Call, i: nat, m: nat, k: nat)
    requires PushedAndPopped(c, i, m) && i <= k < m
    ensures !GoesBack(c.parsed.commands[k])
  {
    if k == i {
      var word := c.parsed.commands[i].words[0];
      assert c.parsed.commands[i].words == [word];
      ClearPush(word);
    }
  }
}
