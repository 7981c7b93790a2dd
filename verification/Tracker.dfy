/**
  `_Tracker` and the walk of `shell_facts` over the commands of one call
  (ember_armor/ledger/shellpaths.py): one pass over a flat list, with a list `left` of the
  scopes that are open.  It computes the recursive analysis of `Analysis`.
 */
module Tracker {
  import opened Prelude
  import opened Paths
  import opened Moves
  import opened Scopes
  import opened Analysis
  import opened Soundness

  // ---- the list of open scopes, as a value ---------------------------------------

  /** An open scope: where it ends, its number, where the shell was when it began, and
      whether it is a loop that does not end where it began. */
  datatype Frame = Frame(high: nat, number: nat, before: Place, wild: bool)

  predicate Fits(c: Call, left: seq<Frame>, h: nat) {
    h <= Size(c) && forall k :: 0 <= k < |left| ==> left[k].high <= Size(c)
  }

  /** What the analysis has still to do at `i` behind the first `p` scopes there, with the
      scopes of `left` open, up to `h`. */
  function Resume(c: Call, left: seq<Frame>, i: nat, p: nat, h: nat, w: Place, budget: int): Outcome
    requires Known(c) && Fits(c, left, h)
    decreases left
  {
    if left == [] then Analyse(c, i, p, h, w, budget)
    else
      var f := Last(left);
      var body := Analyse(c, i, p, f.high, w, budget);
      var rest := Resume(c, Init(left), f.high, 0, h, Leave(c, f.number, f.before, f.wild, body.place), body.budget);
      Outcome(rest.place, rest.budget, body.labels + rest.labels)
  }

  predicate Stacked(c: Call, left: seq<Frame>, i: nat, p: nat, h: nat)
    decreases left
  {
    if left == [] then Bounded(c.parsed, i, p, h)
    else Bounded(c.parsed, i, p, Last(left).high) && Stacked(c, Init(left), Last(left).high, 0, h)
  }

  /** Up to where the innermost open scope reaches. */
  function Reach(left: seq<Frame>, h: nat): nat { if left == [] then h else Last(left).high }

  lemma {:induction false} StackedHighs(c: Call, left: seq<Frame>, i: nat, p: nat, h: nat)
    requires Stacked(c, left, i, p, h)
    ensures Fits(c, left, h)
    ensures i <= Reach(left, h) <= h
    decreases left
  {
    if left != [] {
      StackedHighs(c, Init(left), Last(left).high, 0, h);
      forall k | 0 <= k < |left| ensures left[k].high <= Size(c) {
        if k < |left| - 1 { assert left[k] == Init(left)[k]; }
      }
    }
  }

  lemma ResumePop(c: Call, left: seq<Frame>, i: nat, h: nat, w: Place, budget: int)
    requires Known(c) && left != [] && Stacked(c, left, i, 0, h) && Last(left).high <= i
    ensures Stacked(c, Init(left), i, 0, h)
    ensures Fits(c, left, h) && Fits(c, Init(left), h)
    ensures var f := Last(left);
            Resume(c, left, i, 0, h, w, budget)
            == Resume(c, Init(left), i, 0, h, Leave(c, f.number, f.before, f.wild, w), budget)
  {
    StackedHighs(c, left, i, 0, h);
    StackedHighs(c, Init(left), i, 0, h);
    var f := Last(left);
    assert Analyse(c, i, 0, f.high, w, budget) == Outcome(w, budget, []);
    var rest := Resume(c, Init(left), i, 0, h, Leave(c, f.number, f.before, f.wild, w), budget);
    assert [] + rest.labels == rest.labels;
  }

  lemma EnterStacks(c: Call, left: seq<Frame>, i: nat, p: nat, h: nat, f: Frame)
    requires Known(c) && Stacked(c, left, i, p, h) && i < Reach(left, h) && p < |Opens(c, i)|
    requires f.high == Opens(c, i)[p].0
    ensures i < Reach(left, h) <= Size(c) && f.high <= Size(c)
    ensures Stacked(c, left + [f], i, p + 1, h) && Fits(c, left, h) && Fits(c, left + [f], h)
  {
    hide Opening, Bounded;
    StackedHighs(c, left, i, p, h);
    InnerBounded(c.parsed, i, p, Reach(left, h));
    assert Init(left + [f]) == left;
    assert Stacked(c, left, f.high, 0, h);
    StackedHighs(c, left + [f], i, p + 1, h);
  }

  /** The analysis of a stretch that begins with a scope. */
  lemma AnalyseInto(c: Call, i: nat, p: nat, h: nat, w: Place, budget: int)
    requires Known(c) && i < h <= Size(c) && p < |Opens(c, i)|
    ensures var e := Opens(c, i)[p];
            var start := Enter(c, i, p, w, budget);
            e.0 <= Size(c) &&
            var body := Analyse(c, i, p + 1, e.0, start.place, start.budget);
            var rest := Analyse(c, e.0, 0, h, Leave(c, e.1, w, start.wild, body.place), body.budget);
            Analyse(c, i, p, h, w, budget) == Outcome(rest.place, rest.budget, body.labels + rest.labels)
  {
    hide Enter, Leave, Opening;
    EntryFacts(c.parsed, i, p);
  }

  lemma ResumeEnter(c: Call, left: seq<Frame>, i: nat, p: nat, h: nat, w: Place, budget: int, f: Frame)
    requires Known(c) && Stacked(c, left, i, p, h) && i < Reach(left, h) && p < |Opens(c, i)|
    requires f.high == Opens(c, i)[p].0 && f.number == Opens(c, i)[p].1
    requires f.wild == Enter(c, i, p, w, budget).wild && (IsKept(c, f.number) || f.before == w)
    ensures Stacked(c, left + [f], i, p + 1, h)
    ensures Fits(c, left, h) && Fits(c, left + [f], h)
    ensures var start := Enter(c, i, p, w, budget);
            Resume(c, left, i, p, h, w, budget) == Resume(c, left + [f], i, p + 1, h, start.place, start.budget)
  {
    hide Opening, Bounded, Stacked, Analyse, Enter;
    EnterStacks(c, left, i, p, h, f);
    AnalyseInto(c, i, p, Reach(left, h), w, budget);
    assert Init(left + [f]) == left && Last(left + [f]) == f;
    var start := Enter(c, i, p, w, budget);
    var body := Analyse(c, i, p + 1, f.high, start.place, start.budget);
    var out := Leave(c, f.number, w, f.wild, body.place);
    assert out == Leave(c, f.number, f.before, f.wild, body.place);
    if left != [] {
      var g := Last(left);
      var middle := Analyse(c, f.high, 0, g.high, out, body.budget);
      var rest := Resume(c, Init(left), g.high, 0, h, Leave(c, g.number, g.before, g.wild, middle.place),
        middle.budget);
      assert body.labels + middle.labels + rest.labels == body.labels + (middle.labels + rest.labels);
    }
  }

  lemma ResumeStep(c: Call, left: seq<Frame>, i: nat, p: nat, h: nat, w: Place, budget: int)
    requires Known(c) && Stacked(c, left, i, p, h) && i < Reach(left, h) && p >= |Opens(c, i)|
    ensures i < Size(c) && Stacked(c, left, i + 1, 0, h)
    ensures Fits(c, left, h)
    ensures var rest := Resume(c, left, i + 1, 0, h, Step(c.parsed.commands[i], w, c.home), budget);
            Resume(c, left, i, p, h, w, budget) == Outcome(rest.place, rest.budget, [w] + rest.labels)
  {
    StackedHighs(c, left, i, p, h);
    NextBounded(c.parsed, i, p, Reach(left, h));
    StackedHighs(c, left, i + 1, 0, h);
    var next := Step(c.parsed.commands[i], w, c.home);
    if left != [] {
      var g := Last(left);
      var middle := Analyse(c, i + 1, 0, g.high, next, budget);
      var rest := Resume(c, Init(left), g.high, 0, h, Leave(c, g.number, g.before, g.wild, middle.place),
        middle.budget);
      assert [w] + middle.labels + rest.labels == [w] + (middle.labels + rest.labels);
    }
  }

  // ---- the walk --------------------------------------------------------------------

  /** An entry of `left`.  `before` is null for a scope whose moves stay (`eval`). */
  datatype OpenScope = OpenScope(high: nat, number: nat, before: Where?, wild: bool)

  function Objects(left: seq<OpenScope>): set<object> {
    set k | 0 <= k < |left| && left[k].before != null :: left[k].before
  }

  ghost function Value(o: OpenScope): Frame
    reads if o.before == null then {} else {o.before}
  {
    Frame(o.high, o.number, if o.before == null then Place(None, None, []) else o.before.Value(), o.wild)
  }

  ghost function Values(left: seq<OpenScope>): seq<Frame>
    reads Objects(left)
  {
    seq(|left|, k requires 0 <= k < |left| reads Objects(left) => Value(left[k]))
  }

  /** No two of the places of a walk are the same object. */
  ghost predicate Apart(where: Where, left: seq<OpenScope>) {
    (forall k :: 0 <= k < |left| ==> left[k].before != where) &&
    (forall j, k :: 0 <= j < k < |left| && left[j].before != null ==> left[j].before != left[k].before)
  }

  function Positive(n: int): nat { if n < 0 then 0 else n }

  class Tracker {
    const call: Call
    var opening: map<nat, seq<Entry>>
    var budget: int
    ghost var tried: nat  // commands stepped over inside trial passes so far

    ghost predicate Valid()
      reads this`opening
    {
      Known(call) &&
      (forall i: nat :: i in opening ==> opening[i] == Opens(call, i)) &&
      (forall i: nat :: i !in opening ==> Opens(call, i) == [])
    }

    /** What trial passes have cost, and can still cost. */
    ghost function Cost(): int reads this { tried + Positive(budget) }

    constructor (c: Call, steps: nat)
      requires Known(c)
      ensures Valid() && call == c && budget == steps && tried == 0
    {
      call := c;
      budget := steps;
      tried := 0;
      new;
      var scopes := c.parsed.scopes;
      var found: map<nat, seq<Entry>> := map[];
      for number := 0 to |scopes|
        invariant forall i: nat :: (if i in found then found[i] else []) == Listed(scopes, i, number)
      {
        var (low, high) := scopes[number];
        if high > low {
          found := found[low := (if low in found then found[low] else []) + [(high, number)]];
        }
      }
      opening := map low | low in found :: Sort(found[low]);
      assert Sort([]) == [];
    }

    method At(index: nat) returns (found: seq<Entry>)
      requires Valid()
      ensures found == Opens(call, index)
    {
      found := if index in opening then opening[index] else [];
    }

    method Leave(where: Where, scope: OpenScope) returns (after: Where)
      requires Valid() && scope.before != where
      requires scope.before == null ==> IsKept(call, scope.number)
      modifies where
      ensures after == where || after == scope.before
      ensures after == scope.before ==> unchanged(where)
      ensures after.Value() ==
              Analysis.Leave(call, scope.number, old(Value(scope)).before, scope.wild, old(where.Value()))
    {
      if scope.before == null { return where; }
      if scope.number !in call.parsed.guards {
        if scope.number in call.parsed.kept { return where; }
        return scope.before;
      }
      var differs := where.DiffersFrom(scope.before);
      if scope.wild || differs {
        where.Lose();
      } else if where.previous != scope.before.previous {
        where.previous := None;
      }
      after := where;
    }

    /** `self._leave(where, left.pop())` */
    method Close(where: Where, left: seq<OpenScope>) returns (after: Where, left': seq<OpenScope>)
      requires Valid() && left != [] && Sound(where, left)
      modifies where
      ensures left' == Init(left) && Sound(after, left') && Values(left') == Init(old(Values(left)))
      ensures after in {where} + Objects(left) && Objects(left') <= Objects(left)
      ensures var f := Last(old(Values(left)));
              after.Value() == Analysis.Leave(call, f.number, f.before, f.wild, old(where.Value()))
    {
      left' := Init(left);
      assert Last(Values(left)) == Value(Last(left));
      assert forall k :: 0 <= k < |left'| ==> left'[k].before != Last(left).before || Last(left).before == null;
      after := Leave(where, Last(left));
      forall k | 0 <= k < |left'| ensures Value(left'[k]) == old(Value(left[k])) {
      }
    }

    ghost predicate Sound(where: Where, left: seq<OpenScope>)
    {
      Apart(where, left) &&
      forall k :: 0 <= k < |left| && left[k].before == null ==> IsKept(call, left[k].number)
    }

    /** The part of `_enter` that looks at the scope: where its commands begin. */
    method Begin(low: nat, position: nat, high: nat, number: nat, where: Where) returns (before: Where?, wild: bool)
      requires Valid() && position < |Opens(call, low)| && Opens(call, low)[position] == (high, number)
      requires low < high <= Size(call) && Bounded(call.parsed, low, position + 1, high)
      modifies where, this`budget, this`tried
      ensures Valid() && budget <= old(budget) && Cost() <= old(Cost())
      ensures Started(where.Value(), wild, budget) ==
              Analysis.Enter(call, low, position, old(where.Value()), old(budget))
      ensures before == null <==> IsKept(call, number)
      ensures before != null ==> fresh(before) && before.Value() == old(where.Value())
      decreases Size(call) - low, |Opens(call, low)| - position, 0
    {
      hide Analyse, Bounded, Opens;
      before := where.Copy();
      wild := false;
      if number in call.parsed.guards {
        if call.parsed.guards[number] == Loop {
          var end := Trial(low, position + 1, high, where);
          if end == null {
            wild := true;
          } else {
            wild := end.DiffersFrom(where);
          }
          if wild {
            where.Lose();
          } else if end.previous != where.previous {
            where.previous := None;
          }
        }
      } else {
        if number in call.parsed.kept {
          before := null;
        }
        if number in call.parsed.entered {
          where.current := FollowChain(call.parsed.entered[number], where.current);
        }
      }
    }

    method Enter(low: nat, position: nat, high: nat, number: nat, where: Where, left: seq<OpenScope>)
        returns (left': seq<OpenScope>)
      requires Valid() && position < |Opens(call, low)| && Opens(call, low)[position] == (high, number)
      requires low < high <= Size(call) && Bounded(call.parsed, low, position + 1, high) && Sound(where, left)
      modifies where, this`budget, this`tried
      ensures Valid() && budget <= old(budget) && Cost() <= old(Cost())
      ensures var start := Analysis.Enter(call, low, position, old(where.Value()), old(budget));
              where.Value() == start.place && budget == start.budget && |left'| == |left| + 1 &&
              Value(Last(left')).wild == start.wild
      ensures left' == left + [Last(left')] && Sound(where, left') && fresh(Objects(left') - Objects(left))
      ensures Values(left') == old(Values(left)) + [Value(Last(left'))]
      ensures var f := Value(Last(left'));
              f.high == high && f.number == number && (IsKept(call, number) || f.before == old(where.Value()))
      decreases Size(call) - low, |Opens(call, low)| - position, 1
    {
      hide Analyse, Bounded, Opens, Opening, Known, Analysis.Enter;
      var before, wild := Begin(low, position, high, number, where);
      left' := left + [OpenScope(high, number, before, wild)];
      assert Values(left) == old(Values(left));
      assert Values(left') == Values(left) + [Value(Last(left'))];
    }

    /** The walk is at `i` behind the first `p` scopes there, and going on from here gives `goal`. */
    ghost predicate Pending(where: Where, left: seq<OpenScope>, i: nat, p: nat, h: nat, goal: Outcome)
      reads this`opening, this`budget, where, Objects(left)
    {
      Valid() && Sound(where, left) && Fits(call, Values(left), h) && Stacked(call, Values(left), i, p, h) &&
      Resume(call, Values(left), i, p, h, where.Value(), budget) == goal
    }

    ghost predicate Further(left: seq<OpenScope>, i: nat, h: nat)
      reads Objects(left)
    {
      i < Reach(Values(left), h)
    }

    /** Close the innermost scope, which ends at `i`. */
    method CloseAt(i: nat, where: Where, left: seq<OpenScope>, ghost h: nat, ghost goal: Outcome)
        returns (after: Where, left': seq<OpenScope>)
      requires Pending(where, left, i, 0, h, goal) && left != [] && Last(left).high <= i
      modifies where
      ensures Pending(after, left', i, 0, h, goal) && left' == Init(left)
      ensures after in {where} + Objects(left) && Objects(left') <= Objects(left)
    {
      ResumePop(call, Values(left), i, h, where.Value(), budget);
      after, left' := Close(where, left);
    }

    /** Enter the scope at position `p` of those that open at `i`. */
    method EnterAt(i: nat, p: nat, entry: Entry, where: Where, left: seq<OpenScope>, ghost h: nat, ghost goal: Outcome)
        returns (left': seq<OpenScope>)
      requires Pending(where, left, i, p, h, goal) && Further(left, i, h)
      requires p < |Opens(call, i)| && entry == Opens(call, i)[p]
      modifies where, this`budget, this`tried
      ensures Pending(where, left', i, p + 1, h, goal) && Further(left', i, h)
      ensures budget <= old(budget) && Cost() <= old(Cost()) && fresh(Objects(left') - Objects(left))
      decreases Size(call) - i, |Opens(call, i)| - p, 2
    {
      ghost var before, w, b := Values(left), where.Value(), budget;
      Nest(before, i, p, h);
      EntryFacts(call.parsed, i, p);
      left' := Enter(i, p, entry.0, entry.1, where, left);
      ResumeEnter(call, before, i, p, h, w, b, Value(Last(left')));
    }

    /** Enter the scopes that open at `index`, from `position` on. */
    method EnterAll(index: nat, position: nat, where: Where, left: seq<OpenScope>, ghost h: nat, ghost goal: Outcome)
        returns (left': seq<OpenScope>)
      requires Pending(where, left, index, position, h, goal) && Further(left, index, h)
      requires position <= |Opens(call, index)|
      modifies where, this`budget, this`tried
      ensures Pending(where, left', index, |Opens(call, index)|, h, goal) && Further(left', index, h)
      ensures budget <= old(budget) && Cost() <= old(Cost()) && fresh(Objects(left') - Objects(left))
      decreases Size(call) - index, |Opens(call, index)| - position, 3
    {
      hide Resume, Stacked, Analyse, Follow, Moved, Opening, Bounded, Pending;
      left' := left;
      assert Valid() by { Valided(where, left, index, position, h, goal); }
      var found := At(index);
      for at := position to |found|
        invariant Pending(where, left', index, at, h, goal) && Further(left', index, h)
        invariant budget <= old(budget) && Cost() <= old(Cost()) && fresh(Objects(left') - Objects(left))
      {
        left' := EnterAt(index, at, found[at], where, left', h, goal);
      }
    }

    lemma Valided(where: Where, left: seq<OpenScope>, i: nat, p: nat, h: nat, goal: Outcome)
      requires Pending(where, left, i, p, h, goal)
      ensures Valid()
    {
    }

    lemma Nest(before: seq<Frame>, index: nat, position: nat, h: nat)
      requires Valid() && position < |Opens(call, index)|
      requires Stacked(call, before, index, position, h) && index < Reach(before, h)
      ensures var e := Opens(call, index)[position];
              index < e.0 <= Size(call) && Bounded(call.parsed, index, position + 1, e.0)
    {
      StackedHighs(call, before, index, position, h);
      InnerBounded(call.parsed, index, position, Reach(before, h));
    }

    lemma Fresh(where: Where, i: nat, p: nat, h: nat)
      requires Valid() && Bounded(call.parsed, i, p, h)
      ensures Pending(where, [], i, p, h, Analyse(call, i, p, h, where.Value(), budget))
      ensures i < h ==> Further([], i, h)
    {
    }

    lemma Finished(where: Where, i: nat, goal: Outcome)
      requires Pending(where, [], i, 0, i, goal)
      ensures goal == Outcome(where.Value(), budget, [])
    {
    }

    lemma Closing(where: Where, left: seq<OpenScope>, i: nat, goal: Outcome)
      requires Pending(where, left, i, 0, i, goal) && left != []
      ensures Last(left).high <= i
    {
      StackedHighs(call, Values(left), i, 0, i);
    }

    lemma AtEnd(where: Where, left: seq<OpenScope>, i: nat, goal: Outcome)
      requires Pending(where, left, i, 0, i, goal)
      ensures goal.labels == [] && goal.budget == budget
    {
      ResumeEnds(call, Values(left), i, where.Value(), budget);
    }

    lemma Above(where: Where, left: seq<OpenScope>, i: nat, h: nat, goal: Outcome)
      requires Pending(where, left, i, 0, h, goal) && i < h
      requires left != [] ==> Last(left).high > i
      ensures Valid() && Further(left, i, h)
    {
    }

    /** Where the shell is when the command at `index` starts. */
    method Arrive(index: nat, where: Where, left: seq<OpenScope>, ghost h: nat, ghost goal: Outcome)
        returns (after: Where, left': seq<OpenScope>)
      requires Pending(where, left, index, 0, h, goal) && index < h
      modifies where, Objects(left), this`budget, this`tried
      ensures Pending(after, left', index, |Opens(call, index)|, h, goal) && Further(left', index, h)
      ensures budget <= old(budget) && Cost() <= old(Cost())
      ensures after in {where} + Objects(left) && fresh(Objects(left') - Objects(left))
      decreases Size(call) - index, |Opens(call, index)| + 1, 4
    {
      hide Resume, Stacked, Analyse, Follow, Moved, Opening, Bounded, Pending;
      after, left' := where, left;
      while left' != [] && Last(left').high <= index
        invariant Pending(after, left', index, 0, h, goal) && unchanged(this)
        invariant after in {where} + Objects(left) && Objects(left') <= Objects(left)
        decreases |left'|
      {
        after, left' := CloseAt(index, after, left', h, goal);
      }
      Above(after, left', index, h, goal);
      left' := EnterAll(index, 0, after, left', h, goal);
    }

    /** Let the command at `index` move the shell; the rest of the walk is what follows. */
    method StepAt(index: nat, where: Where, left: seq<OpenScope>, ghost h: nat, ghost goal: Outcome)
        returns (ghost rest: Outcome)
      requires Pending(where, left, index, |Opens(call, index)|, h, goal) && Further(left, index, h)
      modifies where
      ensures Pending(where, left, index + 1, 0, h, rest)
      ensures goal == Outcome(rest.place, rest.budget, [old(where.Value())] + rest.labels)
    {
      ResumeStep(call, Values(left), index, |Opens(call, index)|, h, where.Value(), budget);
      ghost var frames := Values(left);
      where.StepOver(call.parsed.commands[index], call.home);
      assert Values(left) == frames;
      rest := Resume(call, frames, index + 1, 0, h, where.Value(), budget);
    }

    /** The commands of a trial pass, once the scopes that open with the loop are entered. */
    method Pass(low: nat, high: nat, where: Where, left: seq<OpenScope>, ghost goal: Outcome)
        returns (here: Where, left': seq<OpenScope>, ghost rest: Outcome)
      requires low < high <= Size(call)
      requires Pending(where, left, low, |Opens(call, low)|, high, goal) && Further(left, low, high)
      modifies where, Objects(left), this`budget, this`tried
      ensures Pending(here, left', high, 0, high, rest) && SamePlace(goal, rest)
      ensures here in {where} + Objects(left) || fresh(here)
      ensures fresh(Objects(left') - Objects(left))
      ensures budget <= old(budget) && Cost() <= old(Cost()) + (high - low)
      decreases Size(call) - low, 0, 0
    {
      hide Pending, Further, Resume, Stacked, Analyse, Follow, Moved, Opening, Bounded;
      here, left', rest := where, left, goal;
      for index := low to high
        invariant if index == low then Pending(here, left', low, |Opens(call, low)|, high, rest) &&
                  Further(left', low, high)
                  else Pending(here, left', index, 0, high, rest)
        invariant SamePlace(goal, rest) && (here in {where} + Objects(left) || fresh(here))
        invariant fresh(Objects(left') - Objects(left))
        invariant budget <= old(budget) && Cost() <= old(Cost()) + (index - low)
      {
        if index > low {
          here, left' := Arrive(index, here, left', high, rest);
        }
        rest := StepAt(index, here, left', high, rest);
        tried := tried + 1;
      }
    }

    /** The end of a trial pass: every scope still open closes. */
    method CloseAll(high: nat, where: Where, left: seq<OpenScope>, ghost goal: Outcome) returns (end: Where)
      requires Pending(where, left, high, 0, high, goal)
      modifies where, Objects(left)
      ensures end in {where} + Objects(left)
      ensures SamePlace(goal, Outcome(end.Value(), budget, []))
    {
      hide Pending, Further, Resume, Stacked, Analyse, Follow, Moved, Opening, Bounded;
      var left' := left;
      end := where;
      while left' != []
        invariant Pending(end, left', high, 0, high, goal)
        invariant end in {where} + Objects(left) && Objects(left') <= Objects(left)
        decreases |left'|
      {
        Closing(end, left', high, goal);
        end, left' := CloseAt(high, end, left', high, goal);
      }
      Finished(end, high, goal);
    }

    /** Where one pass over a loop ends; null when that costs too much. */
    method Trial(low: nat, position: nat, high: nat, where: Where) returns (end: Where?)
      requires Valid() && low < high && Bounded(call.parsed, low, position, high) && position <= |Opens(call, low)|
      modifies this`budget, this`tried
      ensures Valid() && budget <= old(budget) && Cost() <= old(Cost())
      ensures end == null <==> old(budget) < high - low
      ensures end == null ==> budget == old(budget) - (high - low) && tried == old(tried)
      ensures end != null ==>
                var pass := Analyse(call, low, position, high, where.Value(), old(budget) - (high - low));
                fresh(end) && end.Value() == pass.place && budget == pass.budget
      decreases Size(call) - low, |Opens(call, low)| - position, 4
    {
      hide Pending, Further, Resume, Stacked, Analyse, Follow, Moved, Opening, Bounded, Opens, Known;
      BoundedSize(call.parsed, low, position, high);
      budget := budget - (high - low);
      if budget < 0 { return null; }
      var here := where.Copy();
      var left: seq<OpenScope> := [];
      ghost var goal := Analyse(call, low, position, high, where.Value(), budget);
      Fresh(here, low, position, high);
      left := EnterAll(low, position, here, left, high, goal);
      here, left, goal := Pass(low, high, here, left, goal);
      end := CloseAll(high, here, left, goal);
    }

    /**
      The directory each command runs in, as `shell_facts` labels it: the label of the
      recursive analysis.  Passes over loops never step over more commands than the budget.
     */
    method Directories(known: Option<Dir>) returns (directories: seq<Option<Dir>>)
      requires Valid() && budget >= 0 && tried == 0
      modifies this`budget, this`tried
      ensures directories == Labelled(call, Whole(call, known, old(budget)).labels)
      ensures |directories| == Size(call) && budget == Whole(call, known, old(budget)).budget
      ensures tried <= old(budget)
    {
      hide Pending, Further, Resume, Stacked, Analyse, Follow, Moved, Opening, Bounded, Opens, Labelled, RunsIn;
      directories := [];
      var commands := call.parsed.commands;
      var where := new Where(Beginning(known));
      var left: seq<OpenScope> := [];
      ghost var goal := Whole(call, known, budget);
      ghost var whole, labels := goal, [];
      WholeBounded(call.parsed);
      Fresh(where, 0, 0, |commands|);
      LabelCount(call, 0, 0, |commands|, Beginning(known), budget);
      NothingLabelled(call);
      for index := 0 to |commands|
        invariant Pending(where, left, index, 0, |commands|, goal) && fresh(where) && fresh(Objects(left))
        invariant whole == Outcome(goal.place, goal.budget, labels + goal.labels) && |labels| == index
        invariant directories == Labelled(call, labels) && |directories| == index && Cost() <= old(Cost())
      {
        where, left := Arrive(index, where, left, |commands|, goal);
        var directory := RunsIn(commands[index], where.current);
        directories := directories + [directory];
        ghost var w := where.Value();
        goal := StepAt(index, where, left, |commands|, goal);
        LabelledMore(call, labels, w);
        labels := labels + [w];
      }
      AtEnd(where, left, |commands|, goal);
      assert labels == whole.labels;
    }
  }

  function Labelled(c: Call, labels: seq<Place>): seq<Option<Dir>> {
    seq(|labels|, k requires 0 <= k < |labels| =>
      if k < Size(c) then RunsIn(c.parsed.commands[k], labels[k].current) else None)
  }

  lemma NothingLabelled(c: Call) ensures Labelled(c, []) == [] {}

  lemma LabelledMore(c: Call, labels: seq<Place>, w: Place)
    requires |labels| < Size(c)
    ensures Labelled(c, labels + [w]) == Labelled(c, labels) + [RunsIn(c.parsed.commands[|labels|], w.current)]
    ensures |Labelled(c, labels + [w])| == |labels| + 1
  {
    hide RunsIn;
  }

  /** At the end of the call nothing is left to do but close what is open. */
  lemma {:induction false} ResumeEnds(c: Call, left: seq<Frame>, i: nat, w: Place, budget: int)
    requires Known(c) && Stacked(c, left, i, 0, i) && Fits(c, left, i)
    ensures Resume(c, left, i, 0, i, w, budget).labels == [] && Resume(c, left, i, 0, i, w, budget).budget == budget
    decreases left
  {
    if left != [] {
      StackedHighs(c, left, i, 0, i);
      ResumePop(c, left, i, i, w, budget);
      var f := Last(left);
      ResumeEnds(c, Init(left), i, Leave(c, f.number, f.before, f.wild, w), budget);
    }
  }

  predicate SamePlace(a: Outcome, b: Outcome) { a.place == b.place && a.budget == b.budget }
}
