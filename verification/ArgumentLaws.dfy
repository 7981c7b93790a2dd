/**
  Laws of the predicates on arguments (`_arg_holds` and `_expr_holds` in
  ember_armor/ledger/engine.py): how the comparisons belong together, and when two ways to write
  a condition come to the same.
 */
module ArgumentLaws {
  import opened Prelude
  import opened Arguments

  function Converse(op: Op): Op {
    match op
    case Less => AtLeast
    case AtMost => More
    case More => AtMost
    case AtLeast => Less
    case Equal => Unequal
    case Unequal => Equal
  }

  /** The same comparison read from the right. */
  function Mirrored(op: Op): Op {
    match op
    case Less => More
    case AtMost => AtLeast
    case More => Less
    case AtLeast => AtMost
    case _ => op
  }

  /** An order: exactly one of three holds, and it is that of the numbers. */
  lemma OrderedLaws(x: real, op: Op, y: real, d: real)
    ensures Ordered(x, op, y) <==> !Ordered(x, Converse(op), y)
    ensures Ordered(x, op, y) <==> Ordered(y, Mirrored(op), x)
    ensures Ordered(x, AtMost, y) <==> Ordered(x, Less, y) || Ordered(x, Equal, y)
    ensures Ordered(x, Equal, y) <==> x == y
    ensures Ordered(x, Less, x + d) <==> d > 0.0
  {
  }

  /** With a number on both sides a comparison holds or its converse does; without the argument neither. */
  lemma ComparedOrNot(a: Arguments, name: string, op: Op, bound: real)
    ensures Argument(a, name).Some? ==>
              (ArgHolds(a, Against(name, op, Num(bound))) <==> !ArgHolds(a, Against(name, Converse(op), Num(bound))))
    ensures Argument(a, name).None? && (op.Less? || op.AtMost? || op.More? || op.AtLeast?) ==>
              !ArgHolds(a, Against(name, op, Num(bound)))
    ensures a.at(name).None? ==> !ArgHolds(a, Against(name, op, Num(bound)))
  {
  }

  /** The condition on one number is a sum with one addend. */
  lemma OneAddend(a: Arguments, name: string, op: Op, bound: real)
    requires Argument(a, name).Some?
    ensures ArgHolds(a, Against(name, op, Num(bound))) <==> SumHolds(a, SumPred([Addend(1.0, name)], op, bound))
  {
    var addends := [Addend(1.0, name)];
    assert Init(addends) == [];
    assert Total(addends, Numbers(a)) == Argument(a, name).value;
  }

  /** A text that spells a number compares as that number. */
  lemma SpelledNumbersCompare(a: Arguments, name: string, text: string, number: real, op: Op, bound: real)
    requires a.at(name) == Some(Str(text)) && a.spelled(text) == Some(number)
    ensures ArgHolds(a, Against(name, op, Num(bound))) <==>
            ArgHolds(a.(at := n => if n == name then Some(Num(number)) else a.at(n)), Against(name, op, Num(bound)))
  {
  }

  /** Two values that are no numbers. */
  predicate NoNumber(a: Arguments, value: Json) { NumberOf(a, value).None? && !value.Endless? }

  /** One of several values: each can be asked for alone, in any order. */
  lemma OneOfTheValues(a: Arguments, name: string, values: seq<Json>)
    ensures ArgHolds(a, In(name, values)) <==> exists value :: value in values && ArgHolds(a, In(name, [value]))
  {
    forall value: Json
      ensures ArgHolds(a, In(name, [value])) <==> a.at(name).Some? && Same(a.at(name).value, value)
    {
      assert [value][0] == value;
    }
    if a.at(name).Some? {
      if i :| 0 <= i < |values| && Same(a.at(name).value, values[i]) { assert values[i] in values; }
    }
  }

  /** For a value that is no number, equality is the same as being among the values, and unequal is its opposite. */
  lemma EqualIsAmong(a: Arguments, name: string, value: Json)
    requires NoNumber(a, value)
    ensures ArgHolds(a, Against(name, Equal, value)) <==> ArgHolds(a, In(name, [value]))
    ensures a.at(name).Some? ==>
              (ArgHolds(a, Against(name, Unequal, value)) <==> !ArgHolds(a, Against(name, Equal, value)))
  {
    assert [value][0] == value;
  }

  /** Truth values are the numbers 0 and 1, and nothing else is confused. */
  lemma SameExactly(x: Json, y: Json)
    ensures Same(x, y) <==>
            x == y || (x == Truth(true) && y == Num(1.0)) || (x == Num(1.0) && y == Truth(true)) ||
            (x == Truth(false) && y == Num(0.0)) || (x == Num(0.0) && y == Truth(false))
  {
  }

  // ---- sums ------------------------------------------------------------------------------------------

  lemma {:induction false} TotalInTwo(x: seq<Addend>, y: seq<Addend>, number: string -> real)
    ensures Total(x + y, number) == Total(x, number) + Total(y, number)
    decreases y
  {
    if y == [] {
      assert x + y == x;
    } else {
      assert Init(x + y) == x + Init(y) && Last(x + y) == Last(y);
      TotalInTwo(x, Init(y), number);
    }
  }

  lemma NumbersInTwo(a: Arguments, x: seq<Addend>, y: seq<Addend>)
    ensures AllNumbers(a, x + y) <==> AllNumbers(a, x) && AllNumbers(a, y)
  {
    if AllNumbers(a, x + y) {
      forall i | 0 <= i < |x| ensures Argument(a, x[i].name).Some? { assert (x + y)[i] == x[i]; }
      forall i | 0 <= i < |y| ensures Argument(a, y[i].name).Some? { assert (x + y)[|x| + i] == y[i]; }
    }
  }

  /** The order of the addends does not matter. */
  lemma AddendsChangePlaces(a: Arguments, x: seq<Addend>, y: seq<Addend>, op: Op, bound: real)
    ensures SumHolds(a, SumPred(x + y, op, bound)) <==> SumHolds(a, SumPred(y + x, op, bound))
  {
    hide Total, AllNumbers;
    TotalInTwo(x, y, Numbers(a));
    TotalInTwo(y, x, Numbers(a));
    NumbersInTwo(a, x, y);
    NumbersInTwo(a, y, x);
  }

  /** An addend can be taken to the other side, as long as it is a number. */
  lemma AddendsChangeSides(a: Arguments, x: seq<Addend>, addend: Addend, op: Op, bound: real)
    requires Argument(a, addend.name).Some?
    ensures SumHolds(a, SumPred(x + [addend], op, bound)) <==>
            SumHolds(a, SumPred(x, op, bound - addend.factor * Argument(a, addend.name).value))
  {
    NumbersInTwo(a, x, [addend]);
    assert Init(x + [addend]) == x;
    hide AllNumbers;
    assert AllNumbers(a, [addend]) by { OneNumber(a, addend); }
  }

  lemma OneNumber(a: Arguments, addend: Addend)
    requires Argument(a, addend.name).Some?
    ensures AllNumbers(a, [addend])
  {
  }

  function Times(addends: seq<Addend>, times: real): (r: seq<Addend>)
    ensures |r| == |addends|
    ensures forall i :: 0 <= i < |r| ==> r[i] == Addend(times * addends[i].factor, addends[i].name)
  {
    seq(|addends|, i requires 0 <= i < |addends| => Addend(times * addends[i].factor, addends[i].name))
  }

  lemma {:induction false} TotalTimes(addends: seq<Addend>, factor: real, number: string -> real)
    ensures Total(Times(addends, factor), number) == factor * Total(addends, number)
    decreases addends
  {
    if addends != [] {
      TotalTimes(Init(addends), factor, number);
      var (front, all) := (Times(Init(addends), factor), Times(addends, factor));
      forall i | 0 <= i < |front| ensures all[i] == front[i] {
        assert Init(addends)[i] == addends[i];
      }
      assert Init(all) == front;
      var (last, rest) := (Last(addends), Total(Init(addends), number));
      var x := number(last.name);
      assert (factor * last.factor) * x == factor * (last.factor * x);
    }
  }

  lemma SameNumbers(a: Arguments, addends: seq<Addend>, factor: real)
    ensures AllNumbers(a, Times(addends, factor)) <==> AllNumbers(a, addends)
  {
    var times := Times(addends, factor);
    forall i | 0 <= i < |addends| ensures times[i].name == addends[i].name {}
    if AllNumbers(a, times) {
      forall i | 0 <= i < |addends| ensures Argument(a, addends[i].name).Some? {
        assert times[i].name == addends[i].name;
      }
    }
  }

  /** A condition may be multiplied by a positive number. */
  lemma SumsScale(a: Arguments, sum: SumPred, factor: real)
    requires factor > 0.0
    ensures SumHolds(a, SumPred(Times(sum.addends, factor), sum.op, factor * sum.bound)) <==> SumHolds(a, sum)
  {
    TotalTimes(sum.addends, factor, Numbers(a));
    var (x, y) := (Total(sum.addends, Numbers(a)), sum.bound);
    assert factor * x < factor * y <==> x < y;
    assert factor * x == factor * y <==> x == y;
    SameNumbers(a, sum.addends, factor);
  }
}
