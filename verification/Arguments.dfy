/**
  Predicates on the arguments of a structured tool call: `_arg_holds` and `_expr_holds`
  (ember_armor/ledger/engine.py).  Numbers are exact, as there.
 */
module Arguments {
  import opened Prelude

  /**
    A value of JSON.  `Endless` is a number that is not finite; `Tree` is a list or an object,
    written so that equal ones have the same text.
   */
  datatype Json = Null | Truth(b: bool) | Num(r: real) | Endless(text: string) | Str(text: string) | Tree(text: string)

  /** Python compares a truth value as 0 or 1. */
  function Compared(value: Json): Json { if value.Truth? then Num(if value.b then 1.0 else 0.0) else value }

  predicate Same(a: Json, b: Json) { Compared(a) == Compared(b) }

  datatype Op = Less | AtMost | More | AtLeast | Equal | Unequal

  predicate Ordered(left: real, op: Op, right: real) {
    match op
    case Less => left < right
    case AtMost => left <= right
    case More => left > right
    case AtLeast => left >= right
    case Equal => left == right
    case Unequal => left != right
  }

  datatype ArgPred =
    | Matches(name: string, pattern: string)
    | In(name: string, values: seq<Json>)
    | Against(name: string, op: Op, value: Json)

  datatype Addend = Addend(factor: real, name: string)

  datatype SumPred = SumPred(addends: seq<Addend>, op: Op, bound: real)

  /**
    The arguments of a call by dotted name, the number a text spells, whether a pattern is
    found in a text, and what a comparison with a constant that is not finite says.
   */
  datatype Arguments = Arguments(
    at: string -> Option<Json>,
    spelled: string -> Option<real>,
    found: (string, string) -> bool,
    endless: (Json, ArgPred) -> bool)

  /** `_number` */
  function NumberOf(a: Arguments, value: Json): Option<real> {
    match value
    case Num(r) => Some(r)
    case Str(text) => a.spelled(text)
    case _ => None
  }

  /** `_arg_holds` */
  predicate ArgHolds(a: Arguments, pred: ArgPred) {
    a.at(pred.name).Some? &&
    var value := a.at(pred.name).value;
    match pred
    case Matches(_, pattern) => value.Str? && a.found(pattern, value.text)
    case In(_, values) => exists i :: 0 <= i < |values| && Same(value, values[i])
    case Against(_, op, constant) =>
      if constant.Endless? then a.endless(value, pred)
      else if NumberOf(a, value).Some? && constant.Num? then Ordered(NumberOf(a, value).value, op, constant.r)
      else if op.Equal? then Same(value, constant)
      else if op.Unequal? then !Same(value, constant)
      else false
  }

  function Argument(a: Arguments, name: string): Option<real> {
    if a.at(name).None? then None else NumberOf(a, a.at(name).value)
  }

  predicate AllNumbers(a: Arguments, addends: seq<Addend>) {
    forall i :: 0 <= i < |addends| ==> Argument(a, addends[i].name).Some?
  }

  /** The sum of the addends with the numbers that `number` gives. */
  function Total(addends: seq<Addend>, number: string -> real): real {
    if addends == [] then 0.0
    else Total(Init(addends), number) + Last(addends).factor * number(Last(addends).name)
  }

  /** An argument that is no number counts as 0; it is only asked for where all are numbers. */
  function Numbers(a: Arguments): string -> real {
    name => if Argument(a, name).Some? then Argument(a, name).value else 0.0
  }

  /** `_expr_holds` */
  predicate SumHolds(a: Arguments, pred: SumPred) {
    AllNumbers(a, pred.addends) && Ordered(Total(pred.addends, Numbers(a)), pred.op, pred.bound)
  }

  /** The loop of `_expr_holds`, which gives up at the first argument that is no number. */
  method SumOf(a: Arguments, pred: SumPred) returns (holds: bool)
    ensures holds == SumHolds(a, pred)
  {
    var total := 0.0;
    for i := 0 to |pred.addends|
      invariant AllNumbers(a, pred.addends[..i]) && total == Total(pred.addends[..i], Numbers(a))
    {
      var number := Argument(a, pred.addends[i].name);
      if number.None? {
        assert pred.addends[i] in pred.addends;
        return false;
      }
      assert Init(pred.addends[..i + 1]) == pred.addends[..i] && Last(pred.addends[..i + 1]) == pred.addends[i];
      total := total + pred.addends[i].factor * number.value;
    }
    assert pred.addends[..|pred.addends|] == pred.addends;
    holds := Ordered(total, pred.op, pred.bound);
  }
}
