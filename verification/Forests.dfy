/**
  The ranges of a parsed script as a forest: which commands stand in which range, and that
  `Guards` (ember_armor/ledger/shell/core.py) records exactly this forest.
 */
module Forests {
  import opened Prelude
  import opened Moves
  import opened Scopes
  import opened Ranges
  import opened Scripts
  import AndOr
  import T = Trees

  // ---- forests -------------------------------------------------------------------------------

  /** A command, or a range; one without a guard is a process of its own. */
  datatype Tree = Leaf | Node(guard: Option<Guard>, kids: seq<Tree>)

  function Size(trees: seq<Tree>): nat
    decreases trees
  {
    if trees == [] then 0 else (if trees[0].Leaf? then 1 else Size(trees[0].kids)) + Size(trees[1..])
  }

  /** A guarded range is only recorded when it holds a command. */
  function Wrap(guard: Guard, trees: seq<Tree>): seq<Tree> {
    if Size(trees) == 0 then trees else [Node(Some(guard), trees)]
  }

  /** The ranges in the order in which they end; the forest begins at command `at`. */
  function Flat(trees: seq<Tree>, at: nat): seq<T.Mark>
    decreases trees
  {
    if trees == [] then []
    else
      match trees[0]
      case Leaf => Flat(trees[1..], at + 1)
      case Node(guard, kids) =>
        Flat(kids, at) + [T.Mark((at, at + Size(kids)), guard, false, [])] + Flat(trees[1..], at + Size(kids))
  }

  lemma {:induction false} SizeJoin(a: seq<Tree>, b: seq<Tree>)
    ensures Size(a + b) == Size(a) + Size(b)
    decreases a
  {
    if a == [] {
      assert a + b == b;
    } else {
      assert (a + b)[1..] == a[1..] + b;
      SizeJoin(a[1..], b);
    }
  }

  lemma {:induction false} FlatJoin(a: seq<Tree>, b: seq<Tree>, at: nat)
    ensures Flat(a + b, at) == Flat(a, at) + Flat(b, at + Size(a))
    decreases a
  {
    if a == [] {
      assert a + b == b;
    } else {
      assert (a + b)[1..] == a[1..] + b && (a + b)[0] == a[0];
      FlatJoin(a[1..], b, at + if a[0].Leaf? then 1 else Size(a[0].kids));
    }
  }

  lemma NodeAlone(guard: Option<Guard>, kids: seq<Tree>, at: nat)
    ensures Flat([Node(guard, kids)], at) == Flat(kids, at) + [T.Mark((at, at + Size(kids)), guard, false, [])]
    ensures Size([Node(guard, kids)]) == Size(kids)
  {
    assert [Node(guard, kids)][1..] == [];
    assert Flat([], at + Size(kids)) == [] && Size([]) == 0;
  }

  lemma FlatWrap(guard: Guard, trees: seq<Tree>, at: nat)
    ensures Flat(Wrap(guard, trees), at) == Flat(trees, at) + T.FrameMark(Some(guard), at, at + Size(trees))
    ensures Size(Wrap(guard, trees)) == Size(trees)
  {
    if Size(trees) > 0 { NodeAlone(Some(guard), trees, at); }
  }

  // ---- the forest of a script ------------------------------------------------------------------

  function Weight(item: Item): nat
    decreases item
  {
    match item
    case Plain(_, _) => 1
    case Group(_, inner) => 1 + BodyWeight(inner)
    case Sub(inner) => 1 + BodyWeight(inner)
    case Loop(cond, inner) => 1 + BodyWeight(cond) + BodyWeight(inner)
    case Choice(cond, yes, other) => 1 + BodyWeight(cond) + BodyWeight(yes) + OtherWeight(other)
  }

  function OtherWeight(other: Other): nat
    decreases other
  {
    match other
    case Fi => 0
    case Else(no) => 1 + BodyWeight(no)
    case Elif(cond, yes, more) => 1 + BodyWeight(cond) + BodyWeight(yes) + OtherWeight(more)
  }

  function BodyWeight(body: Body): nat
    decreases body
  {
    1 + Weight(body.first) + RestWeight(body.rest)
  }

  function RestWeight(rest: Rest): nat
    decreases rest
  {
    if rest.Nothing? then 0 else 1 + Weight(rest.item) + RestWeight(rest.rest)
  }

  /** The parser takes the item to be able to fail. */
  predicate Raises(item: Item) { (item.Plain? && item.test) || CanFail(Commands(item)) }

  function Leaves(n: nat): seq<Tree> { seq(n, _ => Leaf) }

  function Forest(item: Item): seq<Tree>
    decreases Weight(item), 0
  {
    match item
    case Plain(commands, _) => Leaves(|commands|)
    case Group(_, inner) => BodyForest(inner)
    case Sub(inner) => [Node(None, BodyForest(inner))]
    case Loop(cond, inner) => Wrap(Guard.Loop, BodyForest(cond) + BodyForest(inner))
    case Choice(cond, yes, other) => BodyForest(cond) + (Wrap(Maybe, BodyForest(yes)) + OtherForest(other))
  }

  function OtherForest(other: Other): seq<Tree>
    decreases OtherWeight(other), 0
  {
    match other
    case Fi => []
    case Else(no) => Wrap(Maybe, BodyForest(no))
    case Elif(cond, yes, more) => Wrap(Maybe, BodyForest(cond) + BodyForest(yes)) + OtherForest(more)
  }

  function BodyForest(body: Body): seq<Tree>
    decreases BodyWeight(body), 0
  {
    Forest(body.first) + UpTo(body.rest, Raises(body.first), None).trees
  }

  /** A stretch of a list: what it holds, what is left, and whether something read can fail. */
  datatype Cut = Cut(trees: seq<Tree>, commands: seq<Command>, rest: Rest, plain: bool)

  /** The range that an operator opens ends on the other one. */
  function EndOf(operator: Operator): Operator { if operator.AndThen? then OrElse else AndThen }

  /** What follows an `||` may not run, and what follows an `&&` behind something that can fail. */
  predicate Opens(operator: Operator, plain: bool) { operator.OrElse? || plain }

  /** A stretch ends at its operator and where the list ends; outside of any range only there. */
  predicate Closed(rest: Rest, endsOn: Option<Operator>) {
    rest.Nothing? || (endsOn.Some? && (rest.link.None? || rest.link == endsOn))
  }

  /** The list up to the end of the range that is open, or of all lists when there is none. */
  function UpTo(rest: Rest, plain: bool, endsOn: Option<Operator>): (cut: Cut)
    ensures RestWeight(cut.rest) <= RestWeight(rest)
    decreases RestWeight(rest), 1
  {
    if Closed(rest, endsOn) then Cut([], [], rest, plain)
    else
      var item, commands := Forest(rest.item), Commands(rest.item);
      if rest.link.Some? && Opens(rest.link.value, plain) then
        var still := (rest.link.value.OrElse? && plain) || Raises(rest.item);
        var range := UpTo(rest.rest, still, Some(EndOf(rest.link.value)));
        var more := UpTo(range.rest, range.plain, endsOn);
        Cut(Wrap(Maybe, item + range.trees) + more.trees, commands + range.commands + more.commands, more.rest,
            more.plain)
      else
        var more := UpTo(rest.rest, Raises(rest.item), endsOn);
        Cut(item + more.trees, commands + more.commands, more.rest, more.plain)
  }

  /** A range opens behind the operator. */
  predicate Ranged(rest: Rest, plain: bool) { rest.More? && rest.link.Some? && Opens(rest.link.value, plain) }

  /** What is known behind the first item of the range. */
  predicate StillPlain(rest: Rest, plain: bool)
    requires rest.More?
  {
    (rest.link == Some(OrElse) && plain) || Raises(rest.item)
  }

  /** The rest of the range. */
  function InRange(rest: Rest, plain: bool): Cut
    requires Ranged(rest, plain)
  {
    UpTo(rest.rest, StillPlain(rest, plain), Some(EndOf(rest.link.value)))
  }

  lemma UpToRange(rest: Rest, plain: bool, endsOn: Option<Operator>)
    requires !Closed(rest, endsOn) && Ranged(rest, plain)
    ensures var range := InRange(rest, plain);
            var more := UpTo(range.rest, range.plain, endsOn);
            RestWeight(range.rest) < RestWeight(rest) &&
            UpTo(rest, plain, endsOn) ==
            Cut(Wrap(Maybe, Forest(rest.item) + range.trees) + more.trees,
                Commands(rest.item) + range.commands + more.commands, more.rest, more.plain)
  {
    hide Forest, Commands, Wrap, Raises;
  }

  lemma UpToNext(rest: Rest, plain: bool, endsOn: Option<Operator>)
    requires !Closed(rest, endsOn) && !Ranged(rest, plain)
    ensures var more := UpTo(rest.rest, Raises(rest.item), endsOn);
            UpTo(rest, plain, endsOn) ==
            Cut(Forest(rest.item) + more.trees, Commands(rest.item) + more.commands, more.rest, more.plain)
  {
    hide Forest, Commands, Wrap, Raises;
  }

  lemma {:induction false} Stops(rest: Rest, plain: bool, endsOn: Option<Operator>)
    ensures Closed(UpTo(rest, plain, endsOn).rest, endsOn)
    decreases RestWeight(rest)
  {
    if !Closed(rest, endsOn) {
      if rest.link.Some? && Opens(rest.link.value, plain) {
        var still := (rest.link.value.OrElse? && plain) || Raises(rest.item);
        var range := UpTo(rest.rest, still, Some(EndOf(rest.link.value)));
        Stops(range.rest, range.plain, endsOn);
      } else {
        Stops(rest.rest, Raises(rest.item), endsOn);
      }
    }
  }

  // ---- as many leaves as commands -----------------------------------------------------------------

  lemma {:induction false} LeavesSize(n: nat)
    ensures Size(Leaves(n)) == n
  {
    if n > 0 {
      LeavesSize(n - 1);
      assert Leaves(n)[1..] == Leaves(n - 1);
    }
  }

  lemma {:induction false} LeavesFlat(n: nat, at: nat)
    ensures Flat(Leaves(n), at) == []
  {
    if n > 0 {
      LeavesFlat(n - 1, at + 1);
      assert Leaves(n)[1..] == Leaves(n - 1);
    }
  }

  lemma {:induction false} ItemSize(item: Item)
    ensures Size(Forest(item)) == |Commands(item)|
    decreases Weight(item), 0
  {
    match item
    case Plain(commands, _) => LeavesSize(|commands|);
    case Group(_, inner) => BodySize(inner);
    case Sub(inner) => BodySize(inner); NodeAlone(None, BodyForest(inner), 0);
    case Loop(cond, inner) =>
      BodySize(cond);
      BodySize(inner);
      SizeJoin(BodyForest(cond), BodyForest(inner));
      FlatWrap(Guard.Loop, BodyForest(cond) + BodyForest(inner), 0);
    case Choice(cond, yes, other) =>
      BodySize(cond);
      BodySize(yes);
      OtherSize(other);
      FlatWrap(Maybe, BodyForest(yes), 0);
      SizeJoin(Wrap(Maybe, BodyForest(yes)), OtherForest(other));
      SizeJoin(BodyForest(cond), Wrap(Maybe, BodyForest(yes)) + OtherForest(other));
  }

  lemma {:induction false} OtherSize(other: Other)
    ensures Size(OtherForest(other)) == |OtherCommands(other)|
    decreases OtherWeight(other), 0
  {
    match other
    case Fi =>
    case Else(no) => BodySize(no); FlatWrap(Maybe, BodyForest(no), 0);
    case Elif(cond, yes, more) =>
      BodySize(cond);
      BodySize(yes);
      OtherSize(more);
      SizeJoin(BodyForest(cond), BodyForest(yes));
      FlatWrap(Maybe, BodyForest(cond) + BodyForest(yes), 0);
      SizeJoin(Wrap(Maybe, BodyForest(cond) + BodyForest(yes)), OtherForest(more));
  }

  lemma {:induction false} BodySize(body: Body)
    ensures Size(BodyForest(body)) == |BodyCommands(body)|
    decreases BodyWeight(body), 0
  {
    hide Forest, UpTo;
    ItemSize(body.first);
    UpToSize(body.rest, Raises(body.first), None);
    AllOfIt(body.rest, Raises(body.first));
    SizeJoin(Forest(body.first), UpTo(body.rest, Raises(body.first), None).trees);
  }

  /** Outside of ranges nothing is left. */
  lemma AllOfIt(rest: Rest, plain: bool)
    ensures UpTo(rest, plain, None).rest.Nothing?
  {
    Stops(rest, plain, None);
  }

  lemma {:induction false} UpToSize(rest: Rest, plain: bool, endsOn: Option<Operator>)
    ensures var cut := UpTo(rest, plain, endsOn);
            Size(cut.trees) == |cut.commands| && RestCommands(rest) == cut.commands + RestCommands(cut.rest)
    decreases RestWeight(rest), 1
  {
    hide *;
    if Closed(rest, endsOn) {
      UpToNothing(rest, plain, endsOn);
    } else if Ranged(rest, plain) {
      UpToRange(rest, plain, endsOn);
      RangeIs(rest, plain);
      var range, still := InRange(rest, plain), StillPlain(rest, plain);
      var more := UpTo(range.rest, range.plain, endsOn);
      ItemSize(rest.item);
      UpToSize(rest.rest, still, Some(EndOf(rest.link.value)));
      UpToSize(range.rest, range.plain, endsOn);
      SizeJoin(Forest(rest.item), range.trees);
      FlatWrap(Maybe, Forest(rest.item) + range.trees, 0);
      SizeJoin(Wrap(Maybe, Forest(rest.item) + range.trees), more.trees);
      Parts(Commands(rest.item), range.commands, more.commands, RestCommands(more.rest));
    } else {
      UpToNext(rest, plain, endsOn);
      RestIs(rest, endsOn);
      var more := UpTo(rest.rest, Raises(rest.item), endsOn);
      ItemSize(rest.item);
      UpToSize(rest.rest, Raises(rest.item), endsOn);
      SizeJoin(Forest(rest.item), more.trees);
      Parts(Commands(rest.item), [], more.commands, RestCommands(more.rest));
    }
  }

  lemma UpToNothing(rest: Rest, plain: bool, endsOn: Option<Operator>)
    requires Closed(rest, endsOn)
    ensures UpTo(rest, plain, endsOn) == Cut([], [], rest, plain) && Size([]) == 0
    ensures [] + RestCommands(rest) == RestCommands(rest)
  {
  }

  lemma RestIs(rest: Rest, endsOn: Option<Operator>)
    requires !Closed(rest, endsOn)
    ensures rest.More? && RestCommands(rest) == Commands(rest.item) + RestCommands(rest.rest)
    ensures RestWeight(rest.rest) < RestWeight(rest) && Weight(rest.item) < RestWeight(rest)
  {
  }

  lemma RangeIs(rest: Rest, plain: bool)
    requires Ranged(rest, plain)
    ensures rest.More? && rest.link.Some? && RestCommands(rest) == Commands(rest.item) + RestCommands(rest.rest)
    ensures InRange(rest, plain) == UpTo(rest.rest, StillPlain(rest, plain), Some(EndOf(rest.link.value)))
    ensures RestWeight(rest.rest) < RestWeight(rest) && Weight(rest.item) < RestWeight(rest)
  {
  }

  lemma Parts<X>(a: seq<X>, b: seq<X>, c: seq<X>, d: seq<X>)
    ensures a + (b + (c + d)) == a + b + c + d && a + [] == a
  {
  }
}
