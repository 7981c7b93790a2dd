/**
  What a parse records of nested compound commands, subshells and scripts: which ranges have
  which kind (`Guards` and `ParseResult`, ember_armor/ledger/shell/core.py).
 */
module Trees {
  import opened Prelude
  import opened Paths
  import opened Moves
  import opened Scopes
  import opened Ranges
  import AndOr

  // ---- what a text holds ------------------------------------------------------------------------

  /** A part of a list.  `first` stands before the first branch of a compound command: the
      condition of an `if`, all of a loop or of a brace group. */
  datatype Node =
    | Runs(c: Command)
    | Joins(operator: Operator)
    | Tests
    | Ends
    | Nested(inner: seq<Node>, own: bool)
    | Nest(script: seq<Node>, chain: seq<Target>, keep: bool)
    | Compound(tag: string, kind: Option<Guard>, first: seq<Node>, arms: seq<Arm>)

  /** A branch, or with `more` not set what stands behind one (`case`). */
  datatype Arm = Arm(more: bool, openOne: bool, body: seq<Node>)

  function NodeEvents(node: Node): seq<Event>
    decreases node
  {
    match node
    case Runs(c) => [Reported(c)]
    case Joins(operator) => [Linked(operator)]
    case Tests => [Noted]
    case Ends => [Ended]
    case Nested(inner, own) => [List(Events(inner), own)]
    case Nest(script, chain, keep) => [Script(Events(script), chain, keep)]
    case Compound(tag, kind, first, arms) => [Entered(tag, kind)] + Events(first) + ArmEvents(tag, arms) + [Left(tag)]
  }

  function Events(nodes: seq<Node>): seq<Event>
    decreases nodes
  {
    if nodes == [] then [] else NodeEvents(nodes[0]) + Events(nodes[1..])
  }

  function ArmEvents(tag: string, arms: seq<Arm>): seq<Event>
    decreases arms
  {
    if arms == [] then []
    else [Branched(tag, arms[0].more, arms[0].openOne)] + Events(arms[0].body) + ArmEvents(tag, arms[1..])
  }

  function NodeCommands(node: Node): seq<Command>
    decreases node
  {
    match node
    case Runs(c) => [c]
    case Nested(inner, _) => Held(inner)
    case Nest(script, _, _) => Held(script)
    case Compound(_, _, first, arms) => Held(first) + ArmsHold(arms)
    case _ => []
  }

  /** The commands, in the order of the text. */
  function Held(nodes: seq<Node>): seq<Command>
    decreases nodes
  {
    if nodes == [] then [] else NodeCommands(nodes[0]) + Held(nodes[1..])
  }

  function ArmsHold(arms: seq<Arm>): seq<Command>
    decreases arms
  {
    if arms == [] then [] else Held(arms[0].body) + ArmsHold(arms[1..])
  }

  // ---- what is recorded of it --------------------------------------------------------------------

  /** All that a parse says of one scope. */
  datatype Mark = Mark(range: Range, guard: Option<Guard>, kept: bool, chain: seq<Target>)

  function MarkOf(p: Parsed, n: nat): Mark
    requires n < |p.scopes|
  {
    Mark(p.scopes[n], if n in p.guards then Some(p.guards[n]) else None, n in p.kept,
         if n in p.entered then p.entered[n] else [])
  }

  function Marks(p: Parsed): seq<Mark> { seq(|p.scopes|, n requires 0 <= n < |p.scopes| => MarkOf(p, n)) }

  function MaybeMark(r: Range): Mark { Mark(r, Some(Maybe), false, []) }

  /** The scopes that cannot simply be left out. */
  function Firm(marks: seq<Mark>): seq<Mark>
    decreases marks
  {
    if marks == [] then []
    else (if marks[0].guard == Some(Maybe) then [] else [marks[0]]) + Firm(marks[1..])
  }

  function Shift(m: Mark, offset: nat): Mark { m.(range := (m.range.0 + offset, m.range.1 + offset)) }

  function ShiftAll(marks: seq<Mark>, offset: nat): seq<Mark>
    decreases marks
  {
    if marks == [] then [] else [Shift(marks[0], offset)] + ShiftAll(marks[1..], offset)
  }

  function ShiftSet(ranges: set<Range>, offset: nat): set<Range> {
    set r | r in ranges :: (r.0 + offset, r.1 + offset)
  }

  /** A frame with a kind is a scope when it holds a command. */
  function FrameMark(kind: Option<Guard>, low: nat, high: nat): seq<Mark> {
    if kind.Some? && low < high then [Mark((low, high), kind, false, [])] else []
  }

  /** Subshells, scripts and loops, in the order in which they end; the part begins at command `at`. */
  function NodeFirm(node: Node, at: nat): seq<Mark>
    decreases node
  {
    match node
    case Nested(inner, own) =>
      AllFirm(inner, at) + if own then [Mark((at, at + |Held(inner)|), None, false, [])] else []
    case Nest(script, chain, keep) =>
      ShiftAll(AllFirm(script, 0), at) + [Mark((at, at + |Held(script)|), None, keep, chain)]
    case Compound(_, kind, first, arms) =>
      AllFirm(first, at) + ArmsFirm(arms, at + |Held(first)|) +
      Firm(FrameMark(kind, at, at + |Held(first)| + |ArmsHold(arms)|))
    case _ => []
  }

  function AllFirm(nodes: seq<Node>, at: nat): seq<Mark>
    decreases nodes
  {
    if nodes == [] then [] else NodeFirm(nodes[0], at) + AllFirm(nodes[1..], at + |NodeCommands(nodes[0])|)
  }

  function ArmsFirm(arms: seq<Arm>, at: nat): seq<Mark>
    decreases arms
  {
    if arms == [] then [] else AllFirm(arms[0].body, at) + ArmsFirm(arms[1..], at + |Held(arms[0].body)|)
  }

  function Cut(branch: Option<nat>, at: nat): seq<Range> {
    if branch.Some? && branch.value < at then [(branch.value, at)] else []
  }

  /** An arm does not begin a branch of its own when it belongs to the one that is open. */
  predicate Joined(arm: Arm, branch: Option<nat>) { arm.openOne && branch.Some? }

  /** The branches of a compound command; `branch` is where the one being read began. */
  function Branches(arms: seq<Arm>, branch: Option<nat>, at: nat): seq<Range>
    decreases arms
  {
    if arms == [] then Cut(branch, at)
    else
      var next := at + |Held(arms[0].body)|;
      if Joined(arms[0], branch) then Branches(arms[1..], branch, next)
      else Cut(branch, at) + Branches(arms[1..], if arms[0].more then Some(at) else None, next)
  }

  function KindOptional(kind: Option<Guard>, low: nat, high: nat): set<Range> {
    if kind == Some(Maybe) && low < high then {(low, high)} else {}
  }

  function SetOf(s: seq<Range>): set<Range> { set r | r in s }

  /** What may be left out wherever the text has a branch, at every depth, or a frame that says so. */
  function NodeOptional(node: Node, at: nat): set<Range>
    decreases node
  {
    match node
    case Nested(inner, _) => Optional(inner, at)
    case Nest(script, _, _) => ShiftSet(Optional(script, 0), at)
    case Compound(_, kind, first, arms) =>
      var end := at + |Held(first)| + |ArmsHold(arms)|;
      Optional(first, at) + ArmsOptional(arms, at + |Held(first)|) +
      SetOf(Branches(arms, None, at + |Held(first)|)) +
      KindOptional(kind, at, end)
    case _ => {}
  }

  function Optional(nodes: seq<Node>, at: nat): set<Range>
    decreases nodes
  {
    if nodes == [] then {} else NodeOptional(nodes[0], at) + Optional(nodes[1..], at + |NodeCommands(nodes[0])|)
  }

  function ArmsOptional(arms: seq<Arm>, at: nat): set<Range>
    decreases arms
  {
    if arms == [] then {} else Optional(arms[0].body, at) + ArmsOptional(arms[1..], at + |Held(arms[0].body)|)
  }

  // ---- marks ----------------------------------------------------------------------------------------

  /** Every dictionary speaks of recorded scopes. */
  predicate AllNumbered(p: Parsed) {
    (forall n :: n in p.guards ==> n < |p.scopes|) && (forall n :: n in p.kept ==> n < |p.scopes|) &&
    (forall n :: n in p.entered ==> n < |p.scopes|)
  }

  /** From `log` to `l` these commands were read and these scopes recorded. */
  predicate Adds(log: Log, l: Log, commands: seq<Command>, marks: seq<Mark>) {
    l.parsed.commands == log.parsed.commands + commands && AllNumbered(l.parsed) &&
    Marks(l.parsed) == Marks(log.parsed) + marks
  }

  predicate AllIn(optional: set<Range>, marks: seq<Mark>) { forall r :: r in optional ==> MaybeMark(r) in marks }

  /** The firm ones among the scopes are `firm`, and the optional ones hold at least `optional`. */
  ghost predicate Census(log: Log, l: Log, commands: seq<Command>, firm: seq<Mark>, optional: set<Range>) {
    exists marks :: Adds(log, l, commands, marks) && Firm(marks) == firm && AllIn(optional, marks)
  }

  lemma {:induction false} FirmJoin(a: seq<Mark>, b: seq<Mark>)
    ensures Firm(a + b) == Firm(a) + Firm(b)
    decreases a
  {
    if a == [] { assert a + b == b; } else {
      assert (a + b)[1..] == a[1..] + b;
      FirmJoin(a[1..], b);
    }
  }

  lemma CensusJoin(log: Log, m: Log, l: Log, a: seq<Command>, b: seq<Command>, f: seq<Mark>, g: seq<Mark>,
                   o: set<Range>, q: set<Range>)
    requires Census(log, m, a, f, o) && Census(m, l, b, g, q)
    ensures Census(log, l, a + b, f + g, o + q)
  {
    hide Marks, AllNumbered;
    var x :| Adds(log, m, a, x) && Firm(x) == f && AllIn(o, x);
    var y :| Adds(m, l, b, y) && Firm(y) == g && AllIn(q, y);
    FirmJoin(x, y);
    assert Marks(l.parsed) == Marks(log.parsed) + (x + y);
    assert log.parsed.commands + a + b == log.parsed.commands + (a + b);
    assert Adds(log, l, a + b, x + y);
  }

  lemma CensusNothing(log: Log, l: Log)
    requires AllNumbered(log.parsed) && l.parsed == log.parsed
    ensures Census(log, l, [], [], {})
  {
    assert Adds(log, l, [], []);
  }

  lemma CensusNew(log: Log, l: Log, mark: seq<Mark>)
    requires Adds(log, l, [], mark) && |mark| <= 1
    requires mark != [] && mark[0].guard == Some(Maybe) ==> mark[0] == MaybeMark(mark[0].range)
    ensures Census(log, l, [], Firm(mark), set m | m in mark && m.guard == Some(Maybe) :: m.range)
  {
    var optional := set m | m in mark && m.guard == Some(Maybe) :: m.range;
    assert AllIn(optional, mark);
  }

  lemma RecordAdds(log: Log, low: Start, kind: Guard)
    requires AllNumbered(log.parsed)
    ensures Adds(log, Record(log, low, kind), [], FrameMark(Some(kind), low.low, Now(log)))
  {
    var l, marks := Record(log, low, kind), FrameMark(Some(kind), low.low, Now(log));
    assert Marks(l.parsed) == Marks(log.parsed) + marks;
  }

  lemma OwnAdds(log: Log, low: Start)
    requires AllNumbered(log.parsed)
    ensures Adds(log, AddScope(log, low), [], [Mark((low.low, Now(log)), None, false, [])])
  {
    assert Marks(AddScope(log, low).parsed) == Marks(log.parsed) + [Mark((low.low, Now(log)), None, false, [])];
  }

  lemma RecordCensus(log: Log, low: Start, kind: Guard)
    requires AllNumbered(log.parsed)
    ensures Census(log, Record(log, low, kind), [], Firm(FrameMark(Some(kind), low.low, Now(log))),
                   if kind.Maybe? && low.low < Now(log) then {(low.low, Now(log))} else {})
    ensures Now(Record(log, low, kind)) == Now(log)
  {
    RecordAdds(log, low, kind);
    CensusNew(log, Record(log, low, kind), FrameMark(Some(kind), low.low, Now(log)));
  }

  lemma CensusLess(log: Log, l: Log, commands: seq<Command>, firm: seq<Mark>, optional: set<Range>, less: set<Range>)
    requires Census(log, l, commands, firm, optional) && less <= optional
    ensures Census(log, l, commands, firm, less)
  {
  }

  lemma Nones()
    ensures var c: seq<Command>, m: seq<Mark>, r: set<Range> := [], [], {}; c + c == c && m + m == m && r + r == r
  {
  }

  lemma {:induction false} RecordAllCensus(log: Log, open: seq<Start>)
    requires AllNumbered(log.parsed)
    ensures Census(log, RecordAll(log, open), [], [], {})
    decreases open
  {
    hide Census, Record;
    if open == [] {
      CensusNothing(log, log);
    } else {
      var next := Record(log, Last(open), Maybe);
      RecordCensus(log, Last(open), Maybe);
      var recorded := if Last(open).low < Now(log) then {(Last(open).low, Now(log))} else {};
      assert Firm(FrameMark(Some(Maybe), Last(open).low, Now(log))) == [];
      CensusLess(log, next, [], [], recorded, {});
      CensusNumbers(log, next, [], [], {});
      RecordAllCensus(next, Init(open));
      CensusJoin(log, next, RecordAll(next, Init(open)), [], [], [], [], {}, {});
      Nones();
    }
  }

  lemma CensusNumbers(log: Log, l: Log, commands: seq<Command>, firm: seq<Mark>, optional: set<Range>)
    requires Census(log, l, commands, firm, optional)
    ensures AllNumbered(l.parsed) && l.parsed.commands == log.parsed.commands + commands &&
            Now(l) == Now(log) + |commands|
  {
  }

  // ---- scripts --------------------------------------------------------------------------------------

  lemma {:induction false} ShiftFirm(marks: seq<Mark>, offset: nat)
    ensures Firm(ShiftAll(marks, offset)) == ShiftAll(Firm(marks), offset)
    decreases marks
  {
    if marks != [] {
      ShiftFirm(marks[1..], offset);
      var m, rest := marks[0], Firm(marks[1..]);
      FirmFirst(Shift(m, offset), ShiftAll(marks[1..], offset));
      ShiftFirst(m, rest, offset);
      assert [m] + marks[1..] == marks;
      assert Firm(marks) == if m.guard == Some(Maybe) then rest else [m] + rest;
      assert [] + ShiftAll(rest, offset) == ShiftAll(rest, offset);
    }
  }

  lemma FirmFirst(m: Mark, marks: seq<Mark>)
    ensures Firm([m] + marks) == (if m.guard == Some(Maybe) then [] else [m]) + Firm(marks)
  {
    assert ([m] + marks)[1..] == marks;
  }

  lemma ShiftFirst(m: Mark, marks: seq<Mark>, offset: nat)
    ensures ShiftAll([m] + marks, offset) == [Shift(m, offset)] + ShiftAll(marks, offset)
  {
    assert ([m] + marks)[1..] == marks;
  }

  lemma {:induction false} ShiftedMarks(marks: seq<Mark>, offset: nat)
    ensures |ShiftAll(marks, offset)| == |marks|
    ensures forall k :: 0 <= k < |marks| ==> ShiftAll(marks, offset)[k] == Shift(marks[k], offset)
    decreases marks
  {
    if marks != [] { ShiftedMarks(marks[1..], offset); }
  }

  /** What a merge says of its scopes. */
  lemma MergeMarks(log: Log, other: Log, chain: seq<Target>, keep: bool, n: nat)
    requires AllNumbered(log.parsed) && AllNumbered(other.parsed)
    requires n < |Merge(log, other, chain, keep).parsed.scopes|
    ensures var p, q, l := log.parsed, other.parsed, Merge(log, other, chain, keep).parsed;
            MarkOf(l, n) == if n < |p.scopes| then MarkOf(p, n)
                            else if n < |p.scopes| + |q.scopes| then Shift(MarkOf(q, n - |p.scopes|), Now(log))
                            else Mark((Now(log), Now(log) + Now(other)), None, keep, chain)
  {
    hide Renumbered, Numbers;
    var p, q := log.parsed, other.parsed;
    var first, number := |p.scopes|, |p.scopes| + |q.scopes|;
    RenumberedAt(p.guards, q.guards, first, n);
    RenumberedAt(p.entered, q.entered, first, n);
    NumbersAt(p.kept, q.kept, first, n);
    var l := Merge(log, other, chain, keep).parsed;
    assert n in l.kept <==> (if n < first then n in p.kept else n - first in q.kept) || (keep && n == number);
    assert n < number ==>
      (n in l.entered <==> n in p.entered + Renumbered(q.entered, first)) &&
      (n in l.entered ==> l.entered[n] == (p.entered + Renumbered(q.entered, first))[n]);
  }

  lemma RenumberedAt<T>(a: map<nat, T>, b: map<nat, T>, first: nat, n: nat)
    requires forall k :: k in a ==> k < first
    ensures var m := a + Renumbered(b, first);
            if n < first then (n in m <==> n in a) && (n in a ==> m[n] == a[n])
            else (n in m <==> n - first in b) && (n - first in b ==> m[n] == b[n - first])
  {
    if n >= first && n - first in b { assert n - first + first in Numbers(b.Keys, first); }
  }

  lemma NumbersAt(a: set<nat>, b: set<nat>, first: nat, n: nat)
    requires forall k :: k in a ==> k < first
    ensures n in a + Numbers(b, first) <==> if n < first then n in a else n - first in b
  {
    if n >= first && n - first in b { assert n - first + first in Numbers(b, first); }
  }

  lemma MergedNumbers(p: Parsed, q: Parsed, chain: seq<Target>, keep: bool)
    requires AllNumbered(p) && AllNumbered(q)
    ensures AllNumbered(MergedParse(p, q, chain, keep))
  {
    var first := |p.scopes|;
    MergedSize(p.scopes, q.scopes, |p.commands|, |q.commands|);
    hide Renumbered, Numbers, MergedScopes;
    forall n: nat
      ensures n in p.guards + Renumbered(q.guards, first) ==> n < first + |q.scopes|
      ensures n in p.entered + Renumbered(q.entered, first) ==> n < first + |q.scopes|
      ensures n in p.kept + Numbers(q.kept, first) ==> n < first + |q.scopes|
    {
      RenumberedAt(p.guards, q.guards, first, n);
      RenumberedAt(p.entered, q.entered, first, n);
      NumbersAt(p.kept, q.kept, first, n);
    }
  }

  lemma MergedSize(scopes: seq<Range>, inner: seq<Range>, offset: nat, size: nat)
    ensures |MergedScopes(scopes, inner, offset, size)| == |scopes| + |inner| + 1
  {
  }

  lemma MergeAdds(log: Log, other: Log, chain: seq<Target>, keep: bool)
    requires AllNumbered(log.parsed) && AllNumbered(other.parsed)
    ensures Adds(log, Merge(log, other, chain, keep), other.parsed.commands,
                 ShiftAll(Marks(other.parsed), Now(log)) +
                 [Mark((Now(log), Now(log) + Now(other)), None, keep, chain)])
  {
    hide MergedScopes, MarkOf, Renumbered, Numbers;
    var p, q, l := log.parsed, other.parsed, Merge(log, other, chain, keep).parsed;
    var marks := ShiftAll(Marks(q), Now(log)) + [Mark((Now(log), Now(log) + Now(other)), None, keep, chain)];
    ShiftedMarks(Marks(q), Now(log));
    MergedSize(p.scopes, q.scopes, Now(log), Now(other));
    MergedNumbers(p, q, chain, keep);
    forall n | 0 <= n < |l.scopes| ensures Marks(l)[n] == (Marks(p) + marks)[n] {
      MergeMarks(log, other, chain, keep, n);
    }
    assert Marks(l) == Marks(p) + marks;
  }

  // ---- reading ---------------------------------------------------------------------------------------

  /** Reading goes on behind the part, with its scopes recorded and the frames below untouched. */
  ghost predicate Reads(log: Log, outer: seq<Frame>, f: Frame, events: seq<Event>, tail: seq<Event>, l: Log, g: Frame,
                        commands: seq<Command>, firm: seq<Mark>, optional: set<Range>) {
    Feed(State(log, outer + [f]), events + tail) == Feed(State(l, outer + [g]), tail) && AndOr.SameFrame(f, g) &&
    Census(log, l, commands, firm, optional)
  }

  lemma ReadsJoin(log: Log, outer: seq<Frame>, f: Frame, a: seq<Event>, b: seq<Event>, tail: seq<Event>,
                  m: Log, h: Frame, l: Log, g: Frame, c: seq<Command>, d: seq<Command>, x: seq<Mark>, y: seq<Mark>,
                  o: set<Range>, q: set<Range>)
    requires Reads(log, outer, f, a, b + tail, m, h, c, x, o) && Reads(m, outer, h, b, tail, l, g, d, y, q)
    ensures Reads(log, outer, f, a + b, tail, l, g, c + d, x + y, o + q)
  {
    hide Feed, Census;
    CensusJoin(log, m, l, c, d, x, y, o, q);
    assert a + b + tail == a + (b + tail);
  }

  lemma Tops(outer: seq<Frame>, f: Frame)
    ensures Init(outer + [f]) == outer && Last(outer + [f]) == f
  {
  }

  lemma FeedOne(s: State, event: Event, tail: seq<Event>)
    requires s.frames != []
    ensures Feed(s, [event] + tail) == Feed(Next(s, event), tail)
  {
    hide Next;
    assert ([event] + tail)[0] == event && ([event] + tail)[1..] == tail;
  }

  lemma CensusCommand(log: Log, c: Command)
    requires AllNumbered(log.parsed)
    ensures Census(log, AddCommand(log, c), [c], [], {})
  {
    assert Marks(AddCommand(log, c).parsed) == Marks(log.parsed) + [];
    assert Adds(log, AddCommand(log, c), [c], []);
  }

  lemma CensusClose(log: Log, f: Frame, operator: Option<Operator>)
    requires AllNumbered(log.parsed)
    ensures Census(log, Close(log, f, operator).0, [], [], {})
  {
    hide Census, RecordAll;
    RecordAllCensus(log, f.open);
    CensusNothing(log, log);
  }

  lemma CensusSame(log: Log, m: Log, l: Log, commands: seq<Command>, firm: seq<Mark>, optional: set<Range>)
    requires Census(log, m, commands, firm, optional) && l.parsed == m.parsed
    ensures Census(log, l, commands, firm, optional)
  {
    var marks :| Adds(log, m, commands, marks) && Firm(marks) == firm && AllIn(optional, marks);
    assert Adds(log, l, commands, marks);
  }

  lemma CensusSince(log: Log, m: Log, l: Log, commands: seq<Command>, firm: seq<Mark>, optional: set<Range>)
    requires Census(m, l, commands, firm, optional) && log.parsed == m.parsed
    ensures Census(log, l, commands, firm, optional)
  {
    var marks :| Adds(m, l, commands, marks) && Firm(marks) == firm && AllIn(optional, marks);
    assert Adds(log, l, commands, marks);
  }

  /** An operator, a test or the end of an and-or list. */
  lemma ReadJoint(log: Log, outer: seq<Frame>, f: Frame, node: Node, tail: seq<Event>) returns (l: Log, g: Frame)
    requires AllNumbered(log.parsed) && (node.Joins? || node.Tests? || node.Ends?)
    ensures Reads(log, outer, f, NodeEvents(node), tail, l, g, [], [], {})
  {
    hide Census, RecordAll, CanFail, Feed;
    Tops(outer, f);
    FeedOne(State(log, outer + [f]), NodeEvents(node)[0], tail);
    match node
    case Joins(operator) =>
      CensusClose(log, f, Some(operator));
      l, g := Link(log, f, operator).0, Link(log, f, operator).1;
      CensusSame(log, Close(log, f, Some(operator)).0, l, [], [], {});
    case Tests =>
      l, g := log, f.(plain := true);
      CensusNothing(log, log);
    case Ends =>
      CensusClose(log, f, None);
      l, g := EndList(log, f).0, EndList(log, f).1;
  }

  lemma {:induction false} ReadNodes(log: Log, outer: seq<Frame>, f: Frame, nodes: seq<Node>, tail: seq<Event>)
      returns (l: Log, g: Frame)
    requires AllNumbered(log.parsed)
    ensures Reads(log, outer, f, Events(nodes), tail, l, g, Held(nodes), AllFirm(nodes, Now(log)),
                  Optional(nodes, Now(log)))
    decreases nodes, 0
  {
    hide Feed, Census, NodeFirm, NodeOptional, NodeEvents, NodeCommands;
    if nodes == [] {
      l, g := log, f;
      CensusNothing(log, log);
      assert [] + tail == tail;
    } else {
      var m, h := ReadNode(log, outer, f, nodes[0], Events(nodes[1..]) + tail);
      CensusNumbers(log, m, NodeCommands(nodes[0]), NodeFirm(nodes[0], Now(log)), NodeOptional(nodes[0], Now(log)));
      l, g := ReadNodes(m, outer, h, nodes[1..], tail);
      ReadsJoin(log, outer, f, NodeEvents(nodes[0]), Events(nodes[1..]), tail, m, h, l, g, NodeCommands(nodes[0]),
                Held(nodes[1..]), NodeFirm(nodes[0], Now(log)), AllFirm(nodes[1..], Now(m)),
                NodeOptional(nodes[0], Now(log)), Optional(nodes[1..], Now(m)));
    }
  }

  lemma {:induction false} ReadNode(log: Log, outer: seq<Frame>, f: Frame, node: Node, tail: seq<Event>)
      returns (l: Log, g: Frame)
    requires AllNumbered(log.parsed)
    ensures Reads(log, outer, f, NodeEvents(node), tail, l, g, NodeCommands(node), NodeFirm(node, Now(log)),
                  NodeOptional(node, Now(log)))
    decreases node, 1
  {
    hide Feed, Census, ParseList, Merge, AllFirm, Optional;
    match node
    case Runs(c) =>
      l, g := AddCommand(log, c), f;
      FeedOne(State(log, outer + [f]), Reported(c), tail);
      CensusCommand(log, c);
    case Nested(inner, own) =>
      l := ReadNested(log, inner, own);
      g := f;
      FeedOne(State(log, outer + [f]), List(Events(inner), own), tail);
    case Nest(script, chain, keep) =>
      l := ReadScript(log, script, chain, keep);
      g := f;
      FeedOne(State(log, outer + [f]), Script(Events(script), chain, keep), tail);
    case Compound(tag, kind, first, arms) =>
      l := ReadCompound(log, outer + [f], node, tail);
      g := f;
    case _ =>
      l, g := ReadJoint(log, outer, f, node, tail);
  }

  lemma {:induction false} ReadList(log: Log, nodes: seq<Node>)
    requires AllNumbered(log.parsed)
    ensures Census(log, ParseList(log, Events(nodes)), Held(nodes), AllFirm(nodes, Now(log)), Optional(nodes, Now(log)))
    decreases nodes, 1
  {
    hide Feed, Census, RecordAll, AllFirm, Optional, Held;
    var nf := NewFrame(log, "", None);
    var l, g := ReadNodes(Tick(log), [], nf, nodes, []);
    assert Events(nodes) + [] == Events(nodes);
    assert [] + [nf] == [nf] && [] + [g] == [g];
    FeedNothing(State(l, [g]));
    var end := RecordAll(l, g.open);
    assert ParseList(log, Events(nodes)) == end;
    CensusSince(log, Tick(log), l, Held(nodes), AllFirm(nodes, Now(log)), Optional(nodes, Now(log)));
    CensusNumbers(log, l, Held(nodes), AllFirm(nodes, Now(log)), Optional(nodes, Now(log)));
    RecordAllCensus(l, g.open);
    ThenNothing(log, l, end, Held(nodes), AllFirm(nodes, Now(log)), Optional(nodes, Now(log)));
  }

  lemma FeedNothing(s: State) requires s.frames != [] ensures Feed(s, []) == s {}

  lemma ThenNothing(log: Log, m: Log, l: Log, commands: seq<Command>, firm: seq<Mark>, optional: set<Range>)
    requires Census(log, m, commands, firm, optional) && Census(m, l, [], [], {})
    ensures Census(log, l, commands, firm, optional)
  {
    hide Census;
    CensusJoin(log, m, l, commands, [], firm, [], optional, {});
    assert commands + [] == commands && firm + [] == firm && optional + {} == optional;
  }

  lemma {:induction false} ReadNested(log: Log, inner: seq<Node>, own: bool) returns (l: Log)
    requires AllNumbered(log.parsed)
    ensures var m := ParseList(Tick(log), Events(inner)); l == if own then AddScope(m, Opened(log)) else m
    ensures Census(log, l, Held(inner),
                   AllFirm(inner, Now(log)) +
                   if own then [Mark((Now(log), Now(log) + |Held(inner)|), None, false, [])] else [],
                   Optional(inner, Now(log)))
    decreases inner, 2
  {
    hide Census, ParseList, AllFirm, Optional, Held, Events;
    ReadList(Tick(log), inner);
    l := ParseList(Tick(log), Events(inner));
    var firm, optional := AllFirm(inner, Now(log)), Optional(inner, Now(log));
    CensusSince(log, Tick(log), l, Held(inner), firm, optional);
    assert firm + [] == firm;
    if own {
      CensusNumbers(log, l, Held(inner), firm, optional);
      var mark := Mark((Now(log), Now(l)), None, false, []);
      var m := l;
      l := AddScope(l, Opened(log));
      OwnAdds(m, Opened(log));
      FirmNew(m, l, mark);
      CensusJoin(log, m, l, Held(inner), [], firm, [mark], optional, {});
      assert Held(inner) + [] == Held(inner) && optional + {} == optional;
    }
  }

  lemma FirmNew(log: Log, l: Log, mark: Mark)
    requires Adds(log, l, [], [mark]) && mark.guard != Some(Maybe)
    ensures Census(log, l, [], [mark], {})
  {
    assert Firm([mark]) == [mark] + Firm([]);
  }

  lemma {:induction false} ReadScript(log: Log, script: seq<Node>, chain: seq<Target>, keep: bool) returns (l: Log)
    requires AllNumbered(log.parsed)
    ensures l == Merge(log, ParseList(EMPTY, Events(script)), chain, keep)
    ensures Census(log, l, Held(script),
                   ShiftAll(AllFirm(script, 0), Now(log)) +
                   [Mark((Now(log), Now(log) + |Held(script)|), None, keep, chain)],
                   ShiftSet(Optional(script, 0), Now(log)))
    decreases script, 2
  {
    hide Census, ParseList, AllFirm, Optional, Held, Events, Merge;
    ReadList(EMPTY, script);
    var other := ParseList(EMPTY, Events(script));
    CensusNumbers(EMPTY, other, Held(script), AllFirm(script, 0), Optional(script, 0));
    l := Merge(log, other, chain, keep);
    MergeAdds(log, other, chain, keep);
    MergedCensus(log, other, l, Held(script), AllFirm(script, 0), Optional(script, 0),
                 Mark((Now(log), Now(log) + Now(other)), None, keep, chain));
  }

  lemma MergedCensus(log: Log, other: Log, l: Log, commands: seq<Command>, firm: seq<Mark>, optional: set<Range>,
                     mark: Mark)
    requires Census(EMPTY, other, commands, firm, optional) && mark.guard.None?
    requires Adds(log, l, commands, ShiftAll(Marks(other.parsed), Now(log)) + [mark])
    ensures Census(log, l, commands, ShiftAll(firm, Now(log)) + [mark], ShiftSet(optional, Now(log)))
  {
    hide Marks, Firm, ShiftAll, AllNumbered, ShiftSet, AllIn;
    var marks :| Adds(EMPTY, other, commands, marks) && Firm(marks) == firm && AllIn(optional, marks);
    assert Marks(other.parsed) == marks by { NoMarks(); }
    ShiftFirm(marks, Now(log));
    FirmJoin(ShiftAll(marks, Now(log)), [mark]);
    assert Firm([mark]) == [mark] by { FirmFirst(mark, []); FirmNone(); assert [mark] + [] == [mark]; }
    ShiftIn(optional, marks, mark, Now(log));
  }

  lemma NoMarks() ensures forall marks :: Marks(EMPTY.parsed) + marks == marks { assert Marks(EMPTY.parsed) == []; }

  lemma ShiftIn(optional: set<Range>, marks: seq<Mark>, mark: Mark, offset: nat)
    requires AllIn(optional, marks)
    ensures AllIn(ShiftSet(optional, offset), ShiftAll(marks, offset) + [mark])
  {
    ShiftedMarks(marks, offset);
    forall r | r in optional ensures MaybeMark((r.0 + offset, r.1 + offset)) in ShiftAll(marks, offset) + [mark] {
      var k :| 0 <= k < |marks| && marks[k] == MaybeMark(r);
      assert (ShiftAll(marks, offset) + [mark])[k] == Shift(marks[k], offset);
    }
  }

  // ---- compound commands ----------------------------------------------------------------------------

  lemma {:induction false} ReadCompound(log: Log, frames: seq<Frame>, node: Node, tail: seq<Event>) returns (l: Log)
    requires AllNumbered(log.parsed) && node.Compound? && frames != []
    ensures Feed(State(log, frames), NodeEvents(node) + tail) == Feed(State(l, frames), tail)
    ensures Census(log, l, NodeCommands(node), NodeFirm(node, Now(log)), NodeOptional(node, Now(log)))
    decreases node, 0
  {
    hide Feed, Census, AllFirm, Optional, Held, Events, ArmEvents, ArmsHold, ArmsFirm, ArmsOptional, Branches, Firm;
    var Compound(tag, kind, first, arms) := node;
    var nf := NewFrame(log, tag, kind);
    var behind := ArmEvents(tag, arms) + [Left(tag)] + tail;
    assert NodeEvents(node) + tail == [Entered(tag, kind)] + (Events(first) + behind);
    FeedOne(State(log, frames), Entered(tag, kind), Events(first) + behind);
    var m, h := ReadNodes(Tick(log), frames, nf, first, behind);
    CensusSince(log, Tick(log), m, Held(first), AllFirm(first, Now(log)), Optional(first, Now(log)));
    CensusNumbers(log, m, Held(first), AllFirm(first, Now(log)), Optional(first, Now(log)));
    l := ReadArms(m, frames, h, arms, tail);
    var low := Now(log);
    var end := low + |Held(first)| + |ArmsHold(arms)|;
    CensusJoin(log, m, l, Held(first), ArmsHold(arms), AllFirm(first, low),
               ArmsFirm(arms, Now(m)) + Firm(FrameMark(kind, low, end)), Optional(first, low),
               ArmsOptional(arms, Now(m)) + SetOf(Branches(arms, None, Now(m))) + KindOptional(kind, low, end));
    assert NodeOptional(node, low) == Optional(first, low) +
      (ArmsOptional(arms, Now(m)) + SetOf(Branches(arms, None, Now(m))) + KindOptional(kind, low, end));
    assert NodeFirm(node, low) == AllFirm(first, low) + (ArmsFirm(arms, Now(m)) + Firm(FrameMark(kind, low, end)));
  }

  /** Behind the last arm the frame is left. */
  lemma LeavesFrame(log: Log, frames: seq<Frame>, f: Frame, tail: seq<Event>) returns (l: Log)
    requires AllNumbered(log.parsed) && frames != []
    ensures Feed(State(log, frames + [f]), [Left(f.tag)] + tail) == Feed(State(l, frames), tail)
    ensures Census(log, l, [], Firm(FrameMark(f.kind, f.low.low, Now(log))),
                   SetOf(Cut(Begun(f), Now(log))) + KindOptional(f.kind, f.low.low, Now(log)))
  {
    hide Census, RecordAll, Record, Feed, Firm;
    var s := State(log, frames + [f]);
    FeedOne(s, Left(f.tag), tail);
    Tops(frames, f);
    assert Innermost(s.frames, f.tag) == |frames|;
    l := LeaveFrame(log, f);
    assert LeaveTo(s, |frames|) == LeaveTo(State(l, frames), |frames|) == State(l, frames);
    RecordAllCensus(log, f.open);
    var m := RecordAll(log, f.open);
    CensusNumbers(log, m, [], [], {});
    BranchCensus(m, f);
    var n := EndBranch(m, f);
    CensusNumbers(m, n, [], [], SetOf(Cut(Begun(f), Now(log))));
    CensusNothing(n, n);
    if f.kind.Some? { RecordCensus(n, f.low, f.kind.value); }
    FirmNone();
    Nones();
    assert {} + SetOf(Cut(Begun(f), Now(log))) == SetOf(Cut(Begun(f), Now(log)));
    CensusJoin(log, m, n, [], [], [], [], {}, SetOf(Cut(Begun(f), Now(log))));
    CensusJoin(log, n, l, [], [], [], Firm(FrameMark(f.kind, f.low.low, Now(log))), SetOf(Cut(Begun(f), Now(log))),
               KindOptional(f.kind, f.low.low, Now(log)));
    assert [] + Firm(FrameMark(f.kind, f.low.low, Now(log))) == Firm(FrameMark(f.kind, f.low.low, Now(log)));
  }

  lemma FirmNone() ensures Firm([]) == [] {}

  function Begun(f: Frame): Option<nat> { if f.branch.Some? then Some(f.branch.value.low) else None }

  lemma BranchCensus(log: Log, f: Frame)
    requires AllNumbered(log.parsed)
    ensures Census(log, EndBranch(log, f), [], [], SetOf(Cut(Begun(f), Now(log))))
  {
    hide Census, Record;
    if f.branch.Some? {
      RecordCensus(log, f.branch.value, Maybe);
      assert Firm(FrameMark(Some(Maybe), f.branch.value.low, Now(log))) == [];
      var branch := (f.branch.value.low, Now(log));
      assert SetOf([branch]) == {branch} && SetOf([]) == {};
    } else {
      CensusNothing(log, log);
      assert SetOf([]) == {};
    }
  }

  /** A branch begins or ends. */
  lemma ReadsBranch(log: Log, frames: seq<Frame>, f: Frame, arm: Arm, tail: seq<Event>) returns (l: Log, g: Frame)
    requires AllNumbered(log.parsed) && frames != []
    ensures Feed(State(log, frames + [f]), [Branched(f.tag, arm.more, arm.openOne)] + tail)
         == Feed(State(l, frames + [g]), tail)
    ensures g.tag == f.tag && g.kind == f.kind && g.low == f.low
    ensures Begun(g) == if Joined(arm, Begun(f)) then Begun(f) else if arm.more then Some(Now(log)) else None
    ensures Census(log, l, [], [], if Joined(arm, Begun(f)) then {} else SetOf(Cut(Begun(f), Now(log))))
  {
    hide Census, RecordAll, Record, Feed, Firm;
    var s := State(log, frames + [f]);
    FeedOne(s, Branched(f.tag, arm.more, arm.openOne), tail);
    Tops(frames, f);
    assert Innermost(s.frames, f.tag) == |frames|;
    if Joined(arm, Begun(f)) {
      l, g := log, f;
      CensusNothing(log, log);
    } else {
      RecordAllCensus(log, f.open);
      var m := RecordAll(log, f.open);
      CensusNumbers(log, m, [], [], {});
      BranchCensus(m, f);
      var n := EndBranch(m, f);
      CensusNumbers(m, n, [], [], SetOf(Cut(Begun(f), Now(log))));
      CensusJoin(log, m, n, [], [], [], [], {}, SetOf(Cut(Begun(f), Now(log))));
      Nones();
      assert {} + SetOf(Cut(Begun(f), Now(log))) == SetOf(Cut(Begun(f), Now(log)));
      l := if arm.more then Tick(n) else n;
      g := Reset(n, f.(open := [], branch := if arm.more then Some(Opened(n)) else None));
      CensusSame(log, n, l, [], [], SetOf(Cut(Begun(f), Now(log))));
      assert EndBranch(m, f.(open := [])) == n;
      assert LeaveTo(s, |frames| + 1) == s;
    }
  }

  /** The arms of a compound command, and its end. */
  lemma {:induction false} ReadArms(log: Log, frames: seq<Frame>, f: Frame, arms: seq<Arm>, tail: seq<Event>)
      returns (l: Log)
    requires AllNumbered(log.parsed) && frames != []
    ensures Feed(State(log, frames + [f]), ArmEvents(f.tag, arms) + [Left(f.tag)] + tail)
         == Feed(State(l, frames), tail)
    ensures var end := Now(log) + |ArmsHold(arms)|;
            Census(log, l, ArmsHold(arms), ArmsFirm(arms, Now(log)) + Firm(FrameMark(f.kind, f.low.low, end)),
                   ArmsOptional(arms, Now(log)) + SetOf(Branches(arms, Begun(f), Now(log))) +
                   KindOptional(f.kind, f.low.low, end))
    decreases arms, 0
  {
    hide Feed, Census, AllFirm, Optional, Held, Events, Firm, Begun, Joined, Cut;
    if arms == [] {
      l := LeavesFrame(log, frames, f, tail);
      assert ArmEvents(f.tag, arms) + [Left(f.tag)] + tail == [Left(f.tag)] + tail;
      var firm := Firm(FrameMark(f.kind, f.low.low, Now(log)));
      assert [] + firm == firm;
      assert {} + SetOf(Cut(Begun(f), Now(log))) + KindOptional(f.kind, f.low.low, Now(log))
          == SetOf(Cut(Begun(f), Now(log))) + KindOptional(f.kind, f.low.low, Now(log));
    } else {
      var arm := arms[0];
      var behind := ArmEvents(f.tag, arms[1..]) + [Left(f.tag)] + tail;
      assert ArmEvents(f.tag, arms) + [Left(f.tag)] + tail
          == [Branched(f.tag, arm.more, arm.openOne)] + (Events(arm.body) + behind);
      var m, h := ReadsBranch(log, frames, f, arm, Events(arm.body) + behind);
      var cut := if Joined(arm, Begun(f)) then {} else SetOf(Cut(Begun(f), Now(log)));
      CensusNumbers(log, m, [], [], cut);
      var n, g := ReadNodes(m, frames, h, arm.body, behind);
      CensusNumbers(m, n, Held(arm.body), AllFirm(arm.body, Now(m)), Optional(arm.body, Now(m)));
      l := ReadArms(n, frames, g, arms[1..], tail);
      assert Begun(g) == Begun(h) by { SameBegun(h, g); }
      ArmsJoin(log, m, n, l, f, Begun(g), arms);
    }
  }

  lemma ArmsJoin(log: Log, m: Log, n: Log, l: Log, f: Frame, begun: Option<nat>, arms: seq<Arm>)
    requires arms != [] && Now(n) == Now(log) + |Held(arms[0].body)|
    requires begun == if Joined(arms[0], Begun(f)) then Begun(f) else if arms[0].more then Some(Now(log)) else None
    requires Census(log, m, [], [], if Joined(arms[0], Begun(f)) then {} else SetOf(Cut(Begun(f), Now(log))))
    requires Census(m, n, Held(arms[0].body), AllFirm(arms[0].body, Now(log)), Optional(arms[0].body, Now(log)))
    requires var end := Now(n) + |ArmsHold(arms[1..])|;
             Census(n, l, ArmsHold(arms[1..]), ArmsFirm(arms[1..], Now(n)) + Firm(FrameMark(f.kind, f.low.low, end)),
                    ArmsOptional(arms[1..], Now(n)) + SetOf(Branches(arms[1..], begun, Now(n))) +
                    KindOptional(f.kind, f.low.low, end))
    ensures var end := Now(log) + |ArmsHold(arms)|;
            Census(log, l, ArmsHold(arms), ArmsFirm(arms, Now(log)) + Firm(FrameMark(f.kind, f.low.low, end)),
                   ArmsOptional(arms, Now(log)) + SetOf(Branches(arms, Begun(f), Now(log))) +
                   KindOptional(f.kind, f.low.low, end))
  {
    hide *;
    var at, next, end := Now(log), Now(n), Now(log) + |ArmsHold(arms)|;
    var body, more := arms[0].body, arms[1..];
    var cut := if Joined(arms[0], Begun(f)) then {} else SetOf(Cut(Begun(f), at));
    BranchesFirst(arms, Begun(f), at);
    ArmsAre(arms, at);
    var mark, kind := Firm(FrameMark(f.kind, f.low.low, end)), KindOptional(f.kind, f.low.low, end);
    var firm, later := AllFirm(body, at), ArmsFirm(more, next);
    var optional, rest, branches := Optional(body, at), ArmsOptional(more, next), SetOf(Branches(more, begun, next));
    assert end == next + |ArmsHold(more)|;
    CensusJoin(log, m, n, [], Held(body), [], firm, cut, optional);
    CensusJoin(log, n, l, [] + Held(body), ArmsHold(more), [] + firm, later + mark, cut + optional,
               rest + branches + kind);
    Parts(Held(body), ArmsHold(more), []);
    Parts(firm, later, mark);
    SetParts(cut, optional, rest, branches, kind);
  }

  lemma Parts<X>(a: seq<X>, b: seq<X>, c: seq<X>)
    ensures [] + a + (b + c) == a + b + c && [] + a + b == a + b
  {
  }

  lemma SetParts(a: set<Range>, b: set<Range>, c: set<Range>, d: set<Range>, e: set<Range>)
    ensures a + b + (c + d + e) == (b + c) + (a + d) + e
  {
  }

  lemma ArmsAre(arms: seq<Arm>, at: nat)
    requires arms != []
    ensures var (body, more) := (arms[0].body, arms[1..]);
            ArmsHold(arms) == Held(body) + ArmsHold(more) &&
            ArmsFirm(arms, at) == AllFirm(body, at) + ArmsFirm(more, at + |Held(body)|) &&
            ArmsOptional(arms, at) == Optional(body, at) + ArmsOptional(more, at + |Held(body)|)
  {
    hide Held, AllFirm, Optional;
  }

  lemma SameBegun(f: Frame, g: Frame)
    requires AndOr.SameFrame(f, g)
    ensures Begun(g) == Begun(f)
  {
  }

  lemma BranchesFirst(arms: seq<Arm>, branch: Option<nat>, at: nat)
    requires arms != []
    ensures SetOf(Branches(arms, branch, at)) ==
            (if Joined(arms[0], branch) then {} else SetOf(Cut(branch, at))) +
            SetOf(Branches(arms[1..],
                           if Joined(arms[0], branch) then branch else if arms[0].more then Some(at) else None,
                           at + |Held(arms[0].body)|))
  {
  }

  // ---- whole parses ---------------------------------------------------------------------------------

  /**
    For every text of nested lists, compound commands and scripts: the parse holds its commands
    in order; the scopes that are not merely optional are its subshells, scripts and loops and
    no others, in the order in which they end; and every branch is a range that may be left out.
   */
  lemma EveryParseIsMarked(nodes: seq<Node>)
    ensures var p := ParseList(EMPTY, Events(nodes)).parsed;
            p.commands == Held(nodes) && AllNumbered(p) && Firm(Marks(p)) == AllFirm(nodes, 0) &&
            AllIn(Optional(nodes, 0), Marks(p))
  {
    hide ParseList, Held, AllFirm, Optional, Events;
    ReadList(EMPTY, nodes);
    var l := ParseList(EMPTY, Events(nodes));
    var marks :| Adds(EMPTY, l, Held(nodes), marks) && Firm(marks) == AllFirm(nodes, 0) &&
                 AllIn(Optional(nodes, 0), marks);
    NoMarks();
    assert Marks(l.parsed) == marks;
  }

  /** A scope recorded since `log` with this range and guard. */
  ghost predicate Recorded(log: Log, l: Log, r: Range, kind: Guard) {
    exists n: nat :: |log.parsed.scopes| <= n < |l.parsed.scopes| && l.parsed.scopes[n] == r &&
      n in l.parsed.guards && l.parsed.guards[n] == kind
  }

  lemma MarkedIsRecorded(log: Log, l: Log, commands: seq<Command>, marks: seq<Mark>, r: Range, kind: Guard)
    requires Adds(log, l, commands, marks) && Mark(r, Some(kind), false, []) in marks
    ensures Recorded(log, l, r, kind)
  {
    var k :| 0 <= k < |marks| && marks[k] == Mark(r, Some(kind), false, []);
    var n: nat := |log.parsed.scopes| + k;
    assert Marks(l.parsed)[n] == marks[k] && |Marks(l.parsed)| == |l.parsed.scopes|;
    assert MarkOf(l.parsed, n) == marks[k];
  }

  lemma {:induction false} FirmIn(marks: seq<Mark>, m: Mark)
    requires m in Firm(marks)
    ensures m in marks
    decreases marks
  {
    if m != marks[0] { FirmIn(marks[1..], m); }
  }

  /**
    A compound command that holds a command is a range exactly over its commands, of the kind
    it was entered with; and each of its branches that holds one is a `maybe` range.
   */
  lemma KindIsRecorded(log: Log, frames: seq<Frame>, node: Node, tail: seq<Event>) returns (l: Log)
    requires AllNumbered(log.parsed) && node.Compound? && frames != []
    ensures Feed(State(log, frames), NodeEvents(node) + tail) == Feed(State(l, frames), tail)
    ensures Now(l) == Now(log) + |NodeCommands(node)|
    ensures node.kind.Some? && NodeCommands(node) != [] ==>
              Recorded(log, l, (Now(log), Now(l)), node.kind.value)
    ensures forall r :: r in Branches(node.arms, None, Now(log) + |Held(node.first)|) ==> Recorded(log, l, r, Maybe)
  {
    hide Feed, AllFirm, Optional, ArmsFirm, ArmsOptional, Held, ArmsHold, Events, ArmEvents, Branches, Recorded, Marks,
      AllNumbered;
    l := ReadCompound(log, frames, node, tail);
    var firm, optional := NodeFirm(node, Now(log)), NodeOptional(node, Now(log));
    CensusNumbers(log, l, NodeCommands(node), firm, optional);
    var marks :| Adds(log, l, NodeCommands(node), marks) && Firm(marks) == firm && AllIn(optional, marks);
    if node.kind.Some? && NodeCommands(node) != [] {
      var mark := Mark((Now(log), Now(l)), node.kind, false, []);
      if node.kind.value.Loop? {
        assert FrameMark(node.kind, Now(log), Now(l)) == [mark];
        assert Firm([mark]) == [mark] by { FirmFirst(mark, []); FirmNone(); assert [mark] + [] == [mark]; }
        assert firm[|firm| - 1] == mark;
        FirmIn(marks, mark);
      } else {
        assert mark == MaybeMark(mark.range) && mark.range in optional;
      }
      MarkedIsRecorded(log, l, NodeCommands(node), marks, mark.range, node.kind.value);
    }
    forall r | r in Branches(node.arms, None, Now(log) + |Held(node.first)|) ensures Recorded(log, l, r, Maybe) {
      assert r in optional;
      MarkedIsRecorded(log, l, NodeCommands(node), marks, r, Maybe);
    }
  }
}
