/**
  What `ParseResult.guard`, `ParseResult.merge` and the methods of `Guards`
  (ember_armor/ledger/shell/core.py) do, on values.  The classes of the module `Guards`
  work in place and are proved against these functions.
 */
module Ranges {
  import opened Prelude
  import opened Paths
  import opened Moves
  import opened Scopes

  datatype Operator = AndThen | OrElse

  /** Where a range begins.  `born` numbers the ranges in the order in which they open; the
      source does not keep it, and it only serves to say which of two ranges is the outer. */
  datatype Start = Start(low: nat, born: nat)

  /** A parse result, with the number of each scope's opening. */
  datatype Log = Log(parsed: Parsed, born: seq<nat>, clock: nat)

  /** `_Frame`, without the name of a function and without `tails`. */
  datatype Frame = Frame(
    tag: string, kind: Option<Guard>, low: Start,
    seen: nat, plain: bool, open: seq<Start>, endsOn: Option<Operator>, branch: Option<Start>)

  datatype State = State(log: Log, frames: seq<Frame>)

  const EMPTY := Log(Parsed([], [], map[], {}, map[]), [], 0)

  function Now(log: Log): nat { |log.parsed.commands| }

  function Opened(log: Log): Start { Start(Now(log), log.clock) }

  function Tick(log: Log): Log { log.(clock := log.clock + 1) }

  function NewFrame(log: Log, tag: string, kind: Option<Guard>): Frame {
    Frame(tag, kind, Opened(log), Now(log), false, [], None, None)
  }

  // ---- ParseResult -------------------------------------------------------------

  function AddCommand(log: Log, c: Command): Log {
    log.(parsed := log.parsed.(commands := log.parsed.commands + [c]))
  }

  function AddScope(log: Log, low: Start): Log {
    log.(parsed := log.parsed.(scopes := log.parsed.scopes + [(low.low, Now(log))]), born := log.born + [low.born])
  }

  /** `guard` */
  function Record(log: Log, low: Start, kind: Guard): Log {
    if Now(log) <= low.low then log
    else
      var added := AddScope(log, low);
      added.(parsed := added.parsed.(guards := log.parsed.guards[|log.parsed.scopes| := kind]))
  }

  function Shifted(scopes: seq<Range>, offset: nat): (r: seq<Range>)
    ensures |r| == |scopes|
  {
    seq(|scopes|, n requires 0 <= n < |scopes| => (scopes[n].0 + offset, scopes[n].1 + offset))
  }

  function Later(born: seq<nat>, shift: nat): seq<nat> {
    seq(|born|, n requires 0 <= n < |born| => born[n] + shift)
  }

  function Numbers(numbers: set<nat>, first: nat): (r: set<nat>)
    ensures forall n :: n in r ==> n >= first && n - first in numbers
  {
    set k | k in numbers :: k + first
  }

  function Renumbered<T>(m: map<nat, T>, first: nat): map<nat, T> {
    map n | n in Numbers(m.Keys, first) :: m[n - first]
  }

  /** The scopes of a script come before the script itself. */
  function MergedScopes(scopes: seq<Range>, inner: seq<Range>, offset: nat, size: nat): seq<Range> {
    scopes + Shifted(inner, offset) + [(offset, offset + size)]
  }

  function MergedBorn(born: seq<nat>, inner: seq<nat>, clock: nat): seq<nat> {
    born + Later(inner, clock + 1) + [clock]
  }

  /** The dictionaries of a merge, with the scopes of the script numbered from `first`. */
  function MergedParse(p: Parsed, q: Parsed, chain: seq<Target>, keep: bool): Parsed {
    var first, number := |p.scopes|, |p.scopes| + |q.scopes|;
    var entered := p.entered + Renumbered(q.entered, first);
    var kept := p.kept + Numbers(q.kept, first);
    Parsed(p.commands + q.commands,
           MergedScopes(p.scopes, q.scopes, |p.commands|, |q.commands|),
           p.guards + Renumbered(q.guards, first),
           if keep then kept + {number} else kept,
           if chain != [] then entered[number := chain] else entered)
  }

  /** `merge` */
  function Merge(log: Log, other: Log, chain: seq<Target>, keep: bool): Log {
    Log(MergedParse(log.parsed, other.parsed, chain, keep),
        MergedBorn(log.born, other.born, log.clock),
        log.clock + 1 + other.clock)
  }

  // ---- Guards --------------------------------------------------------------------

  /** The loop of `_close`: the innermost range first. */
  function RecordAll(log: Log, open: seq<Start>): Log
    decreases open
  {
    if open == [] then log else RecordAll(Record(log, Last(open), Maybe), Init(open))
  }

  /** `_close` ends ranges: those that `operator` ends, or all of them. */
  predicate Ends(f: Frame, operator: Option<Operator>) { operator.None? || f.endsOn == operator }

  function Close(log: Log, f: Frame, operator: Option<Operator>): (Log, Frame) {
    if Ends(f, operator) then (RecordAll(log, f.open), f.(open := [])) else (log, f)
  }

  predicate CanFail(commands: seq<Command>) { exists k :: 0 <= k < |commands| && !commands[k].Move? }

  function Read(log: Log, from: nat): seq<Command> {
    if from <= Now(log) then log.parsed.commands[from..] else []
  }

  function Link(log: Log, frame: Frame, operator: Operator): (Log, Frame) {
    var (l, f) := Close(log, frame, Some(operator));
    var plain := f.plain || CanFail(Read(l, f.seen));
    var g := f.(plain := plain, seen := Now(l));
    if operator.OrElse? then (Tick(l), g.(open := g.open + [Opened(l)], endsOn := Some(AndThen)))
    else if plain then (Tick(l), g.(open := g.open + [Opened(l)], endsOn := Some(OrElse), plain := false))
    else (l, g)
  }

  function Reset(log: Log, f: Frame): Frame { f.(seen := Now(log), plain := false) }

  function EndList(log: Log, frame: Frame): (Log, Frame) {
    var (l, f) := Close(log, frame, None);
    (l, Reset(l, f))
  }

  function EndBranch(log: Log, f: Frame): Log {
    if f.branch.Some? then Record(log, f.branch.value, Maybe) else log
  }

  /** `_leave` */
  function LeaveFrame(log: Log, frame: Frame): Log {
    var (l, f) := Close(log, frame, None);
    var m := EndBranch(l, f);
    if f.kind.Some? then Record(m, f.low, f.kind.value) else m
  }

  /** Leave frames until `count` are left. */
  function LeaveTo(s: State, count: nat): (r: State)
    requires count <= |s.frames|
    ensures r.frames == s.frames[..count]
    decreases |s.frames|
  {
    if |s.frames| == count then s
    else LeaveTo(State(LeaveFrame(s.log, Last(s.frames)), Init(s.frames)), count)
  }

  /** The innermost frame with this tag; 0, the list itself, when there is none. */
  function Innermost(frames: seq<Frame>, tag: string): (i: nat)
    requires frames != []
    ensures i < |frames|
    decreases frames
  {
    if |frames| == 1 then 0
    else if Last(frames).tag == tag then |frames| - 1
    else Innermost(Init(frames), tag)
  }

  function LeaveTag(s: State, tag: string): (r: State)
    requires s.frames != []
    ensures r.frames != []
  {
    var i := Innermost(s.frames, tag);
    if i == 0 then s else LeaveTo(s, i)
  }

  function Branch(s: State, tag: string, more: bool, openOne: bool): (r: State)
    requires s.frames != []
    ensures r.frames != []
  {
    var i := Innermost(s.frames, tag);
    if i == 0 || (openOne && s.frames[i].branch.Some?) then s
    else
      var t := LeaveTo(s, i + 1);
      var (l, f) := Close(t.log, Last(t.frames), None);
      var m := EndBranch(l, f);
      if more then State(Tick(m), Init(t.frames) + [Reset(m, f.(branch := Some(Opened(m))))])
      else State(m, Init(t.frames) + [Reset(m, f.(branch := None))])
  }

  function Finish(s: State): Log
    requires s.frames != []
  {
    var t := LeaveTo(s, 1);
    Close(t.log, t.frames[0], None).0
  }

  // ---- a whole parse ----------------------------------------------------------------

  /** What a parser reports.  `List` is a nested list of the same script, in a process of
      its own when `own`; `Script` is a nested shell or, with `keep`, an `eval`. */
  datatype Event =
    | Reported(c: Command)
    | Linked(operator: Operator)
    | Noted
    | Ended
    | Entered(tag: string, kind: Option<Guard>)
    | Branched(tag: string, more: bool, openOne: bool)
    | Left(tag: string)
    | List(inner: seq<Event>, own: bool)
    | Script(script: seq<Event>, chain: seq<Target>, keep: bool)

  function OnTop(frames: seq<Frame>, r: (Log, Frame)): State
    requires frames != []
  {
    State(r.0, Init(frames) + [r.1])
  }

  /** One event. */
  function Next(s: State, event: Event): (r: State)
    requires s.frames != []
    ensures r.frames != []
    decreases event, 0
  {
    var top := Last(s.frames);
    match event
    case Reported(c) => State(AddCommand(s.log, c), s.frames)
    case Linked(operator) => OnTop(s.frames, Link(s.log, top, operator))
    case Noted => OnTop(s.frames, (s.log, top.(plain := true)))
    case Ended => OnTop(s.frames, EndList(s.log, top))
    case Entered(tag, kind) => State(Tick(s.log), s.frames + [NewFrame(s.log, tag, kind)])
    case Branched(tag, more, openOne) => Branch(s, tag, more, openOne)
    case Left(tag) => LeaveTag(s, tag)
    case List(inner, own) =>
      var l := ParseList(Tick(s.log), inner);
      State(if own then AddScope(l, Opened(s.log)) else l, s.frames)
    case Script(script, chain, keep) => State(Merge(s.log, ParseList(EMPTY, script), chain, keep), s.frames)
  }

  function Feed(s: State, events: seq<Event>): (r: State)
    requires s.frames != []
    ensures r.frames != []
    decreases events, 0
  {
    if events == [] then s else Feed(Next(s, events[0]), events[1..])
  }

  /** One list, with a `Guards` of its own. */
  function ParseList(log: Log, events: seq<Event>): Log
    decreases events, 1
  {
    Finish(Feed(State(Tick(log), [NewFrame(log, "", None)]), events))
  }
}
