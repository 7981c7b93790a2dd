/**
  And-or lists: what a shell really executes of `a && b || c ...` is what the `maybe`
  ranges allow that `Guards.link` and `Guards.finish` record (ember_armor/ledger/shell/core.py).
 */
module AndOr {
  import opened Prelude
  import opened Moves
  import opened Scopes
  import opened Ranges
  import opened Lists

  // ---- the ranges explain it -------------------------------------------------------------

  predicate Holds(r: Range, j: nat) { r.0 <= j < r.1 }

  /** The ranges recorded since `base`. */
  function Recent(base: Log, log: Log): seq<Range>
    requires |base.parsed.scopes| <= |log.parsed.scopes|
  {
    log.parsed.scopes[|base.parsed.scopes|..]
  }

  /** Command `j` ran exactly if every recorded range around it and every range still open
      was entered. */
  predicate Explained(recent: seq<Range>, chosen: seq<bool>, open: seq<Start>, entered: seq<bool>, j: nat, ran: bool)
    requires |recent| == |chosen| && |open| == |entered|
  {
    ran <==>
    (forall n :: 0 <= n < |recent| && Holds(recent[n], j) ==> chosen[n]) &&
    (forall k :: 0 <= k < |open| && open[k].low <= j ==> entered[k])
  }

  /** The recorded and the open ranges explain which of the commands from `from` up to `now` ran. */
  predicate ExplainsAll(recent: seq<Range>, chosen: seq<bool>, open: seq<Start>, entered: seq<bool>,
                        from: nat, now: nat, ran: seq<bool>) {
    |recent| == |chosen| && |open| == |entered| && now == from + |ran| &&
    (forall n :: 0 <= n < |recent| ==> recent[n].1 <= now) &&
    (forall k :: 0 <= k < |open| ==> open[k].low <= now) &&
    (forall j :: 0 <= j < |ran| ==> Explained(recent, chosen, open, entered, from + j, ran[j]))
  }

  predicate All(flags: seq<bool>) { forall k :: 0 <= k < |flags| ==> flags[k] }

  /** Reading on: the next commands run exactly if every open range was entered. */
  lemma ExplainsMore(recent: seq<Range>, chosen: seq<bool>, open: seq<Start>, entered: seq<bool>,
                     from: nat, now: nat, ran: seq<bool>, runs: bool, n: nat)
    requires ExplainsAll(recent, chosen, open, entered, from, now, ran) && runs == All(entered)
    ensures ExplainsAll(recent, chosen, open, entered, from, now + n, ran + Repeat(runs, n))
  {
    var longer := ran + Repeat(runs, n);
    forall j | 0 <= j < |longer| ensures Explained(recent, chosen, open, entered, from + j, longer[j]) {
      if j < |ran| { assert Explained(recent, chosen, open, entered, from + j, ran[j]); }
    }
  }

  /** A new range opens. */
  lemma ExplainsOpen(recent: seq<Range>, chosen: seq<bool>, open: seq<Start>, entered: seq<bool>,
                     from: nat, now: nat, ran: seq<bool>, start: Start, into: bool)
    requires ExplainsAll(recent, chosen, open, entered, from, now, ran) && start.low == now
    ensures ExplainsAll(recent, chosen, open + [start], entered + [into], from, now, ran)
  {
    forall j | 0 <= j < |ran| ensures Explained(recent, chosen, open + [start], entered + [into], from + j, ran[j]) {
      assert Explained(recent, chosen, open, entered, from + j, ran[j]);
      assert forall k :: 0 <= k < |open| ==> (open + [start])[k] == open[k] && (entered + [into])[k] == entered[k];
    }
  }

  /** The innermost open range ends here: it is recorded when it holds a command. */
  lemma ExplainsRecord(recent: seq<Range>, chosen: seq<bool>, open: seq<Start>, entered: seq<bool>,
                       from: nat, now: nat, ran: seq<bool>)
    requires ExplainsAll(recent, chosen, open, entered, from, now, ran) && open != []
    ensures now <= Last(open).low ==> ExplainsAll(recent, chosen, Init(open), Init(entered), from, now, ran)
    ensures now > Last(open).low ==>
              ExplainsAll(recent + [(Last(open).low, now)], chosen + [Last(entered)], Init(open), Init(entered),
                from, now, ran)
  {
    var last := |open| - 1;
    var more, choices := recent + [(Last(open).low, now)], chosen + [Last(entered)];
    forall j | 0 <= j < |ran|
      ensures now <= Last(open).low ==> Explained(recent, chosen, Init(open), Init(entered), from + j, ran[j])
      ensures now > Last(open).low ==> Explained(more, choices, Init(open), Init(entered), from + j, ran[j])
    {
      assert Explained(recent, chosen, open, entered, from + j, ran[j]);
      assert forall k :: 0 <= k < last ==> open[k] == Init(open)[k] && entered[k] == Init(entered)[k];
      assert Holds(more[|recent|], from + j) <==> open[last].low <= from + j;
      assert forall n :: 0 <= n < |recent| ==> more[n] == recent[n] && choices[n] == chosen[n];
    }
  }

  /** The commands read since `base` are explained, and only `maybe` ranges are left out. */
  predicate Explains(base: Log, log: Log, open: seq<Start>, chosen: seq<bool>, entered: seq<bool>, ran: seq<bool>) {
    |base.parsed.scopes| <= |log.parsed.scopes| &&
    ExplainsAll(Recent(base, log), chosen, open, entered, Now(base), Now(log), ran) &&
    forall n :: 0 <= n < |chosen| && !chosen[n] ==> MaybeRange(log, |base.parsed.scopes| + n)
  }

  predicate MaybeRange(log: Log, n: nat) { n in log.parsed.guards && log.parsed.guards[n].Maybe? }

  /** The ranges of one frame end, those under it stay open. */
  lemma {:induction false} ExplainsClosed(
    base: Log, log: Log, under: seq<Start>, open: seq<Start>, chosen: seq<bool>, below: seq<bool>, entered: seq<bool>,
    ran: seq<bool>)
      returns (choices: seq<bool>)
    requires Explains(base, log, under + open, chosen, below + entered, ran) && |under| == |below|
    requires Numbered(log)
    ensures Explains(base, RecordAll(log, open), under, choices, below, ran)
    ensures RecordAll(log, open).parsed.commands == log.parsed.commands && Numbered(RecordAll(log, open))
    decreases open
  {
    hide ExplainsAll;
    choices := chosen;
    if open == [] {
      LengthsAgree(base, log, under + open, chosen, below + entered, ran);
      assert under + open == under && below + entered == below;
    } else {
      LengthsAgree(base, log, under + open, chosen, below + entered, ran);
      assert Init(under + open) == under + Init(open) && Last(under + open) == Last(open);
      assert Init(below + entered) == below + Init(entered) && Last(below + entered) == Last(entered);
      ExplainsRecord(Recent(base, log), chosen, under + open, below + entered, Now(base), Now(log), ran);
      var next := Record(log, Last(open), Maybe);
      if next != log {
        assert Recent(base, next) == Recent(base, log) + [(Last(open).low, Now(log))];
        choices := chosen + [Last(entered)];
      }
      choices := ExplainsClosed(base, next, under, Init(open), choices, below, Init(entered), ran);
    }
  }

  lemma LengthsAgree(base: Log, log: Log, open: seq<Start>, chosen: seq<bool>, entered: seq<bool>, ran: seq<bool>)
    requires Explains(base, log, open, chosen, entered, ran)
    ensures |open| == |entered| && |chosen| == |log.parsed.scopes| - |base.parsed.scopes|
  {
  }

  /** The guards are those of recorded scopes. */
  predicate Numbered(log: Log) { forall n :: n in log.parsed.guards ==> n < |log.parsed.scopes| }

  // ---- operators -------------------------------------------------------------------------

  /** Something the frame's list read since the last range opened can fail. */
  predicate Noticed(log: Log, f: Frame) { f.plain || CanFail(Read(log, f.seen)) }

  predicate Sane(log: Log, f: Frame) { f.seen <= Now(log) && (f.open != [] ==> f.endsOn.Some?) }

  /** What the status of the list says of its open ranges, which all end on one operator. */
  predicate Flows(f: Frame, entered: seq<bool>, status: bool) {
    !All(entered) ==> status == (f.endsOn == Some(AndThen))
  }

  /** A list of which nothing failing was read goes on. */
  predicate Hears(log: Log, f: Frame, entered: seq<bool>, status: bool) { All(entered) && !Noticed(log, f) ==> status }

  /** Only what reading a list changes. */
  predicate SameFrame(f: Frame, g: Frame) {
    g.tag == f.tag && g.kind == f.kind && g.low == f.low && g.branch == f.branch
  }

  lemma AllMore(flags: seq<bool>, flag: bool)
    ensures All(flags + [flag]) == (All(flags) && flag)
  {
    AllJoin(flags, [flag]);
    assert [flag][0] == flag;
  }

  lemma AllJoin(a: seq<bool>, b: seq<bool>)
    ensures All(a + b) == (All(a) && All(b))
  {
    if All(a + b) {
      forall k | 0 <= k < |a| ensures a[k] { assert (a + b)[k]; }
      forall k | 0 <= k < |b| ensures b[k] { assert (a + b)[|a| + k]; }
    }
  }

  lemma Closes(base: Log, log: Log, f: Frame, under: seq<Start>, chosen: seq<bool>, below: seq<bool>,
      entered: seq<bool>, ran: seq<bool>, operator: Option<Operator>)
      returns (choices: seq<bool>, inside: seq<bool>)
    requires Explains(base, log, under + f.open, chosen, below + entered, ran) && |under| == |below| && Numbered(log)
    ensures inside == if Ends(f, operator) then [] else entered
    ensures var (l, h) := Close(log, f, operator);
            Explains(base, l, under + h.open, choices, below + inside, ran) && Numbered(l) &&
            l.parsed.commands == log.parsed.commands
  {
    hide Explains, RecordAll;
    choices, inside := chosen, entered;
    if Ends(f, operator) {
      choices := ExplainsClosed(base, log, under, f.open, chosen, below, entered, ran);
      inside := [];
      assert under + [] == under && below + [] == below;
    }
  }

  lemma RangeOpens(base: Log, log: Log, open: seq<Start>, chosen: seq<bool>, entered: seq<bool>, ran: seq<bool>,
      into: bool)
    requires Explains(base, log, open, chosen, entered, ran)
    ensures Explains(base, Tick(log), open + [Opened(log)], chosen, entered + [into], ran)
  {
    ExplainsOpen(Recent(base, log), chosen, open, entered, Now(base), Now(log), ran, Opened(log), into);
  }

  /** What the status says of the ranges that an operator leaves open, and of those it ends. */
  lemma FlowsOn(f: Frame, entered: seq<bool>, status: bool, operator: Operator)
    requires |entered| == |f.open| && (f.open != [] ==> f.endsOn.Some?) && Flows(f, entered, status)
    ensures var inside := if Ends(f, Some(operator)) then [] else entered;
            (!All(inside) ==> status != operator.AndThen?) &&
            (All(inside) && !All(entered) ==> status == operator.AndThen?)
  {
    if !All(entered) {
      assert f.open != [];
      match f.endsOn.value { case AndThen => assert status; case OrElse => assert !status; }
    }
  }

  /** After an operator, the next item runs exactly if all open ranges are entered. */
  lemma Links(base: Log, log: Log, f: Frame, under: seq<Start>, chosen: seq<bool>, below: seq<bool>, entered: seq<bool>,
      ran: seq<bool>, status: bool, operator: Operator)
      returns (choices: seq<bool>, inside: seq<bool>)
    requires Explains(base, log, under + f.open, chosen, below + entered, ran) && |under| == |below|
    requires Numbered(log) && Sane(log, f)
    requires All(below) ==> Flows(f, entered, status) && (operator.AndThen? ==> Hears(log, f, entered, status))
    ensures var (l, g) := Link(log, f, operator);
            Explains(base, l, under + g.open, choices, below + inside, ran) && Numbered(l) && Sane(l, g) &&
            l.parsed.commands == log.parsed.commands && g.seen == Now(l) && SameFrame(f, g) &&
            (All(below) ==> All(inside) == (operator.AndThen? == status) && Flows(g, inside, status))
  {
    LengthsAgree(base, log, under + f.open, chosen, below + entered, ran);
    hide Explains, CanFail, RecordAll;
    var (l, h) := Close(log, f, Some(operator));
    choices, inside := Closes(base, log, f, under, chosen, below, entered, ran, Some(operator));
    assert Noticed(l, h) == Noticed(log, f);
    if All(below) { FlowsOn(f, entered, status, operator); }
    if operator.OrElse? || Noticed(l, h) {
      var into := All(below) ==> operator.AndThen? == status;
      RangeOpens(base, l, under + h.open, choices, below + inside, ran, into);
      assert under + h.open + [Opened(l)] == under + (h.open + [Opened(l)]);
      assert below + inside + [into] == below + (inside + [into]);
      AllMore(inside, into);
      inside := inside + [into];
    }
  }

  /** What is read behind a ";" or an operator. */
  function Behind(log: Log, f: Frame, link: Option<Operator>): (Log, Frame) {
    if link.None? then EndList(log, f) else Link(log, f, link.value)
  }

  lemma GoesBehind(base: Log, log: Log, f: Frame, under: seq<Start>, chosen: seq<bool>, below: seq<bool>,
      entered: seq<bool>, ran: seq<bool>, status: bool, link: Option<Operator>)
      returns (choices: seq<bool>, inside: seq<bool>)
    requires Explains(base, log, under + f.open, chosen, below + entered, ran) && |under| == |below|
    requires Numbered(log) && Sane(log, f)
    requires All(below) ==> Flows(f, entered, status) && (link == Some(AndThen) ==> Hears(log, f, entered, status))
    ensures var (l, g) := Behind(log, f, link);
            Explains(base, l, under + g.open, choices, below + inside, ran) && Numbered(l) && Sane(l, g) &&
            l.parsed.commands == log.parsed.commands && g.seen == Now(l) && SameFrame(f, g) &&
            All(below + inside) == (All(below) && GoesOn(link, status)) && (All(below) ==> Flows(g, inside, status))
  {
    hide Explains, Link, RecordAll, Numbered;
    if link.None? {
      choices, inside := Closes(base, log, f, under, chosen, below, entered, ran, None);
    } else {
      choices, inside := Links(base, log, f, under, chosen, below, entered, ran, status, link.value);
    }
    AllJoin(below, inside);
  }

  // ---- items -------------------------------------------------------------------------------

  function Reads(log: Log, commands: seq<Command>): Log {
    log.(parsed := log.parsed.(commands := log.parsed.commands + commands))
  }

  lemma {:induction false} FeedCommands(s: State, commands: seq<Command>, tail: seq<Event>)
    requires s.frames != []
    ensures Feed(s, CommandEvents(commands) + tail) == Feed(State(Reads(s.log, commands), s.frames), tail)
    decreases commands
  {
    var events := CommandEvents(commands) + tail;
    if commands == [] {
      assert events == tail && Reads(s.log, commands) == s.log;
    } else {
      assert events[0] == Reported(commands[0]) && events[1..] == CommandEvents(commands[1..]) + tail;
      var next := State(AddCommand(s.log, commands[0]), s.frames);
      assert s.log.parsed.commands + [commands[0]] + commands[1..] == s.log.parsed.commands + commands;
      FeedCommands(next, commands[1..], tail);
    }
  }

  /** One event more. */
  lemma FeedFirst(s: State, event: Event, events: seq<Event>, tail: seq<Event>)
    requires s.frames != []
    ensures Feed(s, [event] + events + tail) == Feed(Next(s, event), events + tail)
  {
    hide Next;
    var all := [event] + events + tail;
    assert all[0] == event && all[1..] == events + tail;
  }

  // ---- what the parser makes of items -----------------------------------------------------------

  /** The events of an item change the top frame and what is recorded; the frames below stay. */
  function ReadItem(log: Log, f: Frame, item: Item): (Log, Frame)
    decreases item
  {
    match item
    case Plain(commands, test, _) => (Reads(log, commands), if test then f.(plain := true) else f)
    case Group(tag, inner) =>
      var (l, h) := ReadBody(Tick(log), NewFrame(log, tag, None), inner);
      (RecordAll(l, h.open), f)
    case Sub(inner) =>
      var (l, h) := ReadBody(Tick(Tick(log)), NewFrame(Tick(log), "", None), inner);
      (AddScope(RecordAll(l, h.open), Opened(log)), f)
  }

  function ReadBody(log: Log, f: Frame, body: Body): (Log, Frame)
    decreases body
  {
    var (l, g) := ReadItem(log, f, body.first);
    ReadRest(l, g, body.rest)
  }

  function ReadRest(log: Log, f: Frame, rest: Rest): (Log, Frame)
    decreases rest
  {
    if rest.Nothing? then (log, f)
    else
      var (m, h) := Behind(log, f, rest.link);
      var (l, g) := ReadItem(m, h, rest.item);
      ReadRest(l, g, rest.rest)
  }

  lemma FeedPlain(log: Log, outer: seq<Frame>, f: Frame, item: Item, tail: seq<Event>)
    requires item.Plain?
    ensures var g := if item.test then f.(plain := true) else f;
            Feed(State(log, outer + [f]), ItemEvents(item) + tail) ==
              Feed(State(Reads(log, item.commands), outer + [g]), tail)
  {
    var g := if item.test then f.(plain := true) else f;
    var events := CommandEvents(item.commands);
    if item.test {
      FeedFirst(State(log, outer + [f]), Noted, events, tail);
      assert Init(outer + [f]) == outer && Last(outer + [f]) == f;
    } else {
      assert ItemEvents(item) + tail == events + tail;
    }
    FeedCommands(State(log, outer + [g]), item.commands, tail);
  }

  lemma ReadsExplained(base: Log, log: Log, open: seq<Start>, chosen: seq<bool>, entered: seq<bool>, ran: seq<bool>,
                       commands: seq<Command>)
    requires Explains(base, log, open, chosen, entered, ran)
    ensures Explains(base, Reads(log, commands), open, chosen, entered, ran + Repeat(All(entered), |commands|))
  {
    ExplainsMore(Recent(base, log), chosen, open, entered, Now(base), Now(log), ran, All(entered), |commands|);
    assert Recent(base, Reads(log, commands)) == Recent(base, log);
  }

  // ---- groups and subshells ------------------------------------------------------------------

  lemma TickExplained(base: Log, log: Log, open: seq<Start>, chosen: seq<bool>, entered: seq<bool>, ran: seq<bool>)
    requires Explains(base, log, open, chosen, entered, ran)
    ensures Explains(base, Tick(log), open, chosen, entered, ran)
  {
    assert Recent(base, Tick(log)) == Recent(base, log);
  }

  /** A process of its own is recorded, and always entered. */
  lemma OwnExplained(base: Log, log: Log, open: seq<Start>, chosen: seq<bool>, entered: seq<bool>, ran: seq<bool>,
      low: Start)
    requires Explains(base, log, open, chosen, entered, ran)
    ensures Explains(base, AddScope(log, low), open, chosen + [true], entered, ran)
  {
    var after, choices := AddScope(log, low), chosen + [true];
    var recent := Recent(base, log);
    assert Recent(base, after) == recent + [(low.low, Now(log))];
    forall j | 0 <= j < |ran| ensures Explained(Recent(base, after), choices, open, entered, Now(base) + j, ran[j]) {
      assert Explained(recent, chosen, open, entered, Now(base) + j, ran[j]);
      assert forall n :: 0 <= n < |recent| ==> Recent(base, after)[n] == recent[n] && choices[n] == chosen[n];
    }
    forall n | 0 <= n < |choices| && !choices[n] ensures MaybeRange(after, |base.parsed.scopes| + n) {
      assert !chosen[n];
    }
  }

  lemma GroupEnters(log: Log, frames: seq<Frame>, tag: string, inner: Body, tail: seq<Event>)
    requires frames != []
    ensures Feed(State(log, frames), ItemEvents(Group(tag, inner)) + tail)
         == Feed(State(Tick(log), frames + [NewFrame(log, tag, None)]), BodyEvents(inner) + ([Left(tag)] + tail))
  {
    var events := BodyEvents(inner) + [Left(tag)];
    FeedFirst(State(log, frames), Entered(tag, None), events, tail);
    assert [Entered(tag, None)] + events == ItemEvents(Group(tag, inner));
    assert events + tail == BodyEvents(inner) + ([Left(tag)] + tail);
  }

  lemma GroupLeaves(log: Log, frames: seq<Frame>, h: Frame, tag: string, tail: seq<Event>)
    requires frames != [] && h.tag == tag && h.kind.None? && h.branch.None?
    ensures Feed(State(log, frames + [h]), [Left(tag)] + tail) == Feed(State(RecordAll(log, h.open), frames), tail)
  {
    hide RecordAll;
    var s := State(log, frames + [h]);
    FeedFirst(s, Left(tag), [], tail);
    assert [Left(tag)] + [] + tail == [Left(tag)] + tail && [] + tail == tail;
    assert Last(s.frames) == h && Init(s.frames) == frames && Innermost(s.frames, tag) == |frames|;
    assert LeaveTo(s, |frames|) == LeaveTo(State(LeaveFrame(log, h), frames), |frames|);
  }

  /** A ";" or a newline before a closing brace, or at the end of a list, changes nothing. */
  lemma SeparatorBeforeClose(s: State, tag: string)
    requires s.frames != []
    ensures Last(s.frames).tag == tag && |s.frames| > 1 ==> Next(Next(s, Ended), Left(tag)) == Next(s, Left(tag))
    ensures |s.frames| == 1 ==> Finish(Next(s, Ended)) == Finish(s)
  {
    hide RecordAll;
    var top, outer := Last(s.frames), Init(s.frames);
    var t := Next(s, Ended);
    var l := RecordAll(s.log, top.open);
    assert t == State(l, outer + [Reset(l, top.(open := []))]);
    assert Last(t.frames).open == [] && Init(t.frames) == outer;
    RecordsNone(l);
    if |s.frames| > 1 && top.tag == tag {
      assert LeaveFrame(t.log, Last(t.frames)) == LeaveFrame(s.log, top);
      var n := |outer|;
      assert Innermost(s.frames, tag) == Innermost(t.frames, tag) == n;
      assert LeaveTo(s, n) == LeaveTo(State(LeaveFrame(s.log, top), outer), n);
      assert LeaveTo(t, n) == LeaveTo(State(LeaveFrame(s.log, top), outer), n);
    }
  }

  lemma RecordsNone(log: Log) ensures RecordAll(log, []) == log {}

  lemma SubReads(log: Log, frames: seq<Frame>, inner: Body, tail: seq<Event>)
    requires frames != []
    ensures Feed(State(log, frames), ItemEvents(Sub(inner)) + tail)
         == Feed(State(AddScope(ParseList(Tick(log), BodyEvents(inner)), Opened(log)), frames), tail)
  {
    hide ParseList;
    FeedFirst(State(log, frames), List(BodyEvents(inner), true), [], tail);
    assert ItemEvents(Sub(inner)) + [] + tail == ItemEvents(Sub(inner)) + tail && [] + tail == tail;
  }

  lemma ListReads(log: Log, events: seq<Event>, l: Log, h: Frame)
    requires Feed(State(Tick(log), [] + [NewFrame(log, "", None)]), events + []) == Feed(State(l, [] + [h]), [])
    ensures ParseList(log, events) == RecordAll(l, h.open)
  {
    assert events + [] == events && [] + [h] == [h] && [] + [NewFrame(log, "", None)] == [NewFrame(log, "", None)];
  }

  lemma FeedBehind(log: Log, outer: seq<Frame>, f: Frame, rest: Rest, tail: seq<Event>)
    requires rest.More?
    ensures var (m, h) := Behind(log, f, rest.link);
            Feed(State(log, outer + [f]), RestEvents(rest) + tail)
            == Feed(State(m, outer + [h]), ItemEvents(rest.item) + (RestEvents(rest.rest) + tail))
  {
    hide ItemEvents, RestEvents, Link, EndList;
    var events := ItemEvents(rest.item) + RestEvents(rest.rest);
    RestBegins(rest);
    FeedFirst(State(log, outer + [f]), LinkEvent(rest.link), events, tail);
    assert events + tail == ItemEvents(rest.item) + (RestEvents(rest.rest) + tail);
    assert Init(outer + [f]) == outer && Last(outer + [f]) == f;
  }

  lemma RestBegins(rest: Rest)
    requires rest.More?
    ensures RestEvents(rest) == [LinkEvent(rest.link)] + (ItemEvents(rest.item) + RestEvents(rest.rest))
  {
    hide ItemEvents;
  }

  lemma {:induction false} FeedItem(log: Log, outer: seq<Frame>, f: Frame, item: Item, tail: seq<Event>)
    requires f.branch.None? && f.kind.None?
    ensures var (l, g) := ReadItem(log, f, item);
            Feed(State(log, outer + [f]), ItemEvents(item) + tail) == Feed(State(l, outer + [g]), tail) &&
              SameFrame(f, g)
    decreases item
  {
    hide Feed, RecordAll, ParseList, Next, BodyEvents;
    match item
    case Plain(_, _, _) => FeedPlain(log, outer, f, item, tail);
    case Group(tag, inner) =>
      GroupEnters(log, outer + [f], tag, inner, tail);
      FeedBody(Tick(log), outer + [f], NewFrame(log, tag, None), inner, [Left(tag)] + tail);
      var (l, h) := ReadBody(Tick(log), NewFrame(log, tag, None), inner);
      GroupLeaves(l, outer + [f], h, tag, tail);
    case Sub(inner) =>
      SubReads(log, outer + [f], inner, tail);
      FeedBody(Tick(Tick(log)), [], NewFrame(Tick(log), "", None), inner, []);
      var (l, h) := ReadBody(Tick(Tick(log)), NewFrame(Tick(log), "", None), inner);
      ListReads(Tick(log), BodyEvents(inner), l, h);
  }

  lemma {:induction false} FeedBody(log: Log, outer: seq<Frame>, f: Frame, body: Body, tail: seq<Event>)
    requires f.branch.None? && f.kind.None?
    ensures var (l, g) := ReadBody(log, f, body);
            Feed(State(log, outer + [f]), BodyEvents(body) + tail) == Feed(State(l, outer + [g]), tail) &&
              SameFrame(f, g)
    decreases body
  {
    hide Feed, ItemEvents, RestEvents, ReadItem, ReadRest;
    assert BodyEvents(body) + tail == ItemEvents(body.first) + (RestEvents(body.rest) + tail);
    FeedItem(log, outer, f, body.first, RestEvents(body.rest) + tail);
    var (l, g) := ReadItem(log, f, body.first);
    FeedRest(l, outer, g, body.rest, tail);
  }

  lemma {:induction false} FeedRest(log: Log, outer: seq<Frame>, f: Frame, rest: Rest, tail: seq<Event>)
    requires f.branch.None? && f.kind.None?
    ensures var (l, g) := ReadRest(log, f, rest);
            Feed(State(log, outer + [f]), RestEvents(rest) + tail) == Feed(State(l, outer + [g]), tail) &&
              SameFrame(f, g)
    decreases rest
  {
    hide Feed, ItemEvents, ReadItem;
    if rest.Nothing? {
      assert RestEvents(rest) + tail == tail;
    } else {
      FeedBehind(log, outer, f, rest, tail);
      var (m, h) := Behind(log, f, rest.link);
      FeedItem(m, outer, h, rest.item, RestEvents(rest.rest) + tail);
      var (l, g) := ReadItem(m, h, rest.item);
      FeedRest(l, outer, g, rest.rest, tail);
    }
  }

  /** A whole list. */
  lemma ListRead(log: Log, body: Body)
    ensures var (l, h) := ReadBody(Tick(log), NewFrame(log, "", None), body);
            ParseList(log, BodyEvents(body)) == RecordAll(l, h.open)
  {
    hide Feed, ParseList, RecordAll, ReadBody, BodyEvents;
    FeedBody(Tick(log), [], NewFrame(log, "", None), body, []);
    var (l, h) := ReadBody(Tick(log), NewFrame(log, "", None), body);
    ListReads(log, BodyEvents(body), l, h);
  }

  // ---- items are explained --------------------------------------------------------------------

  /** What an item that runs, or does not, leaves behind. */
  predicate ItemRead(base: Log, log: Log, f: Frame, under: seq<Start>, below: seq<bool>, entered: seq<bool>,
      ran: seq<bool>, item: Item, choices: seq<bool>) {
    var (l, g) := ReadItem(log, f, item);
    Explains(base, l, under + f.open, choices, below + entered, ran + Ran(item, All(below + entered))) && Numbered(l) &&
    l.parsed.commands == log.parsed.commands + Commands(item) && g == f.(plain := f.plain || (item.Plain? && item.test))
  }

  /** What is known behind the first items of a list, with its frame on top. */
  predicate BodyRead(base: Log, log: Log, under: seq<Start>, below: seq<bool>, commands: seq<Command>, ran: seq<bool>,
                     l: Log, g: Frame, choices: seq<bool>, inside: seq<bool>) {
    Explains(base, l, under + g.open, choices, below + inside, ran) && Numbered(l) && |inside| == |g.open| &&
    l.parsed.commands == log.parsed.commands + commands
  }

  /** An item that is told and ran has ended well, unless the parser noticed something. */
  lemma ItemHeard(log: Log, f: Frame, entered: seq<bool>, item: Item, l: Log, g: Frame)
    requires Possible(item) && f.seen == Now(log) && Sane(log, f)
    requires l.parsed.commands == log.parsed.commands + Commands(item)
    requires g == f.(plain := f.plain || (item.Plain? && item.test))
    ensures Sane(l, g) && (Told(item) ==> Hears(l, g, entered, EndsWell(item)))
  {
    assert Read(l, f.seen) == Commands(item);
    EndsAsItMay(item);
  }

  lemma {:induction false} EndsAsItMay(item: Item)
    requires Possible(item)
    ensures MayEnd(item, EndsWell(item))
    decreases item
  {
    match item
    case Plain(_, _, _) =>
    case Group(_, inner) => EndsAsItMay(inner.first); RestEndsAsItMay(inner.rest, EndsWell(inner.first));
    case Sub(inner) => EndsAsItMay(inner.first); RestEndsAsItMay(inner.rest, EndsWell(inner.first));
  }

  lemma {:induction false} RestEndsAsItMay(rest: Rest, status: bool)
    requires PossibleRest(rest)
    ensures RestMayEnd(rest, status, RestEndsWell(rest, status))
    decreases rest
  {
    if rest.More? {
      EndsAsItMay(rest.item);
      RestEndsAsItMay(rest.rest, if GoesOn(rest.link, status) then EndsWell(rest.item) else status);
    }
  }

  lemma {:induction false} ItemExplained(
    base: Log, log: Log, f: Frame, under: seq<Start>, chosen: seq<bool>, below: seq<bool>, entered: seq<bool>,
    ran: seq<bool>, item: Item)
      returns (choices: seq<bool>)
    requires Explains(base, log, under + f.open, chosen, below + entered, ran) && Numbered(log) && Possible(item) &&
             Heard(item)
    ensures ItemRead(base, log, f, under, below, entered, ran, item, choices)
    decreases item
  {
    hide Explains, RecordAll, ReadBody;
    var open, flags := under + f.open, below + entered;
    LengthsAgree(base, log, open, chosen, flags, ran);
    match item
    case Plain(commands, _, _) =>
      ReadsExplained(base, log, open, chosen, flags, ran, commands);
      choices := chosen;
    case Group(tag, inner) =>
      var nf := NewFrame(log, tag, None);
      TickExplained(base, log, open, chosen, flags, ran);
      var inside;
      choices, inside := BodyExplained(base, Tick(log), nf, open, chosen, flags, ran, inner);
      var (l, h) := ReadBody(Tick(log), nf, inner);
      choices := ExplainsClosed(base, l, open, h.open, choices, flags, inside, ran + BodyRan(inner, All(flags)));
    case Sub(inner) =>
      var nf := NewFrame(Tick(log), "", None);
      TickExplained(base, log, open, chosen, flags, ran);
      TickExplained(base, Tick(log), open, chosen, flags, ran);
      var inside;
      choices, inside := BodyExplained(base, Tick(Tick(log)), nf, open, chosen, flags, ran, inner);
      var (l, h) := ReadBody(Tick(Tick(log)), nf, inner);
      choices := ExplainsClosed(base, l, open, h.open, choices, flags, inside, ran + BodyRan(inner, All(flags)));
      OwnExplained(base, RecordAll(l, h.open), open, choices, flags, ran + BodyRan(inner, All(flags)), Opened(log));
      choices := choices + [true];
  }

  lemma {:induction false} BodyExplained(
    base: Log, log: Log, f: Frame, under: seq<Start>, chosen: seq<bool>, below: seq<bool>, ran: seq<bool>, body: Body)
      returns (choices: seq<bool>, inside: seq<bool>)
    requires Explains(base, log, under, chosen, below, ran) && Numbered(log) && PossibleBody(body) && HeardBody(body)
    requires f.open == [] && f.seen == Now(log)
    ensures var (l, g) := ReadBody(log, f, body);
            BodyRead(base, log, under, below, BodyCommands(body), ran + BodyRan(body, All(below)), l, g, choices,
              inside)
    decreases body
  {
    hide Explains, Ran, RestRan, Commands, RestCommands, Heard, Possible, CanFail, MayEnd, ReadItem, ReadRest;
    LengthsAgree(base, log, under, chosen, below, ran);
    assert under + f.open == under && below + [] == below;
    choices := ItemExplained(base, log, f, under, chosen, below, [], ran, body.first);
    var (l, g) := ReadItem(log, f, body.first);
    var first := ran + Ran(body.first, All(below));
    ItemHeard(log, f, [], body.first, l, g);
    choices, inside := RestExplained(base, l, g, under, choices, below, [], first, body.first, EndsWell(body.first),
      body.rest);
    assert first + RestRan(body.rest, All(below), EndsWell(body.first)) == ran + BodyRan(body, All(below));
    assert log.parsed.commands + Commands(body.first) + RestCommands(body.rest) ==
      log.parsed.commands + BodyCommands(body);
  }

  lemma {:induction false} RestExplained(
    base: Log, log: Log, f: Frame, under: seq<Start>, chosen: seq<bool>, below: seq<bool>, entered: seq<bool>,
    ran: seq<bool>, before: Item, status: bool, rest: Rest)
      returns (choices: seq<bool>, inside: seq<bool>)
    requires Explains(base, log, under + f.open, chosen, below + entered, ran) && |under| == |below| && Numbered(log)
    requires PossibleRest(rest) && HeardRest(before, rest) && Sane(log, f)
    requires All(below) ==> Flows(f, entered, status) && (Told(before) ==> Hears(log, f, entered, status))
    ensures var (l, g) := ReadRest(log, f, rest);
            BodyRead(base, log, under, below, RestCommands(rest), ran + RestRan(rest, All(below), status), l, g,
              choices, inside)
    decreases rest
  {
    hide Explains, Ran, Commands, Heard, Possible, CanFail, MayEnd, Behind, Told, ReadItem;
    LengthsAgree(base, log, under + f.open, chosen, below + entered, ran);
    if rest.Nothing? {
      choices, inside := chosen, entered;
      assert ran + [] == ran;
    } else {
      var (m, h) := Behind(log, f, rest.link);
      choices, inside := GoesBehind(base, log, f, under, chosen, below, entered, ran, status, rest.link);
      LengthsAgree(base, m, under + h.open, choices, below + inside, ran);
      choices := ItemExplained(base, m, h, under, choices, below, inside, ran, rest.item);
      var (l, g) := ReadItem(m, h, rest.item);
      var runs := GoesOn(rest.link, status);
      var now := ran + Ran(rest.item, All(below) && runs);
      AllJoin(below, inside);
      ItemHeard(m, h, inside, rest.item, l, g);
      choices, inside := RestExplained(base, l, g, under, choices, below, inside, now, rest.item,
                                       if runs then EndsWell(rest.item) else status, rest.rest);
      assert now + RestRan(rest.rest, All(below), if runs then EndsWell(rest.item) else status)
          == ran + RestRan(rest, All(below), status);
      assert log.parsed.commands + Commands(rest.item) + RestCommands(rest.rest) ==
        log.parsed.commands + RestCommands(rest);
    }
  }

  // ---- whole lists -----------------------------------------------------------------------------

  /**
    For all lists in which every item before an `&&` is told, and every way their commands
    and tests can end: the ranges the parse records can be entered or left out so that each
    command runs exactly if all ranges around it are entered, and only `maybe` ranges are
    left out.
   */
  lemma ListExplained(log: Log, body: Body) returns (choices: seq<bool>)
    requires PossibleBody(body) && HeardBody(body) && Numbered(log)
    ensures Explains(log, ParseList(log, BodyEvents(body)), [], choices, [], BodyRan(body, true))
  {
    hide ReadBody, BodyEvents, BodyRan, BodyCommands, PossibleBody, HeardBody, ParseList, RecordAll;
    assert Recent(log, Tick(log)) == [];
    assert Explains(log, Tick(log), [], [], [], []);
    var inside;
    choices, inside := BodyExplained(log, Tick(log), NewFrame(log, "", None), [], [], [], [], body);
    assert [] + BodyRan(body, true) == BodyRan(body, true);
    var (l, h) := ReadBody(Tick(log), NewFrame(log, "", None), body);
    choices := ExplainsClosed(log, l, [], h.open, choices, [], inside, [] + BodyRan(body, true));
    ListRead(log, body);
  }

  /** No recorded `maybe` range from number `from` on holds the command. */
  predicate Outside(log: Log, from: nat, j: nat) {
    forall n :: from <= n < |log.parsed.scopes| && MaybeRange(log, n) ==> !Holds(log.parsed.scopes[n], j)
  }

  /** In particular a command outside all `maybe` ranges always runs. */
  lemma OutsideAlwaysRuns(log: Log, body: Body, j: nat)
    requires PossibleBody(body) && HeardBody(body) && Numbered(log) && j < |BodyCommands(body)|
    requires Outside(ParseList(log, BodyEvents(body)), |log.parsed.scopes|, Now(log) + j)
    ensures BodyRan(body, true)[j]
  {
    hide ParseList, BodyRan, BodyEvents;
    var choices := ListExplained(log, body);
    var after, ran := ParseList(log, BodyEvents(body)), BodyRan(body, true);
    OutsideRuns(log, after, choices, ran, j);
  }

  lemma OutsideRuns(log: Log, after: Log, choices: seq<bool>, ran: seq<bool>, j: nat)
    requires Explains(log, after, [], choices, [], ran) && j < |ran| &&
             Outside(after, |log.parsed.scopes|, Now(log) + j)
    ensures ran[j]
  {
    var recent := Recent(log, after);
    forall n | 0 <= n < |recent| && Holds(recent[n], Now(log) + j) ensures choices[n] {
      assert recent[n] == after.parsed.scopes[|log.parsed.scopes| + n];
    }
    assert Explained(recent, choices, [], [], Now(log) + j, ran[j]);
  }

  // ---- lists without ranges --------------------------------------------------------------------

  /** The parser takes the item to be able to fail. */
  predicate Raises(item: Item) { (item.Plain? && item.test) || CanFail(Commands(item)) }

  /** No `||`, and in front of each `&&` only moves, back to the beginning of its and-or list. */
  predicate Calm(item: Item)
    decreases item
  {
    match item
    case Plain(_, _, _) => true
    case Group(_, inner) => CalmBody(inner)
    case Sub(inner) => CalmBody(inner)
  }

  predicate CalmBody(body: Body)
    decreases body
  {
    Calm(body.first) && CalmRest(body.rest, Raises(body.first))
  }

  predicate CalmRest(rest: Rest, raised: bool)
    decreases rest
  {
    rest.Nothing? ||
    (rest.link != Some(OrElse) && (rest.link == Some(AndThen) ==> !raised) && Calm(rest.item) &&
     CalmRest(rest.rest, Raises(rest.item)))
  }

  predicate Undivided(log: Log, f: Frame, raised: bool) {
    f.open == [] && f.seen <= Now(log) && Noticed(log, f) == raised
  }

  lemma CanFailBoth(a: seq<Command>, b: seq<Command>)
    ensures CanFail(a + b) == (CanFail(a) || CanFail(b))
  {
    if CanFail(a) { var k :| 0 <= k < |a| && !a[k].Move?; assert (a + b)[k] == a[k]; }
    if CanFail(b) { var k :| 0 <= k < |b| && !b[k].Move?; assert (a + b)[|a| + k] == b[k]; }
  }

  lemma {:induction false} CalmItemRead(log: Log, f: Frame, item: Item, raised: bool)
    requires Calm(item) && Undivided(log, f, raised)
    ensures var (l, g) := ReadItem(log, f, item);
            l.parsed.guards == log.parsed.guards && l.parsed.commands == log.parsed.commands + Commands(item) &&
            Undivided(l, g, raised || Raises(item))
    decreases item
  {
    hide CanFail, ReadBody;
    CanFailBoth(Read(log, f.seen), Commands(item));
    match item {
      case Plain(commands, _, _) =>
      case Group(tag, inner) =>
        CalmBodyRead(Tick(log), NewFrame(log, tag, None), inner);
        RecordsNone(ReadBody(Tick(log), NewFrame(log, tag, None), inner).0);
      case Sub(inner) =>
        CalmBodyRead(Tick(Tick(log)), NewFrame(Tick(log), "", None), inner);
        RecordsNone(ReadBody(Tick(Tick(log)), NewFrame(Tick(log), "", None), inner).0);
    }
    assert Read(ReadItem(log, f, item).0, f.seen) == Read(log, f.seen) + Commands(item);
  }

  lemma {:induction false} CalmBodyRead(log: Log, f: Frame, body: Body)
    requires CalmBody(body) && f.open == [] && f.seen == Now(log) && !f.plain
    ensures var (l, g) := ReadBody(log, f, body);
            l.parsed.guards == log.parsed.guards && l.parsed.commands == log.parsed.commands + BodyCommands(body) &&
            g.open == []
    decreases body
  {
    hide ReadItem, ReadRest, Raises;
    CalmItemRead(log, f, body.first, false);
    var (l, g) := ReadItem(log, f, body.first);
    CalmRestRead(l, g, body.rest, Raises(body.first));
  }

  /** Behind a separator, or an `&&` in front of which nothing can fail, no range is open. */
  lemma CalmBehind(log: Log, f: Frame, link: Option<Operator>, raised: bool)
    requires Undivided(log, f, raised) && link != Some(OrElse) && (link == Some(AndThen) ==> !raised)
    ensures var (m, h) := Behind(log, f, link); Undivided(m, h, false) && m.parsed == log.parsed
  {
    RecordsNone(log);
    var (m, h) := Behind(log, f, link);
    assert Close(log, f, link).0 == log;
    assert m == log && h.seen == Now(log) && h.open == [] && !h.plain;
    assert Read(m, h.seen) == [];
    NothingFails();
  }

  lemma {:induction false} CalmRestRead(log: Log, f: Frame, rest: Rest, raised: bool)
    requires CalmRest(rest, raised) && Undivided(log, f, raised)
    ensures var (l, g) := ReadRest(log, f, rest);
            l.parsed.guards == log.parsed.guards && l.parsed.commands == log.parsed.commands + RestCommands(rest) &&
            g.open == []
    decreases rest
  {
    hide ReadItem, Raises, CanFail, Calm;
    if rest.More? {
      var (m, h) := Behind(log, f, rest.link);
      CalmBehind(log, f, rest.link, raised);
      CalmItemRead(m, h, rest.item, false);
      var (l, g) := ReadItem(m, h, rest.item);
      CalmRestRead(l, g, rest.rest, Raises(rest.item));
    }
  }

  lemma NothingFails() ensures !CanFail([]) {}

  /** A list of moves joined by `&&`, with anything behind them, records no range that may be left out. */
  lemma CalmListsAreCertain(log: Log, body: Body)
    requires CalmBody(body)
    ensures ParseList(log, BodyEvents(body)).parsed.guards == log.parsed.guards
  {
    hide ParseList, ReadBody, BodyEvents, CalmBody;
    ListRead(log, body);
    CalmBodyRead(Tick(log), NewFrame(log, "", None), body);
    var (l, h) := ReadBody(Tick(log), NewFrame(log, "", None), body);
    RecordsNone(l);
  }
}
