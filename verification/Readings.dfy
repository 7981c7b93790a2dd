/** `Guards` (ember_armor/ledger/shell/core.py) records the forest of a script, and nothing else. */
module Readings {
  import opened Prelude
  import opened Moves
  import opened Scopes
  import opened Ranges
  import opened Scripts
  import opened Forests
  import AndOr
  import T = Trees
  import L = Lists

  // ---- one frame -----------------------------------------------------------------------------

  /** Reading `events` leaves `left` to be read, with these commands and ranges recorded. */
  ghost predicate Reads(log: Log, outer: seq<Frame>, f: Frame, events: seq<Event>, tail: seq<Event>,
                        l: Log, g: Frame, left: seq<Event>, commands: seq<Command>, marks: seq<T.Mark>) {
    Feed(State(log, outer + [f]), events + tail) == Feed(State(l, outer + [g]), left + tail) &&
    AndOr.SameFrame(f, g) && T.Adds(log, l, commands, marks)
  }

  lemma AddsJoin(log: Log, m: Log, l: Log, a: seq<Command>, b: seq<Command>, x: seq<T.Mark>, y: seq<T.Mark>)
    requires T.Adds(log, m, a, x) && T.Adds(m, l, b, y)
    ensures T.Adds(log, l, a + b, x + y)
    ensures Now(m) == Now(log) + |a|
  {
    hide T.Marks, T.AllNumbered;
    assert log.parsed.commands + a + b == log.parsed.commands + (a + b);
    assert T.Marks(log.parsed) + x + y == T.Marks(log.parsed) + (x + y);
  }

  lemma AddsNothing(log: Log, l: Log)
    requires T.AllNumbered(log.parsed) && l.parsed == log.parsed
    ensures T.Adds(log, l, [], [])
  {
  }

  lemma AddsFrom(log: Log, m: Log, l: Log, commands: seq<Command>, marks: seq<T.Mark>)
    requires T.Adds(m, l, commands, marks) && log.parsed == m.parsed
    ensures T.Adds(log, l, commands, marks) && Now(l) == Now(log) + |commands|
  {
  }

  lemma AddsCommands(log: Log, commands: seq<Command>)
    requires T.AllNumbered(log.parsed)
    ensures T.Adds(log, AndOr.Reads(log, commands), commands, [])
  {
    assert T.Marks(AndOr.Reads(log, commands).parsed) == T.Marks(log.parsed) + [];
  }

  /** All ranges of a frame end with this event. */
  predicate EndsAll(event: Event, outer: seq<Frame>, f: Frame) {
    match event
    case Ended => true
    case Left(tag) => tag == f.tag && outer != []
    case Branched(tag, _, openOne) => tag == f.tag && outer != [] && !(openOne && f.branch.Some?)
    case _ => false
  }

  /** Where a stretch stands: what was noticed since, and on what the open ranges end. */
  predicate Ready(log: Log, f: Frame, plain: bool, endsOn: Option<Operator>) {
    f.seen <= Now(log) && AndOr.Noticed(log, f) == plain &&
    (f.open == [] <==> endsOn.None?) && (endsOn.Some? ==> f.endsOn == endsOn)
  }

  lemma SameNoticed(log: Log, l: Log, f: Frame, g: Frame)
    requires l.parsed.commands == log.parsed.commands && g.plain == f.plain && g.seen == f.seen
    ensures AndOr.Noticed(l, g) == AndOr.Noticed(log, f)
  {
  }

  lemma RecordsLast(log: Log, open: seq<Start>, o: Start)
    ensures RecordAll(log, open + [o]) == RecordAll(Record(log, o, Maybe), open)
  {
    assert Init(open + [o]) == open && Last(open + [o]) == o;
  }

  /** The innermost range may be recorded before the event that ends it and all others. */
  lemma Earlier(log: Log, outer: seq<Frame>, f: Frame, o: Start, event: Event)
    requires EndsAll(event, outer, f) || (event.Linked? && f.endsOn == Some(event.operator))
    ensures Next(State(log, outer + [f.(open := f.open + [o])]), event)
         == Next(State(Record(log, o, Maybe), outer + [f]), event)
  {
    hide RecordAll, Record, CanFail, Innermost;
    var (x, y) := (f.(open := f.open + [o]), Record(log, o, Maybe));
    RecordsLast(log, f.open, o);
    T.Tops(outer, x);
    T.Tops(outer, f);
    SameCommands(log, o);
    match event
    case Linked(operator) => LinksAlike(log, y, x, f, operator);
    case Left(tag) =>
      OnlyTop(State(log, outer + [x]), tag);
      OnlyTop(State(y, outer + [f]), tag);
    case Branched(tag, more, openOne) =>
      TopIsInnermost(outer, x);
      TopIsInnermost(outer, f);
    case _ =>
  }

  lemma SameCommands(log: Log, o: Start)
    ensures Record(log, o, Maybe).parsed.commands == log.parsed.commands && Record(log, o, Maybe).clock == log.clock
  {
  }

  lemma LinksAlike(log: Log, l: Log, f: Frame, g: Frame, operator: Operator)
    requires f.endsOn == g.endsOn == Some(operator) && RecordAll(log, f.open) == RecordAll(l, g.open)
    requires f == g.(open := f.open)
    ensures Link(log, f, operator) == Link(l, g, operator)
  {
    hide RecordAll, CanFail, Read;
    assert Close(log, f, Some(operator)) == Close(l, g, Some(operator)) by {
      assert f.(open := []) == g.(open := []);
    }
  }

  lemma TopIsInnermost(outer: seq<Frame>, f: Frame)
    requires outer != []
    ensures Innermost(outer + [f], f.tag) == |outer|
  {
    T.Tops(outer, f);
  }

  /** A frame on top is left. */
  lemma OnlyTop(s: State, tag: string)
    requires |s.frames| > 1 && Last(s.frames).tag == tag
    ensures Next(s, Left(tag)) == State(LeaveFrame(s.log, Last(s.frames)), Init(s.frames))
  {
    hide LeaveFrame;
    var outer, f := Init(s.frames), Last(s.frames);
    assert s.frames == outer + [f];
    TopIsInnermost(outer, f);
    var t := State(LeaveFrame(s.log, f), outer);
    assert LeaveTo(t, |outer|) == t;
    assert LeaveTo(s, |outer|) == LeaveTo(t, |outer|);
  }

  lemma Prepend(event: Event, a: seq<Event>, b: seq<Event>, tail: seq<Event>)
    ensures [event] + a + b + tail == [event] + (a + (b + tail))
  {
  }

  // ---- lists -----------------------------------------------------------------------------------

  /** What an operator or the end of a list leaves behind. */
  predicate Linked(log: Log, f: Frame, rest: Rest, plain: bool, endsOn: Option<Operator>, m: Log, h: Frame)
    requires rest.More?
  {
    m.parsed == log.parsed && AndOr.SameFrame(f, h) && h.seen == Now(m) &&
    h.plain == (rest.link == Some(OrElse) && plain) &&
    if Ranged(rest, plain) then
      h.open == f.open + [Opened(log)] && h.endsOn == Some(EndOf(rest.link.value))
    else h.open == f.open && (endsOn.Some? ==> h.endsOn == endsOn)
  }

  lemma ReadLink(log: Log, outer: seq<Frame>, f: Frame, rest: Rest, plain: bool, endsOn: Option<Operator>,
                 tail: seq<Event>)
      returns (m: Log, h: Frame)
    requires Ready(log, f, plain, endsOn) && !Closed(rest, endsOn)
    ensures Feed(State(log, outer + [f]), RestEvents(rest) + tail) ==
            Feed(State(m, outer + [h]), ItemEvents(rest.item) + (RestEvents(rest.rest) + tail))
    ensures Linked(log, f, rest, plain, endsOn, m, h)
  {
    hide Feed, ItemEvents, CanFail;
    T.Tops(outer, f);
    var s := State(log, outer + [f]);
    var t := Next(s, LinkEvent(rest.link));
    m, h := t.log, Last(t.frames);
    AndOr.RecordsNone(log);
    Prepend(LinkEvent(rest.link), ItemEvents(rest.item), RestEvents(rest.rest), tail);
    T.FeedOne(s, LinkEvent(rest.link), ItemEvents(rest.item) + (RestEvents(rest.rest) + tail));
    assert t == State(m, outer + [h]);
  }

  lemma NoticedMore(log: Log, f: Frame, l: Log, g: Frame, item: Item)
    requires f.seen == Now(log) && l.parsed.commands == log.parsed.commands + Commands(item)
    requires g == f.(plain := f.plain || (item.Plain? && item.test))
    ensures AndOr.Noticed(l, g) == (f.plain || Raises(item)) && g.seen <= Now(l)
  {
    assert Read(l, g.seen) == Commands(item);
  }

  /** What comes next ends the stretch. */
  lemma NextEnds(rest: Rest, endsOn: Operator, outer: seq<Frame>, f: Frame, tail: seq<Event>)
    requires Closed(rest, Some(endsOn)) && tail != [] && EndsAll(tail[0], outer, f) && f.endsOn == Some(endsOn)
    ensures var events := RestEvents(rest) + tail;
            events != [] &&
            (EndsAll(events[0], outer, f) || (events[0].Linked? && f.endsOn == Some(events[0].operator)))
  {
    hide ItemEvents;
  }

  /** So its innermost range can be recorded at once. */
  lemma RecordsEarlier(log: Log, outer: seq<Frame>, f: Frame, o: Start, rest: Rest, endsOn: Operator, tail: seq<Event>)
    requires Closed(rest, Some(endsOn)) && tail != [] && EndsAll(tail[0], outer, f) && f.endsOn == Some(endsOn)
    ensures Feed(State(log, outer + [f.(open := f.open + [o])]), RestEvents(rest) + tail)
         == Feed(State(Record(log, o, Maybe), outer + [f]), RestEvents(rest) + tail)
  {
    hide Next, Record, EndsAll;
    var events := RestEvents(rest) + tail;
    NextEnds(rest, endsOn, outer, f, tail);
    Earlier(log, outer, f, o, events[0]);
    assert events == [events[0]] + events[1..];
    T.FeedOne(State(log, outer + [f.(open := f.open + [o])]), events[0], events[1..]);
    T.FeedOne(State(Record(log, o, Maybe), outer + [f]), events[0], events[1..]);
  }

  lemma EndsAllAlike(event: Event, outer: seq<Frame>, f: Frame, g: Frame)
    requires AndOr.SameFrame(f, g) && EndsAll(event, outer, f)
    ensures EndsAll(event, outer, g)
  {
  }

  lemma {:induction false} ReadRest(log: Log, outer: seq<Frame>, f: Frame, rest: Rest, plain: bool,
                                    endsOn: Option<Operator>, tail: seq<Event>)
      returns (l: Log, g: Frame)
    requires T.AllNumbered(log.parsed) && Ready(log, f, plain, endsOn) && tail != [] && EndsAll(tail[0], outer, f)
    ensures var cut := UpTo(rest, plain, endsOn);
            Reads(log, outer, f, RestEvents(rest), tail, l, g, RestEvents(cut.rest), cut.commands,
                  Flat(cut.trees, Now(log))) &&
            Ready(l, g, cut.plain, endsOn) && g.open == f.open
    decreases RestWeight(rest), 1
  {
    hide Feed, Forest, UpTo, Flat, Commands, T.AllNumbered, T.Marks, EndsAll, RestEvents, ItemEvents, Raises,
      AndOr.Noticed, Ranged;
    if Closed(rest, endsOn) {
      l, g := log, f;
      NothingRead(rest, plain, endsOn, log);
      AddsNothing(log, log);
    } else {
      var m, h := ReadLink(log, outer, f, rest, plain, endsOn, tail);
      assert T.AllNumbered(m.parsed);
      var n, k := ReadItem(m, outer, h, rest.item, RestEvents(rest.rest) + tail);
      AddsFrom(log, m, n, Commands(rest.item), Flat(Forest(rest.item), Now(m)));
      NoticedMore(m, h, n, k, rest.item);
      EndsAllAlike(tail[0], outer, f, k);
      assert [] + (RestEvents(rest.rest) + tail) == RestEvents(rest.rest) + tail;
      if Ranged(rest, plain) {
        l, g := ReadRange(log, outer, f, rest, plain, endsOn, tail, n, k);
      } else {
        assert !(rest.link == Some(OrElse)) by { NotOr(rest, plain); }
        l, g := ReadRest(n, outer, k, rest.rest, Raises(rest.item), endsOn, tail);
        ReadsNext(log, n, l, rest, plain, endsOn);
      }
    }
  }

  lemma NotOr(rest: Rest, plain: bool)
    requires rest.More? && !Ranged(rest, plain)
    ensures rest.link != Some(OrElse) && (rest.link == Some(AndThen) ==> !plain)
  {
  }

  lemma NothingRead(rest: Rest, plain: bool, endsOn: Option<Operator>, log: Log)
    requires Closed(rest, endsOn)
    ensures UpTo(rest, plain, endsOn) == Cut([], [], rest, plain) && Flat([], Now(log)) == []
  {
  }

  lemma ReadsNext(log: Log, n: Log, l: Log, rest: Rest, plain: bool, endsOn: Option<Operator>)
    requires !Closed(rest, endsOn) && !Ranged(rest, plain)
    requires T.Adds(log, n, Commands(rest.item), Flat(Forest(rest.item), Now(log)))
    requires var more := UpTo(rest.rest, Raises(rest.item), endsOn);
             T.Adds(n, l, more.commands, Flat(more.trees, Now(n)))
    ensures var cut := UpTo(rest, plain, endsOn);
            T.Adds(log, l, cut.commands, Flat(cut.trees, Now(log))) &&
            cut.rest == UpTo(rest.rest, Raises(rest.item), endsOn).rest &&
            cut.plain == UpTo(rest.rest, Raises(rest.item), endsOn).plain
  {
    hide UpTo, Flat, Forest, T.Adds, Raises;
    var more := UpTo(rest.rest, Raises(rest.item), endsOn);
    UpToNext(rest, plain, endsOn);
    AddsJoin(log, n, l, Commands(rest.item), more.commands, Flat(Forest(rest.item), Now(log)),
             Flat(more.trees, Now(n)));
    ItemSize(rest.item);
    FlatJoin(Forest(rest.item), more.trees, Now(log));
  }

  /** A range, behind its first item, and what stands behind it. */
  lemma {:induction false} ReadRange(log: Log, outer: seq<Frame>, f: Frame, rest: Rest, plain: bool,
                                     endsOn: Option<Operator>, tail: seq<Event>, n: Log, k: Frame)
      returns (l: Log, g: Frame)
    requires T.AllNumbered(log.parsed) && Ready(log, f, plain, endsOn) && tail != [] && EndsAll(tail[0], outer, f)
    requires !Closed(rest, endsOn) && Ranged(rest, plain)
    requires T.Adds(log, n, Commands(rest.item), Flat(Forest(rest.item), Now(log)))
    requires AndOr.SameFrame(f, k) && k.open == f.open + [Opened(log)] && k.endsOn == Some(EndOf(rest.link.value))
    requires k.seen <= Now(n) && AndOr.Noticed(n, k) == StillPlain(rest, plain)
    ensures var cut := UpTo(rest, plain, endsOn);
            Feed(State(n, outer + [k]), RestEvents(rest.rest) + tail) ==
              Feed(State(l, outer + [g]), RestEvents(cut.rest) + tail) &&
            AndOr.SameFrame(f, g) && T.Adds(log, l, cut.commands, Flat(cut.trees, Now(log))) &&
            Ready(l, g, cut.plain, endsOn) && g.open == f.open
    decreases RestWeight(rest), 0
  {
    hide Feed, Forest, UpTo, Flat, Commands, T.AllNumbered, T.Marks, EndsAll, RestEvents, Raises, AndOr.Noticed,
      T.Adds, Record;
    var o, e, range := Opened(log), EndOf(rest.link.value), InRange(rest, plain);
    UpToRange(rest, plain, endsOn);
    EndsAllAlike(tail[0], outer, f, k);
    Numbered(log, n, Commands(rest.item), Flat(Forest(rest.item), Now(log)));
    var a, b := ReadRest(n, outer, k, rest.rest, StillPlain(rest, plain), Some(e), tail);
    Stops(rest.rest, StillPlain(rest, plain), Some(e));
    var x, y := Record(a, o, Maybe), b.(open := f.open);
    assert b == y.(open := y.open + [o]);
    EndsAllAlike(tail[0], outer, f, y);
    RecordsEarlier(a, outer, y, o, range.rest, e, tail);
    RangeAdds(log, n, a, rest, plain);
    Numbered(log, x, Commands(rest.item) + range.commands,
             Flat(Wrap(Maybe, Forest(rest.item) + range.trees), Now(log)));
    SameCommands(a, o);
    SameNoticed(a, x, b, y);
    assert Ready(x, y, range.plain, endsOn) by {
      if endsOn.Some? { SameEnd(rest, endsOn); }
    }
    l, g := ReadRest(x, outer, y, range.rest, range.plain, endsOn, tail);
    ReadsRange(log, x, l, rest, plain, endsOn);
  }

  lemma Numbered(log: Log, l: Log, commands: seq<Command>, marks: seq<T.Mark>)
    requires T.Adds(log, l, commands, marks)
    ensures T.AllNumbered(l.parsed) && Now(l) == Now(log) + |commands|
  {
  }

  /** A range that opens inside another one ends with it. */
  lemma SameEnd(rest: Rest, endsOn: Option<Operator>)
    requires !Closed(rest, endsOn) && rest.link.Some? && endsOn.Some?
    ensures EndOf(rest.link.value) == endsOn.value
  {
  }

  /** The first item of a range, the rest of it, and the range. */
  lemma RangeAdds(log: Log, n: Log, a: Log, rest: Rest, plain: bool)
    requires Ranged(rest, plain)
    requires T.Adds(log, n, Commands(rest.item), Flat(Forest(rest.item), Now(log)))
    requires T.Adds(n, a, InRange(rest, plain).commands, Flat(InRange(rest, plain).trees, Now(n)))
    ensures T.Adds(log, Record(a, Opened(log), Maybe), Commands(rest.item) + InRange(rest, plain).commands,
                   Flat(Wrap(Maybe, Forest(rest.item) + InRange(rest, plain).trees), Now(log)))
  {
    hide UpTo, Flat, Forest, T.Adds, Raises, Record, Size;
    var range, item := InRange(rest, plain), Forest(rest.item);
    var x, y := Flat(item, Now(log)), Flat(range.trees, Now(n));
    AddsJoin(log, n, a, Commands(rest.item), range.commands, x, y);
    Numbered(log, a, Commands(rest.item) + range.commands, x + y);
    T.RecordAdds(a, Opened(log), Maybe);
    var mark := T.FrameMark(Some(Maybe), Now(log), Now(a));
    AddsJoin(log, a, Record(a, Opened(log), Maybe), Commands(rest.item) + range.commands, [], x + y, mark);
    assert Commands(rest.item) + range.commands + [] == Commands(rest.item) + range.commands;
    ItemSize(rest.item);
    FlatJoin(item, range.trees, Now(log));
    SizeJoin(item, range.trees);
    RangeSize(rest, plain);
    FlatWrap(Maybe, item + range.trees, Now(log));
  }

  lemma RangeSize(rest: Rest, plain: bool)
    requires Ranged(rest, plain)
    ensures Size(InRange(rest, plain).trees) == |InRange(rest, plain).commands|
  {
    UpToSize(rest.rest, StillPlain(rest, plain), Some(EndOf(rest.link.value)));
  }

  lemma ReadsRange(log: Log, x: Log, l: Log, rest: Rest, plain: bool, endsOn: Option<Operator>)
    requires !Closed(rest, endsOn) && Ranged(rest, plain)
    requires T.Adds(log, x, Commands(rest.item) + InRange(rest, plain).commands,
                    Flat(Wrap(Maybe, Forest(rest.item) + InRange(rest, plain).trees), Now(log)))
    requires var more := UpTo(InRange(rest, plain).rest, InRange(rest, plain).plain, endsOn);
             T.Adds(x, l, more.commands, Flat(more.trees, Now(x)))
    ensures var cut := UpTo(rest, plain, endsOn); T.Adds(log, l, cut.commands, Flat(cut.trees, Now(log)))
  {
    hide UpTo, Flat, Forest, T.Adds, Raises, Wrap, Size;
    var range := InRange(rest, plain);
    var more := UpTo(range.rest, range.plain, endsOn);
    var first := Wrap(Maybe, Forest(rest.item) + range.trees);
    UpToRange(rest, plain, endsOn);
    AddsJoin(log, x, l, Commands(rest.item) + range.commands, more.commands, Flat(first, Now(log)),
             Flat(more.trees, Now(x)));
    ItemSize(rest.item);
    RangeSize(rest, plain);
    SizeJoin(Forest(rest.item), range.trees);
    FlatWrap(Maybe, Forest(rest.item) + range.trees, Now(log));
    FlatJoin(first, more.trees, Now(log));
  }

  // ---- items -----------------------------------------------------------------------------------

  /** A list, up to what ends it. */
  lemma {:induction false} ReadBody(log: Log, outer: seq<Frame>, f: Frame, body: Body, tail: seq<Event>)
      returns (l: Log, g: Frame)
    requires T.AllNumbered(log.parsed) && f.open == [] && f.seen == Now(log) && !f.plain
    requires tail != [] && EndsAll(tail[0], outer, f)
    ensures Feed(State(log, outer + [f]), BodyEvents(body) + tail) == Feed(State(l, outer + [g]), tail)
    ensures AndOr.SameFrame(f, g) && g.open == []
    ensures T.Adds(log, l, BodyCommands(body), Flat(BodyForest(body), Now(log)))
    decreases BodyWeight(body), 0
  {
    hide Feed, Forest, UpTo, Flat, Commands, T.AllNumbered, T.Marks, EndsAll, ItemEvents, Raises, AndOr.Noticed,
      T.Adds, RestEvents, RestCommands;
    var rest, raises := body.rest, Raises(body.first);
    var events := RestEvents(rest) + tail;
    assert BodyEvents(body) + tail == ItemEvents(body.first) + events;
    var n, k := ReadItem(log, outer, f, body.first, events);
    assert [] + events == events;
    Numbered(log, n, Commands(body.first), Flat(Forest(body.first), Now(log)));
    NoticedFirst(log, f, n, k, body.first);
    EndsAllAlike(tail[0], outer, f, k);
    l, g := ReadRest(n, outer, k, rest, raises, None, tail);
    AllOfIt(rest, raises);
    var more := UpTo(rest, raises, None);
    UpToSize(rest, raises, None);
    NoEvents(more.rest, tail);
    AddsJoin(log, n, l, Commands(body.first), more.commands, Flat(Forest(body.first), Now(log)),
             Flat(more.trees, Now(n)));
    ItemSize(body.first);
    FlatJoin(Forest(body.first), more.trees, Now(log));
    assert more.commands == RestCommands(rest) by { NoCommands(more.rest, more.commands); }
  }

  lemma NoEvents(rest: Rest, tail: seq<Event>)
    requires rest.Nothing?
    ensures RestEvents(rest) + tail == tail
  {
  }

  lemma NoCommands(rest: Rest, commands: seq<Command>)
    requires rest.Nothing?
    ensures commands + RestCommands(rest) == commands
  {
  }

  lemma NoticedFirst(log: Log, f: Frame, l: Log, g: Frame, item: Item)
    requires f.seen == Now(log) && !f.plain && T.Adds(log, l, Commands(item), Flat(Forest(item), Now(log)))
    requires g == f.(plain := f.plain || (item.Plain? && item.test)) && f.open == []
    ensures Ready(l, g, Raises(item), None)
  {
    NoticedMore(log, f, l, g, item);
  }

  /** A frame at the beginning of a list. */
  predicate Fresh(log: Log, f: Frame) { f.open == [] && f.seen == Now(log) && !f.plain }

  /** A list with the ";" or newline behind it. */
  lemma {:induction false} ReadWhole(log: Log, outer: seq<Frame>, f: Frame, body: Body, tail: seq<Event>)
      returns (l: Log, g: Frame)
    requires T.AllNumbered(log.parsed) && Fresh(log, f)
    ensures Feed(State(log, outer + [f]), BodyEvents(body) + ([Ended] + tail)) == Feed(State(l, outer + [g]), tail)
    ensures AndOr.SameFrame(f, g) && Fresh(l, g)
    ensures T.Adds(log, l, BodyCommands(body), Flat(BodyForest(body), Now(log)))
    decreases BodyWeight(body), 1
  {
    hide Feed, T.Adds, T.AllNumbered, BodyEvents, BodyForest, Flat;
    var k;
    l, k := ReadBody(log, outer, f, body, [Ended] + tail);
    T.FeedOne(State(l, outer + [k]), Ended, tail);
    T.Tops(outer, k);
    AndOr.RecordsNone(l);
    g := Reset(l, k);
  }

  lemma ReadPlain(log: Log, outer: seq<Frame>, f: Frame, item: Item, tail: seq<Event>)
    requires item.Plain? && T.AllNumbered(log.parsed)
    ensures var g := f.(plain := f.plain || item.test);
            Reads(log, outer, f, ItemEvents(item), tail, AndOr.Reads(log, item.commands), g, [], Commands(item),
                  Flat(Forest(item), Now(log)))
  {
    hide T.Adds;
    var g := f.(plain := f.plain || item.test);
    var events := L.CommandEvents(item.commands) + tail;
    if item.test {
      T.FeedOne(State(log, outer + [f]), Noted, events);
      T.Tops(outer, f);
      assert ItemEvents(item) + tail == [Noted] + events;
    } else {
      assert ItemEvents(item) + tail == events && f == g;
    }
    AndOr.FeedCommands(State(log, outer + [g]), item.commands, tail);
    AddsCommands(log, item.commands);
    LeavesFlat(|item.commands|, Now(log));
    assert [] + tail == tail;
  }

  /** A frame that is left without a branch records its kind. */
  lemma Leaves(log: Log, frames: seq<Frame>, f: Frame, tail: seq<Event>)
    requires frames != [] && f.open == []
    ensures Feed(State(log, frames + [f]), [Left(f.tag)] + tail) == Feed(State(LeaveFrame(log, f), frames), tail)
    ensures f.branch.None? ==> LeaveFrame(log, f) == if f.kind.Some? then Record(log, f.low, f.kind.value) else log
    ensures f.kind.None? ==> LeaveFrame(log, f) == EndBranch(log, f)
  {
    hide Feed, Record;
    var s := State(log, frames + [f]);
    T.Tops(frames, f);
    T.FeedOne(s, Left(f.tag), tail);
    OnlyTop(s, f.tag);
    AndOr.RecordsNone(log);
    assert f.(open := []) == f;
  }

  lemma Enters(log: Log, frames: seq<Frame>, tag: string, kind: Option<Guard>, events: seq<Event>)
    requires frames != []
    ensures Feed(State(log, frames), [Entered(tag, kind)] + events)
         == Feed(State(Tick(log), frames + [NewFrame(log, tag, kind)]), events)
    ensures Fresh(Tick(log), NewFrame(log, tag, kind))
  {
    T.FeedOne(State(log, frames), Entered(tag, kind), events);
  }

  lemma {:induction false} ReadGroup(log: Log, frames: seq<Frame>, item: Item, tail: seq<Event>) returns (l: Log)
    requires item.Group? && T.AllNumbered(log.parsed) && frames != []
    ensures Feed(State(log, frames), ItemEvents(item) + tail) == Feed(State(l, frames), tail)
    ensures T.Adds(log, l, Commands(item), Flat(Forest(item), Now(log)))
    decreases Weight(item), 0
  {
    hide Feed, T.Adds, T.AllNumbered, BodyEvents, BodyForest, Flat, LeaveFrame;
    var nf, behind := NewFrame(log, item.tag, None), [Left(item.tag)] + tail;
    assert ItemEvents(item) + tail == [Entered(item.tag, None)] + (BodyEvents(item.inner) + behind);
    Enters(log, frames, item.tag, None, BodyEvents(item.inner) + behind);
    SameNumbers(log);
    var g;
    l, g := ReadBody(Tick(log), frames, nf, item.inner, behind);
    AddsFrom(log, Tick(log), l, Commands(item), Flat(Forest(item), Now(log)));
    Leaves(l, frames, g, tail);
  }

  lemma SameNumbers(log: Log) ensures T.AllNumbered(Tick(log).parsed) == T.AllNumbered(log.parsed) {}

  /** A list of its own. */
  lemma {:induction false} ReadList(log: Log, body: Body)
    requires T.AllNumbered(log.parsed)
    ensures T.Adds(log, ParseList(log, BodyEvents(body)), BodyCommands(body), Flat(BodyForest(body), Now(log)))
    decreases BodyWeight(body), 2
  {
    hide Feed, T.Adds, T.AllNumbered, BodyEvents, BodyForest, Flat;
    var nf := NewFrame(log, "", None);
    var s, events := State(Tick(log), [nf]), BodyEvents(body);
    SameNumbers(log);
    var l, g := ReadWhole(Tick(log), [], nf, body, []);
    assert [] + [nf] == [nf] && [] + [g] == [g] && [Ended] + [] == [Ended];
    T.FeedNothing(State(l, [g]));
    assert Feed(s, events + [Ended]) == State(l, [g]);
    FeedLast(s, events, Ended);
    Separated(Feed(s, events), l, g);
    AddsFrom(log, Tick(log), l, BodyCommands(body), Flat(BodyForest(body), Now(log)));
  }

  lemma {:induction false} FeedLast(s: State, events: seq<Event>, event: Event)
    requires s.frames != []
    ensures Feed(s, events + [event]) == Next(Feed(s, events), event)
    decreases events
  {
    hide Next;
    if events == [] {
      assert events + [event] == [event] && [event][1..] == [];
      T.FeedNothing(Next(s, event));
    } else {
      assert (events + [event])[1..] == events[1..] + [event];
      FeedLast(Next(s, events[0]), events[1..], event);
    }
  }

  lemma Separated(s: State, l: Log, g: Frame)
    requires s.frames != [] && Next(s, Ended) == State(l, [g]) && g.open == []
    ensures Finish(s) == l
  {
    hide RecordAll;
    AndOr.SeparatorBeforeClose(s, Last(s.frames).tag);
    AndOr.RecordsNone(l);
    assert |s.frames| == |Next(s, Ended).frames| == 1;
    assert g.(open := []) == g;
  }

  lemma {:induction false} ReadSub(log: Log, frames: seq<Frame>, item: Item, tail: seq<Event>) returns (l: Log)
    requires item.Sub? && T.AllNumbered(log.parsed) && frames != []
    ensures Feed(State(log, frames), ItemEvents(item) + tail) == Feed(State(l, frames), tail)
    ensures T.Adds(log, l, Commands(item), Flat(Forest(item), Now(log)))
    decreases Weight(item), 0
  {
    hide Feed, T.Adds, T.AllNumbered, BodyEvents, BodyForest, Flat, ParseList, Size;
    T.FeedOne(State(log, frames), List(BodyEvents(item.inner), true), tail);
    SameNumbers(log);
    ReadList(Tick(log), item.inner);
    var m := ParseList(Tick(log), BodyEvents(item.inner));
    var marks := Flat(BodyForest(item.inner), Now(log));
    AddsFrom(log, Tick(log), m, Commands(item), marks);
    Numbered(log, m, Commands(item), marks);
    l := AddScope(m, Opened(log));
    T.OwnAdds(m, Opened(log));
    var mark := [T.Mark((Now(log), Now(m)), None, false, [])];
    AddsJoin(log, m, l, Commands(item), [], marks, mark);
    assert Commands(item) + [] == Commands(item);
    BodySize(item.inner);
    NodeAlone(None, BodyForest(item.inner), Now(log));
  }

  lemma {:induction false} ReadLoop(log: Log, frames: seq<Frame>, item: Item, tail: seq<Event>) returns (l: Log)
    requires item.Loop? && T.AllNumbered(log.parsed) && frames != []
    ensures Feed(State(log, frames), ItemEvents(item) + tail) == Feed(State(l, frames), tail)
    ensures T.Adds(log, l, Commands(item), Flat(Forest(item), Now(log)))
    decreases Weight(item), 0
  {
    hide Feed, T.Adds, T.AllNumbered, BodyEvents, BodyForest, Flat, LeaveFrame, Size, Record;
    var nf := NewFrame(log, "loop", Some(Guard.Loop));
    var behind := [Left("loop")] + tail;
    var inner := BodyEvents(item.inner) + ([Ended] + behind);
    assert ItemEvents(item) + tail ==
      [Entered("loop", Some(Guard.Loop))] + (BodyEvents(item.cond) + ([Ended] + inner));
    Enters(log, frames, "loop", Some(Guard.Loop), BodyEvents(item.cond) + ([Ended] + inner));
    SameNumbers(log);
    var m, h := ReadWhole(Tick(log), frames, nf, item.cond, inner);
    var x := Flat(BodyForest(item.cond), Now(log));
    AddsFrom(log, Tick(log), m, BodyCommands(item.cond), x);
    Numbered(log, m, BodyCommands(item.cond), x);
    var n, k := ReadWhole(m, frames, h, item.inner, behind);
    var y := Flat(BodyForest(item.inner), Now(m));
    AddsJoin(log, m, n, BodyCommands(item.cond), BodyCommands(item.inner), x, y);
    Numbered(log, n, Commands(item), x + y);
    Leaves(n, frames, k, tail);
    l := Record(n, nf.low, Guard.Loop);
    T.RecordAdds(n, nf.low, Guard.Loop);
    var mark := T.FrameMark(Some(Guard.Loop), Now(log), Now(n));
    AddsJoin(log, n, l, Commands(item), [], x + y, mark);
    assert Commands(item) + [] == Commands(item);
    BodySize(item.cond);
    BodySize(item.inner);
    FlatJoin(BodyForest(item.cond), BodyForest(item.inner), Now(log));
    SizeJoin(BodyForest(item.cond), BodyForest(item.inner));
    FlatWrap(Guard.Loop, BodyForest(item.cond) + BodyForest(item.inner), Now(log));
  }

  // ---- if ---------------------------------------------------------------------------------------

  /** A branch begins, and the one before it is recorded. */
  lemma Branches(log: Log, frames: seq<Frame>, f: Frame, openOne: bool, tail: seq<Event>) returns (l: Log, g: Frame)
    requires T.AllNumbered(log.parsed) && frames != [] && Fresh(log, f) && !(openOne && f.branch.Some?)
    ensures Feed(State(log, frames + [f]), [Branched(f.tag, true, openOne)] + tail) ==
            Feed(State(l, frames + [g]), tail)
    ensures Fresh(l, g) && g.tag == f.tag && g.kind == f.kind && g.branch == Some(Opened(EndBranch(log, f)))
    ensures l == Tick(EndBranch(log, f)) && Now(l) == Now(log) && T.AllNumbered(l.parsed)
  {
    hide Feed, Record;
    var s := State(log, frames + [f]);
    T.FeedOne(s, Branched(f.tag, true, openOne), tail);
    T.Tops(frames, f);
    TopIsInnermost(frames, f);
    AndOr.RecordsNone(log);
    assert LeaveTo(s, |frames| + 1) == s && f.(open := []) == f;
    if f.branch.Some? {
      T.RecordAdds(log, f.branch.value, Maybe);
      Numbered(log, Record(log, f.branch.value, Maybe), [],
               T.FrameMark(Some(Maybe), f.branch.value.low, Now(log)));
    }
    l := Tick(EndBranch(log, f));
    g := f.(branch := Some(Opened(EndBranch(log, f))), seen := Now(l));
  }

  /** A second "then" changes nothing. */
  lemma SameBranch(log: Log, frames: seq<Frame>, f: Frame, tail: seq<Event>)
    requires frames != [] && f.branch.Some?
    ensures Feed(State(log, frames + [f]), [Branched(f.tag, true, true)] + tail) ==
            Feed(State(log, frames + [f]), tail)
  {
    hide Feed;
    T.FeedOne(State(log, frames + [f]), Branched(f.tag, true, true), tail);
    TopIsInnermost(frames, f);
  }

  /** A branch that holds these trees is recorded where it ends. */
  lemma BranchAdds(log: Log, l: Log, f: Frame, commands: seq<Command>, trees: seq<Tree>)
    requires f.branch.Some? && f.branch.value.low == Now(log) && Size(trees) == |commands|
    requires T.Adds(log, l, commands, Flat(trees, Now(log)))
    ensures T.Adds(log, EndBranch(l, f), commands, Flat(Wrap(Maybe, trees), Now(log)))
    ensures Now(EndBranch(l, f)) == Now(log) + |commands| && T.AllNumbered(EndBranch(l, f).parsed)
  {
    hide T.Adds, Flat, Wrap, Size, Record;
    Numbered(log, l, commands, Flat(trees, Now(log)));
    T.RecordAdds(l, f.branch.value, Maybe);
    var mark := T.FrameMark(Some(Maybe), Now(log), Now(l));
    AddsJoin(log, l, EndBranch(l, f), commands, [], Flat(trees, Now(log)), mark);
    assert commands + [] == commands;
    FlatWrap(Maybe, trees, Now(log));
    Numbered(log, EndBranch(l, f), commands, Flat(Wrap(Maybe, trees), Now(log)));
  }

  /** What stands behind a branch, and the end of the `if`; the branch before is recorded first. */
  lemma {:induction false} ReadOther(log: Log, frames: seq<Frame>, f: Frame, other: Other, tail: seq<Event>)
      returns (l: Log)
    requires T.AllNumbered(log.parsed) && frames != [] && Fresh(log, f) && f.branch.Some? && f.kind.None?
    requires f.tag == "if" && T.AllNumbered(EndBranch(log, f).parsed) && Now(EndBranch(log, f)) == Now(log)
    ensures Feed(State(log, frames + [f]), OtherEvents(other) + ([Left("if")] + tail)) == Feed(State(l, frames), tail)
    ensures T.Adds(EndBranch(log, f), l, OtherCommands(other), Flat(OtherForest(other), Now(log)))
    decreases OtherWeight(other), 0
  {
    hide Feed, T.Adds, T.AllNumbered, BodyEvents, BodyForest, Flat, LeaveFrame, Size, EndBranch, Wrap;
    var ended, behind := EndBranch(log, f), [Left("if")] + tail;
    match other {
      case Fi =>
        assert OtherEvents(other) + behind == behind;
        Leaves(log, frames, f, tail);
        l := ended;
        AddsNothing(ended, l);
        NoTrees(Now(log));
      case Else(no) =>
        var events := BodyEvents(no) + ([Ended] + behind);
        assert OtherEvents(other) + behind == [Branched("if", true, false)] + events;
        var m, h := Branches(log, frames, f, false, events);
        var n, k := ReadWhole(m, frames, h, no, behind);
        AddsFrom(ended, m, n, BodyCommands(no), Flat(BodyForest(no), Now(log)));
        Leaves(n, frames, k, tail);
        l := EndBranch(n, k);
        BodySize(no);
        BranchAdds(ended, n, k, BodyCommands(no), BodyForest(no));
      case Elif(cond, yes, more) =>
        l := ReadElif(log, frames, f, cond, yes, more, tail);
    }
  }

  lemma NoTrees(at: nat) ensures Flat([], at) == [] {}

  lemma {:induction false} ReadElif(log: Log, frames: seq<Frame>, f: Frame, cond: Body, yes: Body, more: Other,
                                    tail: seq<Event>)
      returns (l: Log)
    requires T.AllNumbered(log.parsed) && frames != [] && Fresh(log, f) && f.branch.Some? && f.kind.None?
    requires f.tag == "if" && T.AllNumbered(EndBranch(log, f).parsed) && Now(EndBranch(log, f)) == Now(log)
    ensures var other := Elif(cond, yes, more);
            Feed(State(log, frames + [f]), OtherEvents(other) + ([Left("if")] + tail)) ==
              Feed(State(l, frames), tail) &&
            T.Adds(EndBranch(log, f), l, OtherCommands(other), Flat(OtherForest(other), Now(log)))
    decreases BodyWeight(cond) + BodyWeight(yes) + OtherWeight(more), 3
  {
    hide Feed, T.Adds, T.AllNumbered, BodyEvents, BodyForest, Flat, Size, EndBranch, Wrap, OtherForest;
    var ended, behind := EndBranch(log, f), [Left("if")] + tail;
    var third := OtherEvents(more) + behind;
    var second := [Branched("if", true, true)] + (BodyEvents(yes) + ([Ended] + third));
    assert OtherEvents(Elif(cond, yes, more)) + behind ==
      [Branched("if", true, false)] + (BodyEvents(cond) + ([Ended] + second)) by { ElifEvents(cond, yes, more, tail); }
    var m, h := Branches(log, frames, f, false, BodyEvents(cond) + ([Ended] + second));
    var a, b := ReadWhole(m, frames, h, cond, second);
    var x := Flat(BodyForest(cond), Now(log));
    AddsFrom(ended, m, a, BodyCommands(cond), x);
    Numbered(ended, a, BodyCommands(cond), x);
    SameBranch(a, frames, b, BodyEvents(yes) + ([Ended] + third));
    var n, k := ReadWhole(a, frames, b, yes, third);
    var y := Flat(BodyForest(yes), Now(a));
    AddsJoin(ended, a, n, BodyCommands(cond), BodyCommands(yes), x, y);
    Numbered(ended, n, BodyCommands(cond) + BodyCommands(yes), x + y);
    BodySize(cond);
    BodySize(yes);
    FlatJoin(BodyForest(cond), BodyForest(yes), Now(log));
    SizeJoin(BodyForest(cond), BodyForest(yes));
    var trees := BodyForest(cond) + BodyForest(yes);
    BranchAdds(ended, n, k, BodyCommands(cond) + BodyCommands(yes), trees);
    assert Now(EndBranch(n, k)) == Now(n);
    l := ReadOther(n, frames, k, more, tail);
    ElifAdds(ended, EndBranch(n, k), l, cond, yes, more);
  }

  lemma ElifEvents(cond: Body, yes: Body, more: Other, tail: seq<Event>)
    ensures OtherEvents(Elif(cond, yes, more)) + ([Left("if")] + tail) ==
            [Branched("if", true, false)] + (BodyEvents(cond) + ([Ended] + ([Branched("if", true, true)] +
              (BodyEvents(yes) + ([Ended] + (OtherEvents(more) + ([Left("if")] + tail)))))))
  {
    hide BodyEvents;
  }

  lemma ElifAdds(log: Log, m: Log, l: Log, cond: Body, yes: Body, more: Other)
    requires var trees := BodyForest(cond) + BodyForest(yes);
             T.Adds(log, m, BodyCommands(cond) + BodyCommands(yes), Flat(Wrap(Maybe, trees), Now(log))) &&
             Size(trees) == |BodyCommands(cond)| + |BodyCommands(yes)|
    requires T.Adds(m, l, OtherCommands(more), Flat(OtherForest(more), Now(m)))
    ensures var other := Elif(cond, yes, more);
            T.Adds(log, l, OtherCommands(other), Flat(OtherForest(other), Now(log)))
  {
    hide T.Adds, BodyForest, Flat, Size, Wrap, BodyCommands;
    var first := Wrap(Maybe, BodyForest(cond) + BodyForest(yes));
    AddsJoin(log, m, l, BodyCommands(cond) + BodyCommands(yes), OtherCommands(more), Flat(first, Now(log)),
             Flat(OtherForest(more), Now(m)));
    FlatWrap(Maybe, BodyForest(cond) + BodyForest(yes), Now(log));
    FlatJoin(first, OtherForest(more), Now(log));
  }

  lemma {:induction false} ReadChoice(log: Log, frames: seq<Frame>, item: Item, tail: seq<Event>) returns (l: Log)
    requires item.Choice? && T.AllNumbered(log.parsed) && frames != []
    ensures Feed(State(log, frames), ItemEvents(item) + tail) == Feed(State(l, frames), tail)
    ensures T.Adds(log, l, Commands(item), Flat(Forest(item), Now(log)))
    decreases Weight(item), 0
  {
    hide Feed, T.Adds, T.AllNumbered, BodyEvents, BodyForest, Flat, Size, EndBranch, Wrap, OtherForest;
    var Choice(cond, yes, other) := item;
    var nf := NewFrame(log, "if", None);
    var third := OtherEvents(other) + ([Left("if")] + tail);
    var second := [Branched("if", true, true)] + (BodyEvents(yes) + ([Ended] + third));
    assert ItemEvents(item) + tail == [Entered("if", None)] + (BodyEvents(cond) + ([Ended] + second)) by {
      ChoiceEvents(cond, yes, other, tail);
    }
    Enters(log, frames, "if", None, BodyEvents(cond) + ([Ended] + second));
    SameNumbers(log);
    var a, b := ReadWhole(Tick(log), frames, nf, cond, second);
    var x := Flat(BodyForest(cond), Now(log));
    AddsFrom(log, Tick(log), a, BodyCommands(cond), x);
    Numbered(log, a, BodyCommands(cond), x);
    var m, h := Branches(a, frames, b, true, BodyEvents(yes) + ([Ended] + third));
    assert EndBranch(a, b) == a by { NoBranch(a, b); }
    var n, k := ReadWhole(m, frames, h, yes, third);
    AddsFrom(a, m, n, BodyCommands(yes), Flat(BodyForest(yes), Now(a)));
    Numbered(a, n, BodyCommands(yes), Flat(BodyForest(yes), Now(a)));
    BodySize(cond);
    BodySize(yes);
    BranchAdds(a, n, k, BodyCommands(yes), BodyForest(yes));
    l := ReadOther(n, frames, k, other, tail);
    ChoiceAdds(log, a, EndBranch(n, k), l, item);
  }

  lemma NoBranch(log: Log, f: Frame) requires f.branch.None? ensures EndBranch(log, f) == log {}

  lemma ChoiceEvents(cond: Body, yes: Body, other: Other, tail: seq<Event>)
    ensures ItemEvents(Choice(cond, yes, other)) + tail ==
            [Entered("if", None)] + (BodyEvents(cond) + ([Ended] + ([Branched("if", true, true)] +
              (BodyEvents(yes) + ([Ended] + (OtherEvents(other) + ([Left("if")] + tail)))))))
  {
    hide BodyEvents, OtherEvents;
  }

  lemma ChoiceAdds(log: Log, a: Log, m: Log, l: Log, item: Item)
    requires item.Choice? && T.Adds(log, a, BodyCommands(item.cond), Flat(BodyForest(item.cond), Now(log)))
    requires T.Adds(a, m, BodyCommands(item.yes), Flat(Wrap(Maybe, BodyForest(item.yes)), Now(a)))
    requires T.Adds(m, l, OtherCommands(item.other), Flat(OtherForest(item.other), Now(m)))
    requires Size(BodyForest(item.cond)) == |BodyCommands(item.cond)|
    requires Size(BodyForest(item.yes)) == |BodyCommands(item.yes)|
    ensures T.Adds(log, l, Commands(item), Flat(Forest(item), Now(log)))
  {
    hide T.Adds, BodyForest, OtherForest, Flat, Size, Wrap, BodyCommands, OtherCommands;
    var x, yes, other := BodyForest(item.cond), Wrap(Maybe, BodyForest(item.yes)), OtherForest(item.other);
    AddsJoin(a, m, l, BodyCommands(item.yes), OtherCommands(item.other), Flat(yes, Now(a)), Flat(other, Now(m)));
    FlatWrap(Maybe, BodyForest(item.yes), Now(a));
    FlatJoin(yes, other, Now(a));
    AddsJoin(log, a, l, BodyCommands(item.cond), BodyCommands(item.yes) + OtherCommands(item.other),
             Flat(x, Now(log)), Flat(yes + other, Now(a)));
    FlatJoin(x, yes + other, Now(log));
  }

  lemma {:induction false} ReadItem(log: Log, outer: seq<Frame>, f: Frame, item: Item, tail: seq<Event>)
      returns (l: Log, g: Frame)
    requires T.AllNumbered(log.parsed)
    ensures Reads(log, outer, f, ItemEvents(item), tail, l, g, [], Commands(item), Flat(Forest(item), Now(log)))
    ensures g == f.(plain := f.plain || (item.Plain? && item.test))
    decreases Weight(item), 1
  {
    hide Feed, T.Adds, T.AllNumbered, ItemEvents, Forest, Flat, Commands;
    g := f.(plain := f.plain || (item.Plain? && item.test));
    assert [] + tail == tail;
    match item
    case Plain(_, _) =>
      ReadPlain(log, outer, f, item, tail);
      l := AndOr.Reads(log, item.commands);
    case Group(_, _) => l := ReadGroup(log, outer + [f], item, tail);
    case Sub(_) => l := ReadSub(log, outer + [f], item, tail);
    case Loop(_, _) => l := ReadLoop(log, outer + [f], item, tail);
    case Choice(_, _, _) => l := ReadChoice(log, outer + [f], item, tail);
  }

  /** The parse of a script is its forest, range by range. */
  lemma ScriptIsItsForest(body: Body)
    ensures var p := ParseList(EMPTY, BodyEvents(body)).parsed;
            p.commands == BodyCommands(body) && T.Marks(p) == Flat(BodyForest(body), 0) && T.AllNumbered(p)
  {
    hide ParseList, BodyEvents, BodyForest, Flat, BodyCommands;
    ReadList(EMPTY, body);
    var l := ParseList(EMPTY, BodyEvents(body));
    T.NoMarks();
    assert T.Marks(l.parsed) == T.Marks(EMPTY.parsed) + Flat(BodyForest(body), 0);
  }
}
