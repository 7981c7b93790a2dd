/**
  `ParseResult` and `Guards` (ember_armor/ledger/shell/core.py) as they work: lists and
  dictionaries updated in place.  Each method does what its function in `Ranges` says.
 */
module Guards {
  import opened Prelude
  import opened Paths
  import opened Moves
  import opened Scopes
  import opened Ranges

  class ParseResult {
    var commands: seq<Command>
    var scopes: seq<Range>
    var guards: map<nat, Guard>
    var kept: set<nat>
    var entered: map<nat, seq<Target>>
    var born: seq<nat>
    var clock: nat

    function Value(): Log
      reads this
    {
      Log(Parsed(commands, scopes, guards, kept, entered), born, clock)
    }

    constructor ()
      ensures Value() == EMPTY
    {
      commands, scopes, guards, kept, entered, born, clock := [], [], map[], {}, map[], [], 0;
    }

    method GuardFrom(low: Start, kind: Guard)
      modifies this
      ensures Value() == Record(old(Value()), low, kind)
    {
      var high := |commands|;
      if high <= low.low { return; }
      var number := |scopes|;
      scopes := scopes + [(low.low, high)];
      guards := guards[number := kind];
      born := born + [low.born];
    }

    method MergeIn(other: ParseResult, chain: seq<Target>, keep: bool)
      requires other != this
      modifies this
      ensures Value() == Merge(old(Value()), other.Value(), chain, keep)
    {
      hide Shifted, Later, Renumbered, Numbers;
      ghost var p, q, log := Value().parsed, other.Value().parsed, Value();
      var offset, first := |commands|, |scopes|;
      scopes := scopes + Shifted(other.scopes, offset);
      entered := entered + Renumbered(other.entered, first);
      kept := kept + Numbers(other.kept, first);
      guards := guards + Renumbered(other.guards, first);
      var number := |scopes|;
      scopes := scopes + [(offset, offset + |other.commands|)];
      if chain != [] {
        entered := entered[number := chain];
      }
      if keep {
        kept := kept + {number};
      }
      commands := commands + other.commands;
      born := born + Later(other.born, clock + 1) + [clock];
      clock := clock + 1 + other.clock;
      assert Value().parsed == MergedParse(p, q, chain, keep);
      assert born == MergedBorn(log.born, other.born, log.clock);
    }
  }

  class Guards {
    const out: ParseResult
    var frames: seq<Frame>

    function Snapshot(): State
      reads this, out
    {
      State(out.Value(), frames)
    }

    constructor (result: ParseResult)
      modifies result
      ensures out == result
      ensures Snapshot() == State(Tick(old(result.Value())), [NewFrame(old(result.Value()), "", None)])
    {
      out := result;
      frames := [Frame("", None, Start(|result.commands|, result.clock), |result.commands|, false, [], None, None)];
      new;
      result.clock := result.clock + 1;
    }

    /** Record the ranges of a frame that `operator` ends (all: a list end). */
    method CloseRanges(frame: Frame, operator: Option<Operator>) returns (closed: Frame)
      modifies out
      ensures (out.Value(), closed) == Close(old(out.Value()), frame, operator)
    {
      if operator.Some? && frame.endsOn != operator { return frame; }
      var i := |frame.open|;
      assert frame.open[..i] == frame.open;
      while i > 0
        invariant 0 <= i <= |frame.open|
        invariant RecordAll(out.Value(), frame.open[..i]) == RecordAll(old(out.Value()), frame.open)
      {
        i := i - 1;
        assert Init(frame.open[..i + 1]) == frame.open[..i] && Last(frame.open[..i + 1]) == frame.open[i];
        out.GuardFrom(frame.open[i], Maybe);
      }
      closed := frame.(open := []);
    }

    method LinkOn(operator: Operator)
      requires frames != []
      modifies this, out
      ensures Snapshot() == OnTop(old(frames), Link(old(out.Value()), Last(old(frames)), operator))
    {
      var frame := CloseRanges(Last(frames), Some(operator));
      var now := |out.commands|;
      var plain := frame.plain || CanFail(if frame.seen <= now then out.commands[frame.seen..] else []);
      frame := frame.(plain := plain, seen := now);
      if operator == OrElse {
        frame := frame.(open := frame.open + [Start(now, out.clock)], endsOn := Some(AndThen));
        out.clock := out.clock + 1;
      } else if frame.plain {
        frame := frame.(open := frame.open + [Start(now, out.clock)], endsOn := Some(OrElse), plain := false);
        out.clock := out.clock + 1;
      }
      frames := Init(frames) + [frame];
    }

    method Note()
      requires frames != []
      modifies this
      ensures Snapshot() == OnTop(old(frames), (old(out.Value()), Last(old(frames)).(plain := true)))
    {
      frames := Init(frames) + [Last(frames).(plain := true)];
    }

    method End()
      requires frames != []
      modifies this, out
      ensures Snapshot() == OnTop(old(frames), EndList(old(out.Value()), Last(old(frames))))
    {
      var frame := CloseRanges(Last(frames), None);
      frames := Init(frames) + [frame.(seen := |out.commands|, plain := false)];
    }

    method Enter(tag: string, kind: Option<Guard>)
      modifies this, out
      ensures Snapshot() == State(Tick(old(out.Value())), old(frames) + [NewFrame(old(out.Value()), tag, kind)])
    {
      var now := |out.commands|;
      frames := frames + [Frame(tag, kind, Start(now, out.clock), now, false, [], None, None)];
      out.clock := out.clock + 1;
    }

    method Leave()
      requires frames != []
      modifies this, out
      ensures Snapshot() == State(LeaveFrame(old(out.Value()), Last(old(frames))), Init(old(frames)))
    {
      var frame := Last(frames);
      frames := Init(frames);
      frame := CloseRanges(frame, None);
      if frame.branch.Some? {
        out.GuardFrom(frame.branch.value, Maybe);
      }
      if frame.kind.Some? {
        out.GuardFrom(frame.low, frame.kind.value);
      }
    }

    method LeaveUntil(count: nat)
      requires count <= |frames|
      modifies this, out
      ensures Snapshot() == LeaveTo(old(Snapshot()), count)
    {
      while |frames| > count
        invariant count <= |frames|
        invariant LeaveTo(Snapshot(), count) == LeaveTo(old(Snapshot()), count)
      {
        Leave();
      }
    }

    method BranchOff(tag: string, more: bool, openOne: bool)
      requires frames != []
      modifies this, out
      ensures Snapshot() == Branch(old(Snapshot()), tag, more, openOne)
    {
      hide Record, RecordAll, Innermost, LeaveFrame;
      var i := Innermost(frames, tag);
      if i == 0 || (openOne && frames[i].branch.Some?) { return; }
      LeaveUntil(i + 1);
      var frame := CloseRanges(Last(frames), None);
      if frame.branch.Some? {
        out.GuardFrom(frame.branch.value, Maybe);
      }
      var now := |out.commands|;
      frame := frame.(branch := if more then Some(Start(now, out.clock)) else None, seen := now, plain := false);
      if more {
        out.clock := out.clock + 1;
      }
      frames := Init(frames) + [frame];
    }

    method LeaveTagged(tag: string)
      requires frames != []
      modifies this, out
      ensures Snapshot() == LeaveTag(old(Snapshot()), tag)
    {
      var i := Innermost(frames, tag);
      if i != 0 {
        LeaveUntil(i);
      }
    }

    method FinishList()
      requires frames != []
      modifies this, out
      ensures out.Value() == Finish(old(Snapshot()))
    {
      LeaveUntil(1);
      var frame := CloseRanges(frames[0], None);
      frames := [frame.(seen := |out.commands|, plain := false)];
    }
  }

  /** What a parser does with one event of the list it reads. */
  method FeedEvent(guards: Guards, event: Event)
    requires guards.frames != []
    modifies guards, guards.out
    ensures guards.frames != [] && guards.Snapshot() == Next(old(guards.Snapshot()), event)
    decreases event, 0
  {
    hide Link, EndList, Branch, LeaveTag, Merge;
    var out := guards.out;
    match event
    case Reported(c) => out.commands := out.commands + [c];
    case Linked(operator) => guards.LinkOn(operator);
    case Noted => guards.Note();
    case Ended => guards.End();
    case Entered(tag, kind) => guards.Enter(tag, kind);
    case Branched(tag, more, openOne) => guards.BranchOff(tag, more, openOne);
    case Left(tag) => guards.LeaveTagged(tag);
    case List(inner, own) => FeedList(guards, inner, own);
    case Script(script, chain, keep) =>
      var other := new ParseResult();
      ParseEvents(other, script);
      out.MergeIn(other, chain, keep);
  }

  method FeedList(guards: Guards, inner: seq<Event>, own: bool)
    requires guards.frames != []
    modifies guards.out
    ensures var log := old(guards.out.Value());
            var l := ParseList(Tick(log), inner);
            guards.Snapshot() == State(if own then AddScope(l, Opened(log)) else l, old(guards.frames))
    decreases inner, 2
  {
    hide ParseList;
    var out := guards.out;
    var low := Start(|out.commands|, out.clock);
    out.clock := out.clock + 1;
    ParseEvents(out, inner);
    if own {
      out.scopes := out.scopes + [(low.low, |out.commands|)];
      out.born := out.born + [low.born];
    }
  }

  /** One list, with a `Guards` of its own. */
  method ParseEvents(out: ParseResult, events: seq<Event>)
    modifies out
    ensures out.Value() == ParseList(old(out.Value()), events)
    decreases events, 1
  {
    hide Next, Finish;
    var guards := new Guards(out);
    ghost var begun := guards.Snapshot();
    for i := 0 to |events|
      invariant guards.out == out && fresh(guards) && guards.frames != []
      invariant Feed(guards.Snapshot(), events[i..]) == Feed(begun, events)
    {
      assert events[i..][1..] == events[i + 1..];
      FeedEvent(guards, events[i]);
    }
    assert events[|events|..] == [];
    guards.FinishList();
  }
}
