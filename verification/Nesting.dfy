/** Every parse records nested ranges, the outer of two equal ones last. */
module Nesting {
  import opened Prelude
  import opened Paths
  import opened Moves
  import opened Scopes
  import opened Ranges

  // ---- what is kept -------------------------------------------------------------

  /** An earlier range ends before a later one begins, or lies inside it; and then the
      later-numbered one opened first. */
  predicate Follows(a: Range, bornA: nat, b: Range, bornB: nat) {
    a.1 <= b.0 || (Inside(a, b) && bornB < bornA)
  }

  /** The ranges recorded below `now`, all opened before `clock`. */
  predicate TidyRanges(scopes: seq<Range>, born: seq<nat>, now: nat, clock: nat) {
    |born| == |scopes| &&
    (forall n :: 0 <= n < |scopes| ==> scopes[n].0 <= scopes[n].1 <= now && born[n] < clock) &&
    (forall a, b :: 0 <= a < b < |scopes| ==> Follows(scopes[a], born[a], scopes[b], born[b]))
  }

  predicate Tidy(log: Log) { TidyRanges(log.parsed.scopes, log.born, Now(log), log.clock) }

  /** A range that is still open would be outside everything recorded since it opened. */
  predicate Around(x: Start, r: Range, born: nat) { (x.low <= r.0 && x.born < born) || r.1 <= x.low }

  predicate Clear(log: Log, open: seq<Start>)
    requires |log.born| == |log.parsed.scopes|
  {
    forall x, n :: 0 <= x < |open| && 0 <= n < |log.born| ==> Around(open[x], log.parsed.scopes[n], log.born[n])
  }

  predicate Ordered(log: Log, open: seq<Start>) {
    (forall x :: 0 <= x < |open| ==> open[x].low <= Now(log) && open[x].born < log.clock) &&
    (forall x, y :: 0 <= x < y < |open| ==> open[x].low <= open[y].low && open[x].born < open[y].born)
  }

  /** What holds with the ranges of `open` still open, the outermost first. */
  predicate Good(log: Log, open: seq<Start>) { Tidy(log) && Clear(log, open) && Ordered(log, open) }

  /** Everything `after` adds to `log` lies behind what `log` holds, and opened later. */
  predicate Extends(log: Log, after: Log) {
    Now(log) <= Now(after) && log.clock <= after.clock &&
    log.parsed.scopes <= after.parsed.scopes && log.born <= after.born && |after.born| == |after.parsed.scopes| &&
    |log.born| == |log.parsed.scopes| &&
    forall n :: |log.born| <= n < |after.born| ==> Now(log) <= after.parsed.scopes[n].0 && log.clock <= after.born[n]
  }

  lemma ExtendsTwice(a: Log, b: Log, c: Log)
    requires Extends(a, b) && Extends(b, c)
    ensures Extends(a, c)
  {
  }

  /** What was open before stays outside of what is added. */
  lemma GoodExtends(log: Log, after: Log, open: seq<Start>)
    requires Good(log, open) && Extends(log, after) && Tidy(after)
    ensures Good(after, open)
  {
  }

  lemma GoodFewer(log: Log, open: seq<Start>, fewer: seq<Start>)
    requires Good(log, open) && fewer <= open
    ensures Good(log, fewer)
  {
  }

  lemma GoodOpens(log: Log, open: seq<Start>)
    requires Good(log, open)
    ensures Good(Tick(log), open + [Opened(log)]) && Extends(log, Tick(log))
  {
    assert forall n :: 0 <= n < |log.born| ==> Around(Opened(log), log.parsed.scopes[n], log.born[n]);
  }

  lemma GoodAdds(log: Log, open: seq<Start>, low: Start)
    requires Good(log, open + [low])
    ensures Good(AddScope(log, low), open)
  {
    var after := AddScope(log, low);
    var scopes, n := after.parsed.scopes, |log.born|;
    assert (open + [low])[|open|] == low;
    forall a, b | 0 <= a < b < |scopes| ensures Follows(scopes[a], after.born[a], scopes[b], after.born[b]) {
      if b == n { assert Around(low, scopes[a], after.born[a]); }
    }
    forall x, m | 0 <= x < |open| && 0 <= m <= n ensures Around(open[x], scopes[m], after.born[m]) {
      assert (open + [low])[x] == open[x];
    }
    forall x | 0 <= x < |open| ensures (open + [low])[x] == open[x] {}
  }

  /** Adding a range that opened since `log` extends it. */
  predicate Since(log: Log, x: Start) { Now(log) <= x.low && log.clock <= x.born }

  lemma AddsSince(base: Log, log: Log, low: Start)
    requires Extends(base, log) && Since(base, low)
    ensures Extends(base, AddScope(log, low))
  {
  }

  // ---- the steps ------------------------------------------------------------------

  lemma RecordKeeps(base: Log, log: Log, open: seq<Start>, low: Start, kind: Guard)
    requires Good(log, open + [low]) && Extends(base, log) && Since(base, low)
    ensures Good(Record(log, low, kind), open) && Extends(base, Record(log, low, kind))
    ensures Now(Record(log, low, kind)) == Now(log) && Record(log, low, kind).clock == log.clock
  {
    GoodAdds(log, open, low);
    AddsSince(base, log, low);
    GoodFewer(log, open + [low], open);
    var added := AddScope(log, low);
    assert Good(added, open) && Extends(base, added);
  }

  predicate AllSince(base: Log, open: seq<Start>) { forall x :: 0 <= x < |open| ==> Since(base, open[x]) }

  lemma {:induction false} RecordAllKeeps(base: Log, log: Log, outer: seq<Start>, open: seq<Start>)
    requires Good(log, outer + open) && Extends(base, log) && AllSince(base, open)
    ensures Good(RecordAll(log, open), outer) && Extends(base, RecordAll(log, open))
    ensures Now(RecordAll(log, open)) == Now(log) && RecordAll(log, open).clock == log.clock
    decreases open
  {
    if open == [] {
      assert outer + open == outer;
    } else {
      assert outer + open == (outer + Init(open)) + [Last(open)];
      RecordKeeps(base, log, outer + Init(open), Last(open), Maybe);
      RecordAllKeeps(base, Record(log, Last(open), Maybe), outer, Init(open));
    }
  }

  /** The ranges one frame holds open, the outermost first. */
  function Starts(f: Frame): seq<Start> {
    [f.low] + (if f.branch.Some? then [f.branch.value] else []) + f.open
  }

  function AllStarts(frames: seq<Frame>): seq<Start> {
    if frames == [] then [] else AllStarts(Init(frames)) + Starts(Last(frames))
  }

  lemma TopStarts(frames: seq<Frame>, f: Frame)
    ensures AllStarts(frames + [f]) == AllStarts(frames) + Starts(f)
  {
    assert Init(frames + [f]) == frames;
  }

  /** The state of a parse that began at `base`. */
  predicate Fine(base: Log, s: State) {
    Good(s.log, AllStarts(s.frames)) && Extends(base, s.log) && AllSince(base, AllStarts(s.frames))
  }

  lemma CloseKeeps(base: Log, outer: seq<Frame>, log: Log, f: Frame, operator: Option<Operator>)
    requires Fine(base, State(log, outer + [f]))
    ensures var (l, g) := Close(log, f, operator);
            Fine(base, State(l, outer + [g])) && Now(l) == Now(log) && l.clock == log.clock &&
            g == f.(open := g.open) && (Ends(f, operator) ==> g.open == [])
  {
    hide Good, Extends, RecordAll, AllSince, Starts;
    var shut := f.(open := []);
    var front := AllStarts(outer) + Starts(shut);
    TopStarts(outer, f);
    TopStarts(outer, shut);
    StartsMore(f);
    assert AllStarts(outer + [f]) == front + f.open;
    if Ends(f, operator) {
      SinceParts(base, front, f.open);
      RecordAllKeeps(base, log, front, f.open);
    }
  }

  lemma StartsMore(f: Frame) ensures Starts(f) == Starts(f.(open := [])) + f.open {}

  lemma SinceParts(base: Log, a: seq<Start>, b: seq<Start>)
    requires AllSince(base, a + b)
    ensures AllSince(base, a) && AllSince(base, b)
  {
    forall x | 0 <= x < |a| ensures Since(base, a[x]) { assert (a + b)[x] == a[x]; }
    forall x | 0 <= x < |b| ensures Since(base, b[x]) { assert (a + b)[|a| + x] == b[x]; }
  }

  lemma OpenKeeps(base: Log, outer: seq<Frame>, log: Log, f: Frame, g: Frame)
    requires Fine(base, State(log, outer + [f]))
    requires g.low == f.low && g.branch == f.branch && g.open == f.open + [Opened(log)]
    ensures Fine(base, State(Tick(log), outer + [g]))
  {
    TopStarts(outer, f);
    TopStarts(outer, g);
    assert AllStarts(outer + [g]) == AllStarts(outer + [f]) + [Opened(log)];
    GoodOpens(log, AllStarts(outer + [f]));
  }

  lemma SameStarts(base: Log, outer: seq<Frame>, log: Log, f: Frame, g: Frame)
    requires Fine(base, State(log, outer + [f])) && Starts(f) == Starts(g)
    ensures Fine(base, State(log, outer + [g]))
  {
    TopStarts(outer, f);
    TopStarts(outer, g);
  }

  lemma LinkKeeps(base: Log, outer: seq<Frame>, log: Log, f: Frame, operator: Operator)
    requires Fine(base, State(log, outer + [f]))
    ensures Fine(base, State(Link(log, f, operator).0, outer + [Link(log, f, operator).1]))
  {
    CloseKeeps(base, outer, log, f, Some(operator));
    var (l, g) := Close(log, f, Some(operator));
    var (m, h) := Link(log, f, operator);
    if m == Tick(l) {
      OpenKeeps(base, outer, l, g, h);
    } else {
      SameStarts(base, outer, l, g, h);
    }
  }

  lemma DropTop(base: Log, s: State, open: seq<Start>)
    requires Good(s.log, AllStarts(s.frames) + open) && Extends(base, s.log) &&
             AllSince(base, AllStarts(s.frames) + open)
    ensures Fine(base, s)
  {
    GoodFewer(s.log, AllStarts(s.frames) + open, AllStarts(s.frames));
    var all := AllStarts(s.frames);
    forall x | 0 <= x < |all| ensures Since(base, all[x]) { assert (all + open)[x] == all[x]; }
  }

  lemma BranchEnds(base: Log, outer: seq<Frame>, log: Log, f: Frame)
    requires Fine(base, State(log, outer + [f])) && f.open == []
    ensures var m := EndBranch(log, f);
            Fine(base, State(m, outer + [f.(branch := None)])) && Now(m) == Now(log) && m.clock == log.clock
  {
    var g := f.(branch := None);
    TopStarts(outer, f);
    TopStarts(outer, g);
    if f.branch.Some? {
      var front := AllStarts(outer + [g]);
      assert AllStarts(outer + [f]) == front + [f.branch.value];
      assert Since(base, (front + [f.branch.value])[|front|]);
      RecordKeeps(base, log, front, f.branch.value, Maybe);
      forall x | 0 <= x < |front| ensures Since(base, front[x]) { assert (front + [f.branch.value])[x] == front[x]; }
    } else {
      assert f == g;
    }
  }

  lemma LeaveKeeps(base: Log, s: State)
    requires Fine(base, s) && s.frames != []
    ensures Fine(base, State(LeaveFrame(s.log, Last(s.frames)), Init(s.frames)))
  {
    var outer, f := Init(s.frames), Last(s.frames);
    assert s.frames == outer + [f];
    CloseKeeps(base, outer, s.log, f, None);
    var (l, g) := Close(s.log, f, None);
    BranchEnds(base, outer, l, g);
    var m := EndBranch(l, g);
    TopStarts(outer, g.(branch := None));
    var front := AllStarts(outer);
    assert AllStarts(outer + [g.(branch := None)]) == front + [f.low];
    if f.kind.Some? {
      assert Since(base, (front + [f.low])[|front|]);
      RecordKeeps(base, m, front, f.low, f.kind.value);
      forall x | 0 <= x < |front| ensures Since(base, front[x]) { assert (front + [f.low])[x] == front[x]; }
    } else {
      DropTop(base, State(m, outer), [f.low]);
    }
  }

  lemma {:induction false} LeaveToKeeps(base: Log, s: State, count: nat)
    requires Fine(base, s) && count <= |s.frames|
    ensures Fine(base, LeaveTo(s, count))
    decreases |s.frames|
  {
    if |s.frames| > count {
      LeaveKeeps(base, s);
      LeaveToKeeps(base, State(LeaveFrame(s.log, Last(s.frames)), Init(s.frames)), count);
    }
  }

  lemma BranchBegins(base: Log, outer: seq<Frame>, m: Log, f: Frame, more: bool)
    requires Fine(base, State(m, outer + [f.(branch := None)])) && f.open == []
    ensures more ==> Fine(base, State(Tick(m), outer + [Reset(m, f.(branch := Some(Opened(m))))]))
    ensures !more ==> Fine(base, State(m, outer + [Reset(m, f.(branch := None))]))
  {
    var none := f.(branch := None);
    if more {
      var g := Reset(m, f.(branch := Some(Opened(m))));
      TopStarts(outer, none);
      TopStarts(outer, g);
      assert AllStarts(outer + [g]) == AllStarts(outer + [none]) + [Opened(m)];
      GoodOpens(m, AllStarts(outer + [none]));
    } else {
      SameStarts(base, outer, m, none, Reset(m, none));
    }
  }

  lemma BranchKeeps(base: Log, s: State, tag: string, more: bool, openOne: bool)
    requires Fine(base, s) && s.frames != []
    ensures Fine(base, Branch(s, tag, more, openOne))
  {
    hide Fine;
    var i := Innermost(s.frames, tag);
    if i != 0 && !(openOne && s.frames[i].branch.Some?) {
      LeaveToKeeps(base, s, i + 1);
      var t := LeaveTo(s, i + 1);
      var outer := Init(t.frames);
      assert t.frames == outer + [Last(t.frames)];
      CloseKeeps(base, outer, t.log, Last(t.frames), None);
      var (l, f) := Close(t.log, Last(t.frames), None);
      BranchEnds(base, outer, l, f);
      BranchBegins(base, outer, EndBranch(l, f), f, more);
    }
  }

  // ---- nested lists and scripts ------------------------------------------------------

  lemma ExtendKeeps(base: Log, s: State, after: Log)
    requires Fine(base, s) && Extends(s.log, after) && Tidy(after)
    ensures Fine(base, State(after, s.frames))
  {
    GoodExtends(s.log, after, AllStarts(s.frames));
    ExtendsTwice(base, s.log, after);
  }

  lemma ShiftTidy(scopes: seq<Range>, born: seq<nat>, now: nat, clock: nat, offset: nat, shift: nat)
    requires TidyRanges(scopes, born, now, clock)
    ensures TidyRanges(Shifted(scopes, offset), Later(born, shift), offset + now, shift + clock)
    ensures |Shifted(scopes, offset)| == |scopes| == |Later(born, shift)|
    ensures forall n :: 0 <= n < |scopes| ==> Shifted(scopes, offset)[n].0 >= offset && Later(born, shift)[n] >= shift
  {
    var s, t := Shifted(scopes, offset), Later(born, shift);
    forall a, b | 0 <= a < b < |s| ensures Follows(s[a], t[a], s[b], t[b]) {
      assert Follows(scopes[a], born[a], scopes[b], born[b]);
    }
  }

  lemma JoinTidy(scopes: seq<Range>, born: seq<nat>, now: nat, clock: nat,
                 more: seq<Range>, later: seq<nat>, end: nat, last: nat)
    requires TidyRanges(scopes, born, now, clock) && TidyRanges(more, later, end, last) && now <= end && clock < last
    requires forall n :: 0 <= n < |more| ==> more[n].0 >= now && later[n] > clock
    ensures TidyRanges(scopes + more + [(now, end)], born + later + [clock], end, last)
  {
    var s, t := scopes + more + [(now, end)], born + later + [clock];
    var n, m := |scopes|, |more|;
    forall a, b | 0 <= a < b < |s| ensures Follows(s[a], t[a], s[b], t[b]) {
      if b < n { assert Follows(scopes[a], born[a], scopes[b], born[b]); }
      else if n <= a && b < n + m { assert Follows(more[a - n], later[a - n], more[b - n], later[b - n]); }
    }
  }

  lemma MergeShape(log: Log, other: Log, chain: seq<Target>, keep: bool)
    ensures var after := Merge(log, other, chain, keep);
            after.parsed.scopes == MergedScopes(log.parsed.scopes, other.parsed.scopes, Now(log), Now(other)) &&
            after.born == MergedBorn(log.born, other.born, log.clock) &&
            Now(after) == Now(log) + Now(other) && after.clock == log.clock + 1 + other.clock
  {
  }

  lemma JoinExtends(scopes: seq<Range>, born: seq<nat>, now: nat, clock: nat, more: seq<Range>, later: seq<nat>,
      end: nat)
    requires |scopes| == |born| && |more| == |later|
    requires forall n :: 0 <= n < |more| ==> more[n].0 >= now && later[n] > clock
    ensures var s, t := scopes + more + [(now, end)], born + later + [clock];
            scopes <= s && born <= t && |s| == |t| &&
            forall n :: |born| <= n < |t| ==> now <= s[n].0 && clock <= t[n]
  {
  }

  lemma MergeTidy(log: Log, other: Log, chain: seq<Target>, keep: bool)
    requires Tidy(log) && Tidy(other)
    ensures Tidy(Merge(log, other, chain, keep)) && Extends(log, Merge(log, other, chain, keep))
  {
    hide Merge, MergedParse, Shifted, Later, TidyRanges;
    var p, q := log.parsed, other.parsed;
    var more, later := Shifted(q.scopes, Now(log)), Later(other.born, log.clock + 1);
    ShiftTidy(q.scopes, other.born, Now(other), other.clock, Now(log), log.clock + 1);
    JoinTidy(p.scopes, log.born, Now(log), log.clock, more, later, Now(log) + Now(other), log.clock + 1 + other.clock);
    JoinExtends(p.scopes, log.born, Now(log), log.clock, more, later, Now(log) + Now(other));
    MergeShape(log, other, chain, keep);
  }

  lemma FrameBegins(base: Log, s: State, tag: string, kind: Option<Guard>)
    requires Fine(base, s)
    ensures Fine(base, State(Tick(s.log), s.frames + [NewFrame(s.log, tag, kind)]))
  {
    GoodOpens(s.log, AllStarts(s.frames));
    TopStarts(s.frames, NewFrame(s.log, tag, kind));
    assert Starts(NewFrame(s.log, tag, kind)) == [Opened(s.log)];
  }

  lemma NestedKeeps(base: Log, s: State, l: Log, own: bool)
    requires Fine(base, s) && Extends(Tick(s.log), l) && Tidy(l)
    ensures Fine(base, State(if own then AddScope(l, Opened(s.log)) else l, s.frames))
  {
    var starts := AllStarts(s.frames);
    GoodOpens(s.log, starts);
    GoodExtends(Tick(s.log), l, starts + [Opened(s.log)]);
    ExtendsTwice(s.log, Tick(s.log), l);
    ExtendsTwice(base, s.log, l);
    if own {
      GoodAdds(l, starts, Opened(s.log));
      AddsSince(base, l, Opened(s.log));
    } else {
      GoodFewer(l, starts + [Opened(s.log)], starts);
    }
  }

  lemma CommandKeeps(base: Log, s: State, c: Command)
    requires Fine(base, s)
    ensures Fine(base, State(AddCommand(s.log, c), s.frames))
  {
  }

  lemma EndKeeps(base: Log, outer: seq<Frame>, log: Log, top: Frame)
    requires Fine(base, State(log, outer + [top]))
    ensures Fine(base, OnTop(outer + [top], EndList(log, top)))
  {
    CloseKeeps(base, outer, log, top, None);
    var (l, f) := Close(log, top, None);
    SameStarts(base, outer, l, f, Reset(l, f));
    assert Init(outer + [top]) == outer;
  }

  /** The events of one list that hold no list of their own. */
  lemma SimpleKeeps(base: Log, s: State, event: Event)
    requires s.frames != [] && Fine(base, s) && !event.List? && !event.Script?
    ensures Fine(base, Next(s, event))
  {
    hide Fine;
    var outer, top := Init(s.frames), Last(s.frames);
    assert s.frames == outer + [top];
    match event
    case Reported(c) => CommandKeeps(base, s, c);
    case Linked(operator) => LinkKeeps(base, outer, s.log, top, operator);
    case Noted => SameStarts(base, outer, s.log, top, top.(plain := true));
    case Ended => EndKeeps(base, outer, s.log, top);
    case Entered(tag, kind) => FrameBegins(base, s, tag, kind);
    case Branched(tag, more, openOne) => BranchKeeps(base, s, tag, more, openOne);
    case Left(tag) =>
      if Innermost(s.frames, tag) != 0 { LeaveToKeeps(base, s, Innermost(s.frames, tag)); }
  }

  lemma {:induction false} NextKeeps(base: Log, s: State, event: Event)
    requires s.frames != [] && Fine(base, s)
    ensures Fine(base, Next(s, event))
    decreases event, 0
  {
    hide Fine, Tidy, Extends, Merge, AddScope;
    match event
    case List(inner, own) =>
      TickTidy(base, s);
      ParseKeeps(Tick(s.log), inner);
      NestedKeeps(base, s, ParseList(Tick(s.log), inner), own);
    case Script(script, chain, keep) =>
      EmptyTidy();
      ParseKeeps(EMPTY, script);
      FineTidy(base, s);
      MergeTidy(s.log, ParseList(EMPTY, script), chain, keep);
      ExtendKeeps(base, s, Merge(s.log, ParseList(EMPTY, script), chain, keep));
    case _ => SimpleKeeps(base, s, event);
  }

  lemma {:induction false} FeedKeeps(base: Log, s: State, events: seq<Event>)
    requires s.frames != [] && Fine(base, s)
    ensures Fine(base, Feed(s, events))
    decreases events, 0
  {
    hide Fine;
    if events != [] {
      NextKeeps(base, s, events[0]);
      FeedKeeps(base, Next(s, events[0]), events[1..]);
    }
  }

  lemma EmptyTidy() ensures Tidy(EMPTY) {}

  lemma FineTidy(base: Log, s: State)
    requires Fine(base, s)
    ensures Tidy(s.log)
  {
  }

  lemma TickTidy(base: Log, s: State)
    requires Fine(base, s)
    ensures Tidy(Tick(s.log))
  {
  }

  lemma {:induction false} ParseKeeps(log: Log, events: seq<Event>)
    requires Tidy(log)
    ensures Tidy(ParseList(log, events)) && Extends(log, ParseList(log, events))
    decreases events, 1
  {
    var s := State(log, []);
    assert Fine(log, s);
    FrameBegins(log, s, "", None);
    var fed := Feed(State(Tick(log), [NewFrame(log, "", None)]), events);
    assert [] + [NewFrame(log, "", None)] == [NewFrame(log, "", None)];
    FeedKeeps(log, State(Tick(log), [NewFrame(log, "", None)]), events);
    LeaveToKeeps(log, fed, 1);
    var t := LeaveTo(fed, 1);
    assert t.frames == [] + [t.frames[0]];
    CloseKeeps(log, [], t.log, t.frames[0], None);
  }

  /**
    For every stream of events, with lists nested and scripts merged to any depth: the
    recorded ranges nest, they are numbered from the inside out, and of two equal ones
    that hold a command the later-numbered one opened first.  So the tracker, which opens
    the ranges of one command by descending end and number, opens outer ones first.
   */
  lemma EveryParseNests(events: seq<Event>)
    ensures Valid(ParseList(EMPTY, events).parsed)
    ensures var log := ParseList(EMPTY, events);
            |log.born| == |log.parsed.scopes| &&
            forall a, b ::
              0 <= a < b < |log.born| && log.parsed.scopes[a] == log.parsed.scopes[b] &&
              log.parsed.scopes[a].0 < log.parsed.scopes[a].1
              ==> log.born[b] < log.born[a]
  {
    EmptyTidy();
    ParseKeeps(EMPTY, events);
    var log := ParseList(EMPTY, events);
    var scopes := log.parsed.scopes;
    forall a, b | 0 <= a < b < |scopes|
      ensures scopes[a].1 <= scopes[b].0 || (Inside(scopes[a], scopes[b]) && log.born[b] < log.born[a])
    {
      assert Follows(scopes[a], log.born[a], scopes[b], log.born[b]);
    }
  }
}
