/**
  The circuit breaker (ember_armor/core/circuit_breaker.py).  Every change happens under
  one lock, so concurrent calls are a sequence of the locked sections below, in any order.
 */
module Breaker {
  import opened Prelude

  datatype Circuit = Closed | Open | HalfOpen

  datatype Settings = Settings(threshold: nat, recovery: real, window: real)

  /** `failures` are the times kept in the sliding window; the counters tell transitions. */
  datatype State = State(circuit: Circuit, failures: seq<real>, last: Option<real>, trips: nat, closes: nat,
      recoveries: nat)

  const START := State(Closed, [], None, 0, 0, 0)

  /** The entries that are not older than `cutoff`, in order. */
  function Kept(failures: seq<real>, cutoff: real): seq<real> {
    if failures == [] then []
    else Kept(Init(failures), cutoff) + if Last(failures) >= cutoff then [Last(failures)] else []
  }

  // ---- the locked sections ---------------------------------------------------------

  function Check(c: Settings, s: State, now: real): State {
    if s.circuit.Open? && s.last.Some? && now - s.last.value > c.recovery
    then s.(circuit := HalfOpen, recoveries := s.recoveries + 1) else s
  }

  function Succeed(s: State): State {
    if s.circuit.HalfOpen? then s.(circuit := Closed, failures := [], closes := s.closes + 1) else s
  }

  function Prune(c: Settings, s: State, now: real): State { s.(failures := Kept(s.failures, now - c.window)) }

  function Fail(c: Settings, s: State, now: real): State {
    var pruned := Prune(c, s.(failures := s.failures + [now], last := Some(now)), now);
    if |pruned.failures| >= c.threshold then pruned.(circuit := Open, trips := s.trips + 1) else pruned
  }

  class CircuitBreaker {
    const settings: Settings
    var circuit: Circuit
    var failures: seq<real>
    var last: Option<real>
    var trips: nat
    var closes: nat
    var recoveries: nat

    function Value(): State
      reads this
    {
      State(circuit, failures, last, trips, closes, recoveries)
    }

    constructor (c: Settings)
      ensures Value() == START && settings == c
    {
      settings := c;
      circuit, failures, last, trips, closes, recoveries := Closed, [], None, 0, 0, 0;
    }

    method CheckState(now: real)
      modifies this
      ensures Value() == Check(settings, old(Value()), now)
    {
      if circuit == Open && last.Some? {
        var elapsed := now - last.value;
        if elapsed > settings.recovery {
          circuit := HalfOpen;
          recoveries := recoveries + 1;
        }
      }
    }

    /** The first section of `call`: true when the protected function is to be run. */
    method Begin(now: real) returns (admitted: bool)
      modifies this
      ensures Value() == Check(settings, old(Value()), now)
      ensures admitted <==> !Value().circuit.Open?
    {
      CheckState(now);
      admitted := circuit != Open;
    }

    method RecordSuccess()
      modifies this
      ensures Value() == Succeed(old(Value()))
    {
      if circuit == HalfOpen {
        circuit := Closed;
        failures := [];
        closes := closes + 1;
      }
    }

    method PruneWindow(now: real)
      modifies this
      ensures Value() == Prune(settings, old(Value()), now)
    {
      var cutoff := now - settings.window;
      var kept := [];
      for i := 0 to |failures|
        invariant kept == Kept(failures[..i], cutoff)
      {
        assert Init(failures[..i + 1]) == failures[..i] && Last(failures[..i + 1]) == failures[i];
        if failures[i] >= cutoff {
          kept := kept + [failures[i]];
        }
      }
      assert failures[..|failures|] == failures;
      failures := kept;
    }

    method RecordFailure(now: real)
      modifies this
      ensures Value() == Fail(settings, old(Value()), now)
    {
      failures := failures + [now];
      last := Some(now);
      PruneWindow(now);
      if |failures| >= settings.threshold {
        circuit := Open;
        trips := trips + 1;
      }
    }

    method FailureCount(now: real) returns (count: nat)
      modifies this
      ensures Value() == Prune(settings, old(Value()), now) && count == |Value().failures|
    {
      PruneWindow(now);
      count := |failures|;
    }
  }

  // ---- runs --------------------------------------------------------------------------

  /** One locked section: of some call, or of an observer. */
  datatype Section = Begins | Succeeds | Fails | Counts

  datatype Event = Event(section: Section, now: real)

  function Next(c: Settings, s: State, e: Event): State {
    match e.section
    case Begins => Check(c, s, e.now)
    case Succeeds => Succeed(s)
    case Fails => Fail(c, s, e.now)
    case Counts => Prune(c, s, e.now)
  }

  function After(c: Settings, run: seq<Event>): State {
    if run == [] then START else Next(c, After(c, Init(run)), Last(run))
  }

  /** Every failure since the circuit last closed, in order. */
  function Since(c: Settings, run: seq<Event>): seq<real> {
    if run == [] then []
    else if Last(run).section.Fails? then Since(c, Init(run)) + [Last(run).now]
    else if Last(run).section.Succeeds? && After(c, Init(run)).circuit.HalfOpen? then []
    else Since(c, Init(run))
  }

  predicate Forward(run: seq<Event>) { forall i, j :: 0 <= i < j < |run| ==> run[i].now <= run[j].now }

  lemma {:induction false} KeptTwice(failures: seq<real>, before: real, after: real)
    requires before <= after
    ensures Kept(Kept(failures, before), after) == Kept(failures, after)
    decreases failures
  {
    if failures != [] {
      KeptTwice(Init(failures), before, after);
      var kept := Kept(Init(failures), before);
      if Last(failures) >= before {
        assert Init(kept + [Last(failures)]) == kept;
      } else {
        assert kept + [] == kept;
      }
    }
  }

  lemma KeptMore(failures: seq<real>, cutoff: real, now: real)
    ensures Kept(failures + [now], cutoff) == Kept(failures, cutoff) + if now >= cutoff then [now] else []
  {
    assert Init(failures + [now]) == failures;
  }

  /** The stored failures are those since the last close, without some that are out of the
      window by now. */
  ghost predicate Windowed(c: Settings, run: seq<Event>) {
    var s, since := After(c, run), Since(c, run);
    s.failures == since ||
    exists cutoff: real :: s.failures == Kept(since, cutoff) && run != [] && cutoff <= Last(run).now - c.window
  }

  lemma PrunedWindow(c: Settings, run: seq<Event>, now: real)
    requires Windowed(c, run) && (run != [] ==> Last(run).now <= now)
    ensures Kept(After(c, run).failures, now - c.window) == Kept(Since(c, run), now - c.window)
  {
    var s, since := After(c, run), Since(c, run);
    if s.failures != since {
      var cutoff: real :| s.failures == Kept(since, cutoff) && cutoff <= Last(run).now - c.window;
      KeptTwice(since, cutoff, now - c.window);
    }
  }

  lemma SinceMore(c: Settings, before: seq<Event>, e: Event)
    requires e.section.Fails? || e.section.Counts?
    ensures Since(c, before + [e]) == Since(c, before) + if e.section.Fails? then [e.now] else []
  {
    assert Init(before + [e]) == before;
  }

  /** A failure and a count leave exactly the failures of the window. */
  lemma PrunesToWindow(c: Settings, before: seq<Event>, e: Event)
    requires Windowed(c, before) && (before != [] ==> Last(before).now <= e.now) &&
             (e.section.Fails? || e.section.Counts?)
    ensures After(c, before + [e]).failures == Kept(Since(c, before + [e]), e.now - c.window)
  {
    hide After, Since, Kept, Windowed;
    Extended(c, before, e);
    SinceMore(c, before, e);
    PrunedWindow(c, before, e.now);
    if e.section.Fails? {
      KeptMore(After(c, before).failures, e.now - c.window, e.now);
      KeptMore(Since(c, before), e.now - c.window, e.now);
    } else {
      assert Since(c, before) + [] == Since(c, before);
    }
  }

  lemma {:induction false} AlwaysWindowed(c: Settings, run: seq<Event>)
    requires Forward(run)
    ensures Windowed(c, run)
    decreases run
  {
    hide After, Since, Kept;
    if run == [] {
      NothingYet(c);
    } else {
      var before, e := Init(run), Last(run);
      AlwaysWindowed(c, before);
      if before != [] { assert before[|before| - 1] == run[|run| - 2] && run[|run| - 2].now <= e.now; }
      assert run == before + [e];
      if e.section.Fails? || e.section.Counts? {
        PrunesToWindow(c, before, e);
      } else {
        StillWindowed(c, before, e);
      }
    }
  }

  lemma NothingYet(c: Settings) ensures Windowed(c, []) {}

  lemma StillWindowed(c: Settings, before: seq<Event>, e: Event)
    requires Windowed(c, before) && (before != [] ==> Last(before).now <= e.now) &&
             (e.section.Begins? || e.section.Succeeds?)
    ensures Windowed(c, before + [e])
  {
    var run := before + [e];
    assert Init(run) == before && Last(run) == e;
    var s, since := After(c, before), Since(c, before);
    if s.failures != since {
      var cutoff: real :| s.failures == Kept(since, cutoff) && cutoff <= Last(before).now - c.window;
      if !(e.section.Succeeds? && s.circuit.HalfOpen?) {
        assert After(c, run).failures == Kept(Since(c, run), cutoff) && cutoff <= e.now - c.window;
      }
    }
  }

  /**
    In every interleaving with a clock that does not go back: at each failure the stored
    list is exactly the failures since the circuit last closed that lie in the window, and
    the breaker trips exactly when there are as many of them as the threshold.
   */
  lemma FailuresCountRight(c: Settings, before: seq<Event>, now: real)
    requires Forward(before + [Event(Fails, now)])
    ensures var run, recent := before + [Event(Fails, now)], Kept(Since(c, before) + [now], now - c.window);
            After(c, run).failures == recent &&
            After(c, run).trips == After(c, before).trips + (if |recent| >= c.threshold then 1 else 0) &&
            After(c, run).circuit == if |recent| >= c.threshold then Open else After(c, before).circuit
  {
    hide After, Since, Kept;
    var e := Event(Fails, now);
    var run := before + [e];
    assert Init(run) == before;
    ForwardPrefix(run);
    AlwaysWindowed(c, before);
    if before != [] { assert run[|before| - 1] == Last(before) && run[|before|].now == now; }
    PrunesToWindow(c, before, e);
    SinceMore(c, before, e);
    Extended(c, before, e);
  }

  lemma ForwardPrefix(run: seq<Event>)
    requires Forward(run) && run != []
    ensures Forward(Init(run))
  {
  }

  /** What an observer counts is the failures since the last close that lie in the window. */
  lemma CountsAreRight(c: Settings, before: seq<Event>, now: real)
    requires Forward(before + [Event(Counts, now)])
    ensures After(c, before + [Event(Counts, now)]).failures == Kept(Since(c, before), now - c.window)
  {
    var run := before + [Event(Counts, now)];
    assert Init(run) == before && Last(run) == Event(Counts, now);
    ForwardPrefix(run);
    AlwaysWindowed(c, before);
    if before != [] { assert run[|before| - 1] == Last(before) && run[|before|].now == now; }
    PrunesToWindow(c, before, Event(Counts, now));
  }

  lemma {:induction false} KeptShorter(failures: seq<real>, cutoff: real)
    ensures |Kept(failures, cutoff)| <= |failures|
    decreases failures
  {
    if failures != [] { KeptShorter(Init(failures), cutoff); }
  }

  /** While the circuit is closed, fewer failures are stored than the threshold, whatever
      the clock does. */
  lemma {:induction false} ClosedMeansFew(c: Settings, run: seq<Event>)
    requires c.threshold >= 1
    ensures After(c, run).circuit.Closed? ==> |After(c, run).failures| < c.threshold
    decreases run
  {
    if run != [] {
      ClosedMeansFew(c, Init(run));
      KeptShorter(After(c, Init(run)).failures, Last(run).now - c.window);
    }
  }

  /** When the last failure of a run was recorded. */
  function LastFailure(run: seq<Event>): Option<real> {
    if run == [] then None else if Last(run).section.Fails? then Some(Last(run).now) else LastFailure(Init(run))
  }

  lemma {:induction false} LastIsRemembered(c: Settings, run: seq<Event>)
    ensures After(c, run).last == LastFailure(run)
    ensures After(c, run).circuit.Open? ==> LastFailure(run).Some?
    decreases run
  {
    if run != [] { LastIsRemembered(c, Init(run)); }
  }

  /** Once tripped, a call is admitted again exactly when more than the recovery time has
      passed since the last failure of any call, those in flight when it tripped included. */
  lemma AdmittedAgainExactly(c: Settings, run: seq<Event>, now: real)
    requires After(c, run).circuit.Open?
    ensures LastFailure(run).Some?
    ensures After(c, run + [Event(Begins, now)]).circuit ==
            if now - LastFailure(run).value > c.recovery then HalfOpen else Open
  {
    LastIsRemembered(c, run);
    var longer := run + [Event(Begins, now)];
    assert Init(longer) == run && Last(longer) == Event(Begins, now);
  }

  const SHORT_WINDOW := Settings(2, 10.0, 5.0)

  lemma KeptPair(x: real, y: real, cutoff: real)
    ensures Kept([x], cutoff) == if x >= cutoff then [x] else []
    ensures Kept([x, y], cutoff) == (if x >= cutoff then [x] else []) + (if y >= cutoff then [y] else [])
  {
    assert Init([x]) == [] && Init([x, y]) == [x];
  }

  lemma Extended(c: Settings, run: seq<Event>, e: Event)
    ensures After(c, run + [e]) == Next(c, After(c, run), e)
  {
    assert Init(run + [e]) == run;
  }

  lemma TripAndRecover()
    ensures After(SHORT_WINDOW, [Event(Fails, 0.0), Event(Fails, 0.0), Event(Begins, 20.0)])
            == State(HalfOpen, [0.0, 0.0], Some(0.0), 1, 0, 1)
  {
    var c, e, b := SHORT_WINDOW, Event(Fails, 0.0), Event(Begins, 20.0);
    assert [] + [e] == [e] && [e] + [e] == [e, e] && [e, e] + [b] == [e, e, b];
    Extended(c, [], e);
    Extended(c, [e], e);
    Extended(c, [e, e], b);
    KeptPair(0.0, 0.0, -5.0);
    assert [] + [0.0] == [0.0] && [0.0] + [0.0] == [0.0, 0.0];
    assert After(c, [e]) == State(Closed, [0.0], Some(0.0), 0, 0, 0);
    assert After(c, [e, e]) == State(Open, [0.0, 0.0], Some(0.0), 1, 0, 0);
  }

  /**
    A failing trial call does not always open the circuit again: with a window shorter than
    the recovery time the old failures are gone by then, and the circuit stays half open.
   */
  lemma TrialFailureMayStayHalfOpen()
    ensures var run := [Event(Fails, 0.0), Event(Fails, 0.0), Event(Begins, 20.0)];
            After(SHORT_WINDOW, run).circuit.HalfOpen? &&
            After(SHORT_WINDOW, run + [Event(Fails, 20.0)]).circuit.HalfOpen?
  {
    TripAndRecover();
    var run := [Event(Fails, 0.0), Event(Fails, 0.0), Event(Begins, 20.0)];
    Extended(SHORT_WINDOW, run, Event(Fails, 20.0));
    KeptPair(0.0, 0.0, 15.0);
    KeptMore([0.0, 0.0], 15.0, 20.0);
  }

  // ---- transitions ------------------------------------------------------------------------

  /** How often a run takes the circuit from one state to another. */
  function Crossings(c: Settings, run: seq<Event>, from: Circuit, to: Circuit): nat {
    if run == [] then 0
    else
      Crossings(c, Init(run), from, to) +
      if After(c, Init(run)).circuit == from && After(c, run).circuit == to then 1 else 0
  }

  /**
    Each transition of the circuit has one cause: only a failure opens it, only the beginning of
    a call half opens it, and only a success closes it, whenever it finds it half open; the
    failures counted so far are forgotten then and at no other time.
   */
  lemma TransitionsHaveOneCause(c: Settings, run: seq<Event>, e: Event)
    ensures var before, after := After(c, run), After(c, run + [e]);
            (after.circuit.Closed? && !before.circuit.Closed? <==> before.circuit.HalfOpen? && e.section.Succeeds?) &&
            (after.circuit.HalfOpen? && !before.circuit.HalfOpen? ==> before.circuit.Open? && e.section.Begins?) &&
            (after.circuit.Open? && !before.circuit.Open? ==> e.section.Fails?) &&
            (before.circuit.HalfOpen? && e.section.Succeeds? ==> after.failures == []) &&
            (e.section.Begins? || (e.section.Succeeds? && !before.circuit.HalfOpen?) ==>
               after.failures == before.failures && after.last == before.last)
  {
    Extended(c, run, e);
  }

  /** The counters tell exactly these transitions; a trip is counted again when it is already open. */
  lemma {:induction false} CountersTellTransitions(c: Settings, run: seq<Event>)
    ensures var s := After(c, run);
            s.closes == Crossings(c, run, HalfOpen, Closed) && s.recoveries == Crossings(c, run, Open, HalfOpen) &&
            s.trips >= Crossings(c, run, Closed, Open) + Crossings(c, run, HalfOpen, Open)
    decreases run
  {
    if run != [] { CountersTellTransitions(c, Init(run)); }
  }
}
