/**
  Whole sessions of reminders: what the gate quotes from the log it writes itself, and what
  a replay of the same calls counts (ember_armor/ledger/remind.py, gate.py, replay.py).
 */
module ReminderRuns {
  import opened Prelude
  import opened Reminders

  /** What happens in a session: it starts, or a call is judged at a time. */
  datatype Event = Began(forgets: bool) | Call(fired: seq<Rule>, now: real)

  /** The log dates an entry to the whole millisecond, the rest cut off. */
  function Stamp(now: real): real { (now * 1000.0).Floor as real / 1000.0 }

  lemma StampCuts(now: real)
    ensures 0.0 <= now - Stamp(now) < 0.001
  {
    var n := (now * 1000.0).Floor;
    assert n as real <= now * 1000.0 < n as real + 1.0;
  }

  /** The log of a session: each call is judged on what was logged before it. */
  function Log(events: seq<Event>, window: real): seq<Entry> {
    if events == [] then []
    else
      var log := Log(Init(events), window);
      log + [match Last(events)
             case Began(forgets) => Start(forgets)
             case Call(fired, now) => Called(Reminded(fired, log, now, window), Stamp(now))]
  }

  /** The keys the `i`th event of a session quotes. */
  function Quotes(events: seq<Event>, window: real, i: nat): seq<string>
    requires i < |events|
  {
    match events[i]
    case Began(_) => []
    case Call(fired, now) => Reminded(fired, Log(events[..i], window), now, window)
  }

  predicate Forgets(event: Event) { event.Began? && event.forgets }

  /** The `i`th event quoted the key, and nothing was forgotten after it. */
  predicate Reminds(events: seq<Event>, window: real, i: nat, key: string)
    requires i < |events|
  {
    events[i].Call? && key in Quotes(events, window, i) && forall k :: i < k < |events| ==> !Forgets(events[k])
  }

  /** Some call quoted the key, is not forgotten, and was logged inside the window. */
  predicate HeldBy(events: seq<Event>, window: real, now: real, key: string) {
    exists i :: 0 <= i < |events| && Reminds(events, window, i, key) && Recent(now, Stamp(events[i].now), window)
  }

  lemma RemindsBefore(events: seq<Event>, window: real, i: nat, key: string)
    requires i < |events| - 1
    ensures Reminds(events, window, i, key) <==> Reminds(Init(events), window, i, key) && !Forgets(Last(events))
  {
    hide Reminded, Log;
    assert Init(events)[..i] == events[..i];
    assert forall k :: i < k < |Init(events)| ==> Init(events)[k] == events[k];
  }

  lemma LastReminds(events: seq<Event>, window: real, key: string)
    requires events != []
    ensures Reminds(events, window, |events| - 1, key) <==>
            Last(events).Call? && key in Quotes(events, window, |events| - 1)
  {
    hide Quotes;
  }

  lemma NoneHeld(window: real, now: real, key: string) ensures !HeldBy([], window, now, key) {}

  lemma HeldByLast(events: seq<Event>, window: real, now: real, key: string)
    requires events != []
    ensures HeldBy(events, window, now, key) <==>
            ((HeldBy(Init(events), window, now, key) && !Forgets(Last(events))) ||
             (Last(events).Call? && key in Quotes(events, window, |events| - 1) &&
               Recent(now, Stamp(Last(events).now), window)))
  {
    hide Quotes, Recent, Stamp, Reminds;
    var before := Init(events);
    forall i | 0 <= i < |before|
      ensures Reminds(events, window, i, key) <==> Reminds(before, window, i, key) && !Forgets(Last(events))
    {
      RemindsBefore(events, window, i, key);
    }
    LastReminds(events, window, key);
    assert forall i :: 0 <= i < |before| ==> before[i] == events[i];
  }

  /** A key is held back exactly by the calls that quoted it, dated by the log, inside the window. */
  lemma {:induction false} HeldExactly(events: seq<Event>, window: real, now: real, key: string)
    ensures key in Held(Log(events, window), now, window) <==> HeldBy(events, window, now, key)
    decreases events
  {
    hide Reminded, Stamp, Recent, HeldBy, KeySet;
    if events == [] {
      NoneHeld(window, now, key);
    } else {
      HeldExactly(Init(events), window, now, key);
      HeldByLast(events, window, now, key);
      var log := Log(events, window);
      assert Init(log) == Log(Init(events), window);
      assert events[..|events| - 1] == Init(events);
      if Last(events).Call? {
        KeyInSet(Last(log).reminded, key);
      }
    }
  }

  // ---- the interval ------------------------------------------------------------------

  predicate InOrder(events: seq<Event>) {
    forall i, j :: 0 <= i < j < |events| && events[i].Call? && events[j].Call? ==> events[i].now <= events[j].now
  }

  /**
    In a session with a clock that is not set back, two reminders that quote the same rule
    are a whole interval apart, counted from the logged time of the first: unless the agent
    forgot in between.
   */
  lemma RemindersKeepApart(events: seq<Event>, window: real, i: nat, j: nat, key: string)
    requires InOrder(events) && i < j < |events| && events[i].Call? && events[j].Call?
    requires key in Quotes(events, window, i) && key in Quotes(events, window, j)
    requires forall k :: i < k < j ==> !Forgets(events[k])
    ensures events[j].now - Stamp(events[i].now) >= window
    ensures events[j].now - events[i].now > window - 0.001
  {
    hide Held, Log, Stamp, Reminded, Reminds;
    StampCuts(events[i].now);
    if window > 0.0 {
      var before, now := events[..j], events[j].now;
      HeldExactly(before, window, now, key);
      QuotedAreNotHeld(events[j].fired, Log(before, window), now, window, key);
      RemindsUntil(events, window, i, j, key);
      assert !Recent(now, Stamp(before[i].now), window);
    }
  }

  lemma RemindsUntil(events: seq<Event>, window: real, i: nat, j: nat, key: string)
    requires i < j < |events| && events[i].Call? && key in Quotes(events, window, i)
    requires forall k :: i < k < j ==> !Forgets(events[k])
    ensures Reminds(events[..j], window, i, key)
  {
    hide Log, Reminded;
    assert events[..j][..i] == events[..i];
  }

  lemma QuotedAreNotHeld(fired: seq<Rule>, log: seq<Entry>, now: real, window: real, key: string)
    requires window > 0.0 && key in Reminded(fired, log, now, window)
    ensures key !in Held(log, now, window)
  {
    hide Held, Quoted, NotHeld;
    if Confirmed(fired) != [] {
      QuotedAreDue(Confirmed(fired), Held(log, now, window), key);
    } else {
      KeyOf(Quoted(Confirmed(fired), MAX_RULES, REMINDER_CHARS, FIRED), key);
      QuotedOnes(Confirmed(fired), MAX_RULES, REMINDER_CHARS, FIRED);
    }
  }

  // ---- the replay --------------------------------------------------------------------

  /** What a replay holds in memory: when it counted each rule. */
  function Sent(events: seq<Event>, window: real): map<string, seq<real>> {
    if events == [] then map[]
    else
      var sent := Sent(Init(events), window);
      match Last(events)
      case Began(_) => sent
      case Call(fired, now) => Noted(sent, LimitedKeys(fired, sent, now, window), now)
  }

  lemma {:induction false} BusyNoted(sent: map<string, seq<real>>, keys: seq<string>, when: real, now: real,
      window: real)
    ensures Busy(Noted(sent, keys, when), now, window)
         == Busy(sent, now, window) + if Recent(now, when, window) then KeySet(keys) else {}
    decreases keys
  {
    hide Recent;
    if keys != [] {
      BusyNoted(sent, Init(keys), when, now, window);
      var noted, key := Noted(sent, Init(keys), when), Last(keys);
      var times := if key in noted then noted[key] else [];
      var after := Noted(sent, keys, when);
      assert after == noted[key := times + [when]];
      forall k
        ensures k in Busy(after, now, window) <==>
                k in Busy(noted, now, window) || (k == key && Recent(now, when, window))
      {
        if k == key {
          assert forall i :: 0 <= i < |times| ==> after[key][i] == times[i];
          assert after[key][|times|] == when;
        }
      }
      forall k ensures k in KeySet(keys) <==> k in KeySet(Init(keys)) || k == key {
        KeyInSet(keys, k);
        KeyInSet(Init(keys), k);
        assert keys == Init(keys) + [key];
      }
    }
  }

  lemma NeverBusy(now: real, window: real) ensures Busy(map[], now, window) == {} {}

  /** Cutting a logged time to the millisecond moves no earlier call into or out of the window. */
  predicate ClearAt(events: seq<Event>, now: real, window: real) {
    forall i :: 0 <= i < |events| && events[i].Call? ==>
      Recent(now, events[i].now, window) == Recent(now, Stamp(events[i].now), window)
  }

  predicate Clear(events: seq<Event>, window: real) {
    forall j :: 0 <= j < |events| && events[j].Call? ==> ClearAt(events[..j], events[j].now, window)
  }

  predicate Remembers(events: seq<Event>) { forall i :: 0 <= i < |events| ==> !Forgets(events[i]) }

  lemma ClearBefore(events: seq<Event>, window: real)
    requires events != [] && Clear(events, window)
    ensures Clear(Init(events), window)
    ensures Last(events).Call? ==> ClearAt(Init(events), Last(events).now, window)
  {
    hide ClearAt;
    var before := Init(events);
    forall j | 0 <= j < |before| && before[j].Call? ensures ClearAt(before[..j], before[j].now, window) {
      assert before[..j] == events[..j] && before[j] == events[j];
    }
    assert events[..|events| - 1] == before;
  }

  /** What is held back is the same, from the log and from memory. */
  lemma {:induction false} SameHeld(events: seq<Event>, window: real, now: real)
    requires Remembers(events) && Clear(events, window) && ClearAt(events, now, window)
    ensures Held(Log(events, window), now, window) == Busy(Sent(events, window), now, window)
    decreases events, 0
  {
    hide Reminded, LimitedKeys, Recent, Stamp, Busy, Noted, Clear;
    if events == [] {
      NeverBusy(now, window);
    } else {
      var before, event := Init(events), Last(events);
      ClearBefore(events, window);
      assert Remembers(before);
      assert ClearAt(before, now, window) by { assert forall i :: 0 <= i < |before| ==> before[i] == events[i]; }
      SameHeld(before, window, now);
      assert Init(Log(events, window)) == Log(before, window);
      if event.Call? {
        SameChoice(before, window, event.fired, event.now);
        BusyNoted(Sent(before, window), Last(Log(events, window)).reminded, event.now, now, window);
      }
    }
  }

  /** The next call is reminded of the same rules, from the log and from memory. */
  lemma {:induction false} SameChoice(events: seq<Event>, window: real, fired: seq<Rule>, now: real)
    requires Remembers(events) && Clear(events, window) && ClearAt(events, now, window)
    ensures Reminded(fired, Log(events, window), now, window) == LimitedKeys(fired, Sent(events, window), now, window)
    decreases events, 1
  {
    hide Log, Sent, Held, Quoted, Clear, ClearAt;
    SameHeld(events, window, now);
    NothingDropped(Confirmed(fired), {});
    if window <= 0.0 {
      assert Busy(Sent(events, window), now, window) == {};
    }
  }

  /** Times to the whole millisecond, as a transcript has them, lose nothing in the log. */
  lemma WholeMillisecondsAreClear(events: seq<Event>, window: real)
    requires forall i :: 0 <= i < |events| && events[i].Call? ==> Stamp(events[i].now) == events[i].now
    ensures Clear(events, window)
  {
    hide Stamp;
  }

  /**
    A replay counts, call by call, the reminders the gate would have sent: for sessions
    without a forgetting start in which cutting times to the millisecond moves no call
    over an edge of the window.
   */
  lemma ReplayCountsReminders(events: seq<Event>, window: real, i: nat)
    requires Remembers(events) && Clear(events, window) && i < |events| && events[i].Call?
    ensures Quotes(events, window, i) == LimitedKeys(events[i].fired, Sent(events[..i], window), events[i].now, window)
  {
    hide ClearAt, Reminded, LimitedKeys, Log, Sent;
    var before := events[..i];
    assert Clear(before, window) by {
      forall j | 0 <= j < |before| && before[j].Call? ensures ClearAt(before[..j], before[j].now, window) {
        assert before[..j] == events[..j];
      }
    }
    SameChoice(before, window, events[i].fired, events[i].now);
  }

  // ---- two calls of one rule -----------------------------------------------------------

  predicate Fits(rule: Rule) { rule.confirmed && Reserved(1, FIRED) + |rule.line| + 1 <= REMINDER_CHARS }

  lemma OneRule(rule: Rule, held: set<string>)
    requires Fits(rule)
    ensures Confirmed([rule]) == [rule]
    ensures Keys(Quoted(NotHeld([rule], held), MAX_RULES, REMINDER_CHARS, FIRED)) ==
            if rule.key in held then [] else [rule.key]
  {
    hide Reserved;
    assert Init([rule]) == [] && Last([rule]) == rule;
    assert Confirmed([rule]) == [rule];
    assert NotHeld([rule], held) == if rule.key in held then [] else [rule];
    if rule.key in held {
      assert Quoted([], MAX_RULES, REMINDER_CHARS, FIRED) == [];
    } else {
      assert OfEffect([], Warn) == OfEffect([], Ask) == OfEffect([], Deny) == [];
      assert BySeverity([rule]) == [rule];
      assert Take([rule], 0, [], Reserved(1, FIRED), MAX_RULES, REMINDER_CHARS) == [rule];
    }
  }

  /**
    The same rule fires twice.  The gate quotes it again exactly when the logged time of the
    first is out of the window; the replay counts it again exactly when its own time is.
   */
  lemma TwoCallsExactly(rule: Rule, a: real, b: real, window: real)
    requires Fits(rule) && window > 0.0
    ensures var events := [Call([rule], a), Call([rule], b)];
            Quotes(events, window, 0) == [rule.key] &&
            Quotes(events, window, 1) == (if Recent(b, Stamp(a), window) then [] else [rule.key]) &&
            LimitedKeys([rule], Sent(events[..1], window), b, window) ==
              (if Recent(b, a, window) then [] else [rule.key])
  {
    hide Quoted, NotHeld, Confirmed, Stamp, Recent, Busy, Reserved, Held, Noted, Log, Sent;
    var events := [Call([rule], a), Call([rule], b)];
    assert events[..0] == [] && events[..1] == [Call([rule], a)];
    AfterOneCall(rule, a, window);
    HeldAfterOne(rule.key, Stamp(a), b, window);
    OneRule(rule, Held([Called([rule.key], Stamp(a))], b, window));
    BusyNoted(map[], [rule.key], a, b, window);
    NeverBusy(b, window);
    KeyInSet([rule.key], rule.key);
    OneRule(rule, Busy(Noted(map[], [rule.key], a), b, window));
  }

  lemma HeldAfterOne(key: string, when: real, now: real, window: real)
    ensures Held([Called([key], when)], now, window) == if Recent(now, when, window) then {key} else {}
  {
    hide Recent;
    var log := [Called([key], when)];
    assert Init(log) == [] && Last(log) == log[0];
    assert Held(Init(log), now, window) == {};
    assert KeySet([key]) == {key} by { assert [key][0] == key; }
  }

  lemma AfterOneCall(rule: Rule, a: real, window: real)
    requires Fits(rule) && window > 0.0
    ensures var first := [Call([rule], a)];
            Reminded([rule], Log([], window), a, window) == [rule.key] &&
            Log(first, window) == [Called([rule.key], Stamp(a))] && Sent(first, window) == Noted(map[], [rule.key], a)
  {
    hide Quoted, NotHeld, Confirmed, Stamp, Recent, Busy, Reserved, Noted;
    OneRule(rule, {});
    assert Held([], a, window) == {};
    NeverBusy(a, window);
    var first := [Call([rule], a)];
    assert Init(first) == [] && Last(first) == first[0];
  }

  /** Two reminders of one rule, less than the interval apart: the log dates the first too early. */
  lemma ReminderComesEarly()
    ensures var rule := Rule("r", true, Warn, "r");
            var events := [Call([rule], 0.0009), Call([rule], 900.0)];
            Quotes(events, 900.0, 0) == ["r"] && Quotes(events, 900.0, 1) == ["r"] && 900.0 - 0.0009 < 900.0 &&
            LimitedKeys([rule], Sent(events[..1], 900.0), 900.0, 900.0) == []
  {
    var rule := Rule("r", true, Warn, "r");
    assert Fits(rule);
    assert Stamp(0.0009) == 0.0;
    TwoCallsExactly(rule, 0.0009, 900.0, 900.0);
  }
}
