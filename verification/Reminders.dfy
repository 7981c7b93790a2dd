/**
  Reminders (ember_armor/ledger/remind.py): which rules one reminder quotes, the limit per
  session read back from the audit log, and the replay that keeps the limit in memory.
 */
module Reminders {
  import opened Prelude

  datatype Effect = Warn | Ask | Deny

  /** A rule that fired.  `line` is the rule quoted on one line. */
  datatype Rule = Rule(key: string, confirmed: bool, effect: Effect, line: string)

  const MAX_RULES: nat := 3
  const REMINDER_CHARS: nat := 1500
  const CLOSING :=
    "No tool call was blocked: " + "this is a reminder of standing instructions, " + "not a new request."
  const FIRED := ("fired on this call and is not quoted", "fired on this call and are not quoted")

  // ---- compose -------------------------------------------------------------------

  function Confirmed(rules: seq<Rule>): seq<Rule> {
    if rules == [] then [] else Confirmed(Init(rules)) + if Last(rules).confirmed then [Last(rules)] else []
  }

  function OfEffect(rules: seq<Rule>, effect: Effect): seq<Rule> {
    if rules == [] then []
    else OfEffect(Init(rules), effect) + if Last(rules).effect == effect then [Last(rules)] else []
  }

  /** The most restrictive effect first, and otherwise as they came. */
  function BySeverity(rules: seq<Rule>): seq<Rule> {
    OfEffect(rules, Deny) + OfEffect(rules, Ask) + OfEffect(rules, Warn)
  }

  /** `SEVERITY` */
  function Severity(effect: Effect): nat {
    match effect case Warn => 1 case Ask => 2 case Deny => 3
  }

  lemma {:induction false} OfEffectOnes(rules: seq<Rule>, effect: Effect, r: Rule)
    ensures r in OfEffect(rules, effect) <==> r in rules && r.effect == effect
    decreases rules
  {
    if rules != [] {
      OfEffectOnes(Init(rules), effect, r);
      assert rules == Init(rules) + [Last(rules)];
    }
  }

  lemma {:induction false} OfEffectInTwo(a: seq<Rule>, b: seq<Rule>, effect: Effect)
    ensures OfEffect(a + b, effect) == OfEffect(a, effect) + OfEffect(b, effect)
    decreases b
  {
    if b == [] {
      assert a + b == a;
    } else {
      assert Init(a + b) == a + Init(b) && Last(a + b) == Last(b);
      OfEffectInTwo(a, Init(b), effect);
    }
  }

  lemma {:induction false} OfEffectTwice(rules: seq<Rule>, first: Effect, second: Effect)
    ensures OfEffect(OfEffect(rules, first), second) == if first == second then OfEffect(rules, first) else []
    decreases rules
  {
    if rules != [] {
      OfEffectTwice(Init(rules), first, second);
      var before, last := OfEffect(Init(rules), first), Last(rules);
      if last.effect == first {
        assert OfEffect(rules, first) == before + [last];
        assert Init(before + [last]) == before && Last(before + [last]) == last;
        assert OfEffect(before, second) + [] == OfEffect(before, second);
      } else {
        assert OfEffect(rules, first) == before;
      }
    }
  }

  /** The order is by falling severity, and rules of one effect stay as they came. */
  lemma StrongestFirst(rules: seq<Rule>)
    ensures var ordered := BySeverity(rules);
            (forall i, j :: 0 <= i < j < |ordered| ==> Severity(ordered[i].effect) >= Severity(ordered[j].effect)) &&
            (forall effect :: OfEffect(ordered, effect) == OfEffect(rules, effect))
  {
    hide OfEffect;
    var d, a, w := OfEffect(rules, Deny), OfEffect(rules, Ask), OfEffect(rules, Warn);
    var ordered := BySeverity(rules);
    forall i | 0 <= i < |ordered|
      ensures ordered[i].effect == if i < |d| then Deny else if i < |d| + |a| then Ask else Warn
    {
      OfEffectOnes(rules, ordered[i].effect, ordered[i]);
      if i < |d| {
        assert ordered[i] in d;
        OfEffectOnes(rules, Deny, ordered[i]);
      } else if i < |d| + |a| {
        assert ordered[i] == a[i - |d|];
        OfEffectOnes(rules, Ask, ordered[i]);
      } else {
        assert ordered[i] == w[i - |d| - |a|];
        OfEffectOnes(rules, Warn, ordered[i]);
      }
    }
    forall effect: Effect ensures OfEffect(ordered, effect) == OfEffect(rules, effect) {
      OfEffectInTwo(d + a, w, effect);
      OfEffectInTwo(d, a, effect);
      OfEffectTwice(rules, Deny, effect);
      OfEffectTwice(rules, Ask, effect);
      OfEffectTwice(rules, Warn, effect);
    }
  }

  function Decimal(n: nat): string {
    if n < 10 then [('0' as int + n) as char] else Decimal(n / 10) + [('0' as int + n % 10) as char]
  }

  function More(count: nat, what: (string, string)): string {
    if count == 1 then "1 more confirmed rule " + what.0 + "."
    else Decimal(count) + " more confirmed rules " + what.1 + "."
  }

  /** Whole rules are taken while they fit: the rules behind the first `i`, with `taken` so far. */
  function Take(rules: seq<Rule>, i: nat, taken: seq<Rule>, used: nat, most: nat, limit: nat): seq<Rule>
    decreases |rules| - i
  {
    if i >= |rules| || |taken| == most then taken
    else if used + |rules[i].line| + 1 > limit then Take(rules, i + 1, taken, used, most, limit)
    else Take(rules, i + 1, taken + [rules[i]], used + |rules[i].line| + 1, most, limit)
  }

  /** Room for the closing sentence and the longest count line. */
  function Reserved(count: nat, what: (string, string)): nat {
    |CLOSING| + |More(if count < 2 then 2 else count, what)| + 1
  }

  function Quoted(rules: seq<Rule>, most: nat, limit: nat, what: (string, string)): seq<Rule> {
    var ordered := BySeverity(Confirmed(rules));
    Take(ordered, 0, [], Reserved(|ordered|, what), most, limit)
  }

  function Keys(rules: seq<Rule>): seq<string> { seq(|rules|, i requires 0 <= i < |rules| => rules[i].key) }

  function Lines(rules: seq<Rule>): seq<string> { seq(|rules|, i requires 0 <= i < |rules| => rules[i].line) }

  function Joined(lines: seq<string>): string {
    if lines == [] then "" else if |lines| == 1 then lines[0] else Joined(Init(lines)) + "\n" + Last(lines)
  }

  /** The lines of a reminder that quotes `quoted` of `count` confirmed rules. */
  function Parts(quoted: seq<Rule>, count: nat, what: (string, string)): seq<string> {
    Lines(quoted) + (if count > |quoted| then [More(count - |quoted|, what)] else []) + [CLOSING]
  }

  method Compose(rules: seq<Rule>, most: nat, limit: nat, what: (string, string))
      returns (text: string, keys: seq<string>)
    ensures var quoted := Quoted(rules, most, limit, what);
            keys == Keys(quoted) &&
            if quoted == [] then text == ""
            else var whole := Joined(Parts(quoted, |Confirmed(rules)|, what));
                 text == if |whole| > limit then whole[..limit] else whole
  {
    hide Confirmed, BySeverity, Reserved, More, Joined;
    var vouched := Confirmed(rules);
    var ordered := BySeverity(vouched);
    SeverityCount(vouched);
    var quoted: seq<Rule> := [];
    var used: nat := Reserved(|ordered|, what);
    ghost var all := Take(ordered, 0, [], used, most, limit);
    var i := 0;
    while i < |ordered| && |quoted| != most
      invariant i <= |ordered|
      invariant Take(ordered, i, quoted, used, most, limit) == all
    {
      var rule := ordered[i];
      if used + |rule.line| + 1 <= limit {
        quoted := quoted + [rule];
        used := used + |rule.line| + 1;
      }
      i := i + 1;
    }
    keys := Keys(quoted);
    if quoted == [] { return "", []; }
    var lines := Lines(quoted);
    if |ordered| > |quoted| {
      lines := lines + [More(|ordered| - |quoted|, what)];
    }
    lines := lines + [CLOSING];
    assert lines == Parts(quoted, |vouched|, what);
    text := Joined(lines);
    if |text| > limit { text := text[..limit]; }
  }

  lemma EffectLast(rules: seq<Rule>, effect: Effect)
    ensures OfEffect(rules, effect) ==
            if rules == [] then []
            else OfEffect(Init(rules), effect) + (if Last(rules).effect == effect then [Last(rules)] else [])
  {
  }

  lemma {:induction false} SeverityCount(rules: seq<Rule>)
    ensures |BySeverity(rules)| == |rules| && multiset(BySeverity(rules)) == multiset(rules)
  {
    hide OfEffect;
    ThreeParts(rules);
  }

  lemma {:induction false} ThreeParts(rules: seq<Rule>)
    ensures var d, a, w := OfEffect(rules, Deny), OfEffect(rules, Ask), OfEffect(rules, Warn);
            multiset(rules) == multiset(d) + multiset(a) + multiset(w) && |rules| == |d| + |a| + |w|
    decreases rules
  {
    EffectLast(rules, Deny);
    EffectLast(rules, Ask);
    EffectLast(rules, Warn);
    hide OfEffect;
    if rules != [] {
      ThreeParts(Init(rules));
      assert rules == Init(rules) + [Last(rules)];
    }
  }

  // ---- what fits --------------------------------------------------------------------

  function Width(lines: seq<string>): nat { if lines == [] then 0 else Width(Init(lines)) + |Last(lines)| + 1 }

  lemma {:induction false} JoinedWidth(lines: seq<string>)
    requires lines != []
    ensures |Joined(lines)| + 1 == Width(lines)
    decreases lines
  {
    if |lines| > 1 {
      JoinedWidth(Init(lines));
    } else {
      assert Width(Init(lines)) == 0;
    }
  }

  lemma WidthMore(lines: seq<string>, line: string)
    ensures Width(lines + [line]) == Width(lines) + |line| + 1
  {
    assert Init(lines + [line]) == lines;
  }

  lemma {:induction false} TakeFits(rules: seq<Rule>, i: nat, taken: seq<Rule>, used: nat, reserved: nat, most: nat,
      limit: nat)
    requires used == reserved + Width(Lines(taken)) && (taken != [] ==> used <= limit) && |taken| <= most &&
             |taken| <= i
    requires i <= |rules|
    ensures var all := Take(rules, i, taken, used, most, limit);
            (all != [] ==> reserved + Width(Lines(all)) <= limit) && |all| <= most && |all| <= |rules|
    decreases |rules| - i
  {
    hide Lines, Width;
    if i < |rules| && |taken| != most {
      if used + |rules[i].line| + 1 > limit {
        TakeFits(rules, i + 1, taken, used, reserved, most, limit);
      } else {
        LinesMore(taken, rules[i]);
        TakeFits(rules, i + 1, taken + [rules[i]], used + |rules[i].line| + 1, reserved, most, limit);
      }
    }
  }

  lemma LinesMore(taken: seq<Rule>, rule: Rule)
    ensures Width(Lines(taken + [rule])) == Width(Lines(taken)) + |rule.line| + 1
  {
    assert Lines(taken + [rule]) == Lines(taken) + [rule.line];
    WidthMore(Lines(taken), rule.line);
  }

  lemma {:induction false} TakenOnes(rules: seq<Rule>, i: nat, taken: seq<Rule>, used: nat, most: nat, limit: nat,
      r: Rule)
    requires r in Take(rules, i, taken, used, most, limit)
    ensures r in taken || r in rules
    decreases |rules| - i
  {
    if i < |rules| && |taken| != most {
      if used + |rules[i].line| + 1 > limit {
        TakenOnes(rules, i + 1, taken, used, most, limit, r);
      } else {
        TakenOnes(rules, i + 1, taken + [rules[i]], used + |rules[i].line| + 1, most, limit, r);
      }
    }
  }

  lemma {:induction false} LongerDecimal(n: nat, m: nat)
    requires n <= m
    ensures 1 <= |Decimal(n)| <= |Decimal(m)|
    decreases m
  {
    if m >= 10 {
      if n >= 10 { LongerDecimal(n / 10, m / 10); } else { LongerDecimal(0, m / 10); }
    }
  }

  lemma CountLineFits(left: nat, count: nat, what: (string, string))
    requires 0 < left <= count && |what.0| <= |what.1| + 1
    ensures |More(left, what)| <= |More(if count < 2 then 2 else count, what)|
  {
    LongerDecimal(left, if count < 2 then 2 else count);
    LongerDecimal(1, if count < 2 then 2 else count);
  }

  /** The lines of a reminder are as wide as what was set aside and taken for them. */
  lemma PartsFit(quoted: seq<Rule>, count: nat, what: (string, string))
    requires |quoted| <= count && |what.0| <= |what.1| + 1
    ensures |Joined(Parts(quoted, count, what))| <= Reserved(count, what) + Width(Lines(quoted))
  {
    hide Decimal, More;
    var lines := Lines(quoted);
    JoinedWidth(Parts(quoted, count, what));
    if count > |quoted| {
      var line := More(count - |quoted|, what);
      CountLineFits(count - |quoted|, count, what);
      WidthMore(lines, line);
      WidthMore(lines + [line], CLOSING);
    } else {
      assert lines + [] == lines;
      WidthMore(lines, CLOSING);
    }
  }

  lemma QuotedOnes(rules: seq<Rule>, most: nat, limit: nat, what: (string, string))
    ensures forall r :: r in Quoted(rules, most, limit, what) ==> r in rules && r.confirmed
  {
    hide Take, BySeverity, Reserved;
    var ordered := BySeverity(Confirmed(rules));
    SeverityCount(Confirmed(rules));
    forall r | r in Quoted(rules, most, limit, what) ensures r in rules && r.confirmed {
      TakenOnes(ordered, 0, [], Reserved(|ordered|, what), most, limit, r);
      assert r in multiset(ordered) && r in Confirmed(rules);
      ConfirmedOnes(rules, r);
    }
  }

  /**
    A reminder is never cut: it quotes at most `most` rules, each of them confirmed and
    whole, and with the count line and the closing sentence it keeps to the limit.
   */
  lemma RemindersFit(rules: seq<Rule>, most: nat, limit: nat, what: (string, string))
    requires |what.0| <= |what.1| + 1
    ensures var quoted := Quoted(rules, most, limit, what);
            |quoted| <= most && (forall r :: r in quoted ==> r in rules && r.confirmed) &&
            (quoted != [] ==> |Joined(Parts(quoted, |Confirmed(rules)|, what))| <= limit)
  {
    hide Take, BySeverity, Reserved, Joined, Parts;
    var ordered := BySeverity(Confirmed(rules));
    SeverityCount(Confirmed(rules));
    var reserved := Reserved(|ordered|, what);
    assert Lines([]) == [];
    TakeFits(ordered, 0, [], reserved, reserved, most, limit);
    QuotedOnes(rules, most, limit, what);
    PartsFit(Quoted(rules, most, limit, what), |Confirmed(rules)|, what);
  }

  lemma {:induction false} ConfirmedOnes(rules: seq<Rule>, r: Rule)
    ensures r in Confirmed(rules) <==> r in rules && r.confirmed
    decreases rules
  {
    if rules != [] {
      ConfirmedOnes(Init(rules), r);
      assert rules == Init(rules) + [Last(rules)];
    }
  }

  // ---- the limit per session -----------------------------------------------------------

  /** An audit entry of a session: a session start, or a call with what its reminder quoted. */
  datatype Entry = Start(forgets: bool) | Called(reminded: seq<string>, when: real)

  predicate Recent(now: real, when: real, window: real) { 0.0 <= now - when < window }

  function KeySet(keys: seq<string>): set<string> { set i | 0 <= i < |keys| :: keys[i] }

  function Held(entries: seq<Entry>, now: real, window: real): set<string> {
    if entries == [] then {}
    else
      var held := Held(Init(entries), now, window);
      match Last(entries)
      case Start(forgets) => if forgets then {} else held
      case Called(keys, when) => if keys != [] && Recent(now, when, window) then held + KeySet(keys) else held
  }

  method RemindedWithin(entries: seq<Entry>, now: real, window: real) returns (held: set<string>)
    ensures held == Held(entries, now, window)
  {
    held := {};
    for i := 0 to |entries|
      invariant held == Held(entries[..i], now, window)
    {
      assert Init(entries[..i + 1]) == entries[..i] && Last(entries[..i + 1]) == entries[i];
      match entries[i]
      case Start(forgets) =>
        if forgets { held := {}; }
      case Called(keys, when) =>
        if keys != [] && Recent(now, when, window) {
          held := held + KeySet(keys);
        }
    }
    assert entries[..|entries|] == entries;
  }

  function NotHeld(rules: seq<Rule>, held: set<string>): seq<Rule> {
    if rules == [] then [] else NotHeld(Init(rules), held) + if Last(rules).key in held then [] else [Last(rules)]
  }

  /** The confirmed rules that the session was not reminded of inside the window. */
  function Due(fired: seq<Rule>, entries: seq<Entry>, now: real, window: real): seq<Rule> {
    var vouched := Confirmed(fired);
    if vouched != [] && window > 0.0 then NotHeld(vouched, Held(entries, now, window)) else vouched
  }

  /** What `remind` quotes for a call of a session. */
  function Reminded(fired: seq<Rule>, entries: seq<Entry>, now: real, window: real): seq<string> {
    Keys(Quoted(Due(fired, entries, now, window), MAX_RULES, REMINDER_CHARS, FIRED))
  }

  datatype Reminder = Reminder(text: string, quoted: seq<string>, unconfirmed: seq<string>, recent: seq<string>,
      leftOut: seq<string>)

  function Unconfirmed(rules: seq<Rule>): seq<Rule> {
    if rules == [] then [] else Unconfirmed(Init(rules)) + if Last(rules).confirmed then [] else [Last(rules)]
  }

  function HeldBack(rules: seq<Rule>, held: set<string>): seq<Rule> {
    if rules == [] then [] else HeldBack(Init(rules), held) + if Last(rules).key in held then [Last(rules)] else []
  }

  lemma {:induction false} UnconfirmedOnes(rules: seq<Rule>, r: Rule)
    ensures r in Unconfirmed(rules) <==> r in rules && !r.confirmed
    decreases rules
  {
    if rules != [] {
      UnconfirmedOnes(Init(rules), r);
      assert rules == Init(rules) + [Last(rules)];
    }
  }

  lemma {:induction false} HeldBackOnes(rules: seq<Rule>, held: set<string>, r: Rule)
    ensures r in HeldBack(rules, held) <==> r in rules && r.key in held
    decreases rules
  {
    if rules != [] {
      HeldBackOnes(Init(rules), held, r);
      assert rules == Init(rules) + [Last(rules)];
    }
  }

  lemma {:induction false} NotHeldOnes(rules: seq<Rule>, held: set<string>, r: Rule)
    ensures r in NotHeld(rules, held) <==> r in rules && r.key !in held
    decreases rules
  {
    if rules != [] {
      NotHeldOnes(Init(rules), held, r);
      assert rules == Init(rules) + [Last(rules)];
    }
  }

  lemma KeyOf(rules: seq<Rule>, key: string)
    ensures key in Keys(rules) <==> exists i :: 0 <= i < |rules| && rules[i].key == key
  {
    if i :| 0 <= i < |rules| && rules[i].key == key {
      assert Keys(rules)[i] == key;
    }
  }

  /** The reminder of one call, with every rule that fired in one of its lists. */
  predicate Accounts(r: Reminder, fired: seq<Rule>) {
    && (forall i :: 0 <= i < |fired| ==>
          if fired[i].confirmed then fired[i].key in r.quoted || fired[i].key in r.recent || fired[i].key in r.leftOut
          else fired[i].key in r.unconfirmed)
    && (forall key :: key in r.quoted ==> key !in r.recent && key !in r.leftOut)
  }

  method Remind(fired: seq<Rule>, session: bool, now: real, interval: real, entries: seq<Entry>) returns (r: Reminder)
    ensures var window := if session then interval else 0.0;
            var due := Due(fired, entries, now, window);
            r.quoted == Reminded(fired, entries, now, window) &&
            r.text == if r.quoted == [] then ""
                      else Joined(Parts(Quoted(due, MAX_RULES, REMINDER_CHARS, FIRED), |Confirmed(due)|, FIRED))
    ensures |r.text| <= 1500 && |r.quoted| <= 3 && (r.text == "" <==> r.quoted == [])
    ensures Accounts(r, fired)
  {
    hide Confirmed, NotHeld, Held, Quoted, Parts, Joined, HeldBack, Unconfirmed, Accounts;
    var vouched := Confirmed(fired);
    var due, recent: seq<Rule> := vouched, [];
    var window := if vouched != [] && session then interval else 0.0;
    ghost var dropped: set<string> := {};
    NothingDropped(vouched, dropped);
    if window > 0.0 {
      var held := RemindedWithin(entries, now, window);
      recent := HeldBack(vouched, held);
      due := NotHeld(vouched, held);
      dropped := held;
    }
    var text, quoted := Compose(due, MAX_RULES, REMINDER_CHARS, FIRED);
    RemindersFit(due, MAX_RULES, REMINDER_CHARS, FIRED);
    TextIsSomething(due);
    r := Reminder(text, quoted, Keys(Unconfirmed(fired)), Keys(recent), Keys(NotHeld(due, KeySet(quoted))));
    AllAccounted(r, fired, dropped);
  }

  lemma {:induction false} NothingDropped(rules: seq<Rule>, held: set<string>)
    requires held == {}
    ensures NotHeld(rules, held) == rules
    ensures HeldBack(rules, held) == []
    decreases rules
  {
    if rules != [] {
      NothingDropped(Init(rules), held);
    }
  }

  lemma KeyInSet(keys: seq<string>, key: string)
    ensures key in KeySet(keys) <==> key in keys
  {
    if key in keys {
      var i :| 0 <= i < |keys| && keys[i] == key;
    }
  }

  lemma AllAccounted(r: Reminder, fired: seq<Rule>, held: set<string>)
    requires var due := NotHeld(Confirmed(fired), held);
             r.quoted == Keys(Quoted(due, MAX_RULES, REMINDER_CHARS, FIRED)) &&
             r.unconfirmed == Keys(Unconfirmed(fired)) && r.recent == Keys(HeldBack(Confirmed(fired), held)) &&
             r.leftOut == Keys(NotHeld(due, KeySet(r.quoted)))
    ensures Accounts(r, fired)
  {
    hide Confirmed, NotHeld, Quoted, HeldBack, Unconfirmed, Keys, KeySet;
    var vouched := Confirmed(fired);
    var due := NotHeld(vouched, held);
    forall i | 0 <= i < |fired|
      ensures if fired[i].confirmed
              then fired[i].key in r.quoted || fired[i].key in r.recent || fired[i].key in r.leftOut
              else fired[i].key in r.unconfirmed
    {
      var rule := fired[i];
      ConfirmedOnes(fired, rule);
      UnconfirmedOnes(fired, rule);
      HeldBackOnes(vouched, held, rule);
      NotHeldOnes(vouched, held, rule);
      NotHeldOnes(due, KeySet(r.quoted), rule);
      KeyInSet(r.quoted, rule.key);
      KeysHold(Unconfirmed(fired), rule);
      KeysHold(HeldBack(vouched, held), rule);
      KeysHold(NotHeld(due, KeySet(r.quoted)), rule);
    }
    forall key | key in r.quoted ensures key !in r.recent && key !in r.leftOut {
      QuotedAreDue(vouched, held, key);
      KeyInSet(r.quoted, key);
      NoKey(HeldBack(vouched, held), key) by {
        forall rule | rule in HeldBack(vouched, held) ensures rule.key != key { HeldBackOnes(vouched, held, rule); }
      }
      NoKey(NotHeld(due, KeySet(r.quoted)), key) by {
        forall rule | rule in NotHeld(due, KeySet(r.quoted)) ensures rule.key != key {
          NotHeldOnes(due, KeySet(r.quoted), rule);
        }
      }
    }
  }

  lemma KeysHold(rules: seq<Rule>, rule: Rule)
    ensures rule in rules ==> rule.key in Keys(rules)
  {
    if rule in rules {
      var i :| 0 <= i < |rules| && rules[i] == rule;
      KeyOf(rules, rule.key);
    }
  }

  lemma NoKey(rules: seq<Rule>, key: string)
    requires forall rule :: rule in rules ==> rule.key != key
    ensures key !in Keys(rules)
  {
    KeyOf(rules, key);
  }

  /** Nothing is quoted that was held back. */
  lemma QuotedAreDue(rules: seq<Rule>, held: set<string>, key: string)
    requires key in Keys(Quoted(NotHeld(rules, held), MAX_RULES, REMINDER_CHARS, FIRED))
    ensures key !in held
  {
    hide NotHeld, Quoted;
    var quoted := Quoted(NotHeld(rules, held), MAX_RULES, REMINDER_CHARS, FIRED);
    KeyOf(quoted, key);
    var i :| 0 <= i < |quoted| && quoted[i].key == key;
    QuotedOnes(NotHeld(rules, held), MAX_RULES, REMINDER_CHARS, FIRED);
    assert quoted[i] in NotHeld(rules, held);
    NotHeldOnes(rules, held, quoted[i]);
  }

  lemma TextIsSomething(rules: seq<Rule>)
    ensures var quoted := Quoted(rules, MAX_RULES, REMINDER_CHARS, FIRED);
            quoted != [] ==> Joined(Parts(quoted, |Confirmed(rules)|, FIRED)) != ""
  {
    var quoted := Quoted(rules, MAX_RULES, REMINDER_CHARS, FIRED);
    var parts := Parts(quoted, |Confirmed(rules)|, FIRED);
    JoinedWidth(parts);
    WidthMore(Init(parts), CLOSING);
    assert parts == Init(parts) + [CLOSING];
  }

  /** `limited`: the same choice, with the history of the session kept in `sent`. */
  method Limited(fired: seq<Rule>, sent: map<string, seq<real>>, now: real, window: real)
      returns (quoted: seq<string>, after: map<string, seq<real>>)
    ensures quoted == LimitedKeys(fired, sent, now, window)
    ensures after == Noted(sent, quoted, now)
  {
    hide Quoted, Busy, Confirmed, NotHeld, Joined, Parts;
    var vouched := Confirmed(fired);
    var due := NotHeld(vouched, Busy(sent, now, window));
    var text;
    text, quoted := Compose(due, MAX_RULES, REMINDER_CHARS, FIRED);
    after := sent;
    for i := 0 to |quoted|
      invariant after == Noted(sent, quoted[..i], now)
    {
      assert Init(quoted[..i + 1]) == quoted[..i] && Last(quoted[..i + 1]) == quoted[i];
      after := after[quoted[i] := (if quoted[i] in after then after[quoted[i]] else []) + [now]];
    }
    assert quoted[..|quoted|] == quoted;
  }

  /** The rules that were quoted inside the window. */
  function Busy(sent: map<string, seq<real>>, now: real, window: real): set<string> {
    set key | key in sent && exists i :: 0 <= i < |sent[key]| && Recent(now, sent[key][i], window)
  }

  function LimitedKeys(fired: seq<Rule>, sent: map<string, seq<real>>, now: real, window: real): seq<string> {
    Keys(Quoted(NotHeld(Confirmed(fired), Busy(sent, now, window)), MAX_RULES, REMINDER_CHARS, FIRED))
  }

  function Noted(sent: map<string, seq<real>>, keys: seq<string>, now: real): map<string, seq<real>> {
    if keys == [] then sent
    else
      var noted := Noted(sent, Init(keys), now);
      noted[Last(keys) := (if Last(keys) in noted then noted[Last(keys)] else []) + [now]]
  }
}
