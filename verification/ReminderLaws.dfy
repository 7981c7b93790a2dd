/**
  What the text of a reminder says (ember_armor/ledger/remind.py), read back line by line, and
  which rules are quoted in it.
 */
module ReminderLaws {
  import opened Prelude
  import opened Reminders

  // ---- reading a text ------------------------------------------------------------------------------

  /** `str.split("\n")` */
  function Split(text: string): (lines: seq<string>)
    ensures lines != []
  {
    if text == "" then [""]
    else if Last(text) == '\n' then Split(Init(text)) + [""]
    else
      var lines := Split(Init(text));
      Init(lines) + [Last(lines) + [Last(text)]]
  }

  predicate OneLine(line: string) { '\n' !in line }

  predicate OneLines(lines: seq<string>) { forall i :: 0 <= i < |lines| ==> OneLine(lines[i]) }

  lemma {:induction false} SplitLine(text: string, line: string)
    requires OneLine(line)
    ensures Split(text + line) == Init(Split(text)) + [Last(Split(text)) + line]
    decreases line
  {
    if line == "" {
      assert text + line == text && Last(Split(text)) + line == Last(Split(text));
    } else {
      assert Init(text + line) == text + Init(line) && Last(text + line) == Last(line);
      SplitLine(text, Init(line));
      assert Last(Split(text)) + Init(line) + [Last(line)] == Last(Split(text)) + line;
    }
  }

  lemma SplitNewLine(text: string, line: string)
    requires OneLine(line)
    ensures Split(text + "\n" + line) == Split(text) + [line]
  {
    SplitLine(text + "\n", line);
    assert Init(text + "\n") == text;
    assert Split(text + "\n") == Split(text) + [""];
    assert [] + line == line;
  }

  /** Splitting takes the lines apart again. */
  lemma {:induction false} SplitJoined(lines: seq<string>)
    requires lines != [] && OneLines(lines)
    ensures Split(Joined(lines)) == lines
    decreases lines
  {
    if |lines| == 1 {
      SplitLine("", lines[0]);
      assert "" + lines[0] == lines[0] && lines == [lines[0]];
    } else {
      SplitJoined(Init(lines));
      SplitNewLine(Joined(Init(lines)), Last(lines));
      assert lines == Init(lines) + [Last(lines)];
    }
  }

  predicate Digit(c: char) { '0' <= c <= '9' }

  /** The number a text begins with. */
  function Leading(text: string, n: nat): nat
    decreases text
  {
    if text == "" || !Digit(text[0]) then n else Leading(text[1..], 10 * n + (text[0] as int - '0' as int))
  }

  lemma {:induction false} LeadingDecimal(n: nat, rest: string)
    requires rest == "" || !Digit(rest[0])
    ensures Leading(Decimal(n) + rest, 0) == n
  {
    LeadingFrom(n, rest);
    assert [] + rest == rest;
  }

  /** Read digit by digit, with any digits in front. */
  lemma {:induction false} LeadingFrom(n: nat, rest: string)
    ensures Leading(Decimal(n) + rest, 0) == Leading(rest, n)
    decreases n
  {
    var digit := [('0' as int + n % 10) as char];
    if n < 10 {
      assert (Decimal(n) + rest)[1..] == rest;
    } else {
      LeadingFrom(n / 10, digit + rest);
      assert Decimal(n / 10) + (digit + rest) == Decimal(n) + rest;
      assert (digit + rest)[1..] == rest;
    }
  }

  lemma {:induction false} DecimalDigits(n: nat)
    ensures forall i :: 0 <= i < |Decimal(n)| ==> Digit(Decimal(n)[i])
    decreases n
  {
    if n >= 10 { DecimalDigits(n / 10); }
  }

  predicate Plain(what: (string, string)) { OneLine(what.0) && OneLine(what.1) }

  lemma CountLineIsOne(count: nat, what: (string, string))
    requires Plain(what)
    ensures OneLine(More(count, what)) && (count > 0 ==> Leading(More(count, what), 0) == count)
  {
    DecimalDigits(count);
    if count == 1 {
      assert More(1, what)[0] == '1' && More(1, what)[1..][0] == ' ';
    } else {
      LeadingDecimal(count, " more confirmed rules " + what.1 + ".");
      assert More(count, what) == Decimal(count) + (" more confirmed rules " + what.1 + ".");
    }
  }

  /**
    A reminder read back line by line: the quoted rules, each on its line and in their order,
    then, exactly if confirmed rules are left out, a line that begins with their number, and the
    closing sentence.
   */
  lemma ReminderReadsBack(quoted: seq<Rule>, count: nat, what: (string, string))
    requires Plain(what) && OneLines(Lines(quoted)) && |quoted| <= count
    ensures var lines := Split(Joined(Parts(quoted, count, what)));
            |lines| == |quoted| + (if |quoted| < count then 2 else 1) &&
            (forall i :: 0 <= i < |quoted| ==> lines[i] == quoted[i].line) &&
            (|quoted| < count ==> Leading(lines[|quoted|], 0) == count - |quoted|) &&
            Last(lines) == CLOSING
  {
    hide More, Joined, Split;
    if |quoted| < count { CountLineIsOne(count - |quoted|, what); }
    ClosingIsOneLine();
    var lines := Parts(quoted, count, what);
    forall i | 0 <= i < |lines| ensures OneLine(lines[i]) {
      if i < |quoted| { assert lines[i] == Lines(quoted)[i]; }
    }
    SplitJoined(lines);
  }

  lemma ClosingIsOneLine()
    ensures OneLine(CLOSING)
  {
    assert OneLine("No tool call was blocked: ");
    assert OneLine("this is a reminder of standing instructions, ");
    assert OneLine("not a new request.");
  }

  // ---- which rules ---------------------------------------------------------------------------------------

  /** What is taken of the first rules. */
  function TakenOf(rules: seq<Rule>, i: nat, reserved: nat, most: nat, limit: nat): seq<Rule>
    requires i <= |rules|
  {
    Take(rules[..i], 0, [], reserved, most, limit)
  }

  lemma {:induction false} TakeInTwo(rules: seq<Rule>, i: nat, rule: Rule, taken: seq<Rule>, used: nat, reserved: nat,
                                     most: nat, limit: nat)
    requires i <= |rules| && used == reserved + Width(Lines(taken)) && |taken| <= most
    ensures var first := Take(rules, i, taken, used, most, limit);
            Take(rules + [rule], i, taken, used, most, limit) ==
            if |first| < most && reserved + Width(Lines(first)) + |rule.line| + 1 <= limit then first + [rule]
            else first
    decreases |rules| - i
  {
    hide Lines, Width;
    if |taken| < most {
      if i == |rules| {
        assert (rules + [rule])[i] == rule;
      } else {
        assert (rules + [rule])[i] == rules[i];
        if used + |rules[i].line| + 1 > limit {
          TakeInTwo(rules, i + 1, rule, taken, used, reserved, most, limit);
        } else {
          LinesMore(taken, rules[i]);
          TakeInTwo(rules, i + 1, rule, taken + [rules[i]], used + |rules[i].line| + 1, reserved, most, limit);
        }
      }
    }
  }

  /** A rule is quoted exactly if fewer than `most` are before it and it fits behind those that are. */
  lemma QuotedExactlyIfItFits(rules: seq<Rule>, i: nat, reserved: nat, most: nat, limit: nat)
    requires i < |rules|
    ensures var before := TakenOf(rules, i, reserved, most, limit);
            TakenOf(rules, i + 1, reserved, most, limit) ==
            if |before| < most && reserved + Width(Lines(before)) + |rules[i].line| + 1 <= limit
            then before + [rules[i]]
            else before
  {
    assert rules[..i + 1] == rules[..i] + [rules[i]];
    assert Lines([]) == [] && Width([]) == 0;
    TakeInTwo(rules[..i], 0, rules[i], [], reserved, reserved, most, limit);
  }

  /** No more room is set aside than a reminder needs that quotes nothing and counts everything. */
  lemma ReservedIsNeeded(count: nat, what: (string, string))
    requires count >= 2
    ensures Reserved(count, what) == |Joined(Parts([], count, what))|
  {
    hide More;
    var line := More(count, what);
    assert Parts([], count, what) == [line, CLOSING] && Init([line, CLOSING]) == [line];
    assert Joined([line]) == line;
  }
}
