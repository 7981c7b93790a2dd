/**
  The hash-chained audit log (ember_armor/ledger/audit.py), on values: what `append` and
  `verify` do with the monthly files, `head` and the marker, and what the chain is worth.
  `AuditStore` holds the class.

  The hash is free: it is injective and never the genesis value.
 */
module Audit {
  import opened Prelude

  /** A text that stands where a hash may stand.  `Word` is any other text. */
  datatype Digest =
    | Genesis
    | OfEntry(prev: Option<Digest>, body: string)
    | OfLine(line: Line)
    | Word(text: string)

  /** A line of the log, without its newline.  `size` is its length in bytes. */
  datatype Line =
    | Entry(body: string, prev: Option<Digest>, hash: Digest, size: nat)
    | Damaged(text: string)

  /** One monthly file. */
  datatype File = File(month: nat, lines: seq<Line>)

  datatype Marker = Marker(month: nat, size: nat, digest: Digest)

  /** The audit directory: the files oldest first, `head` and the marker. */
  datatype Log = Log(files: seq<File>, head: Option<Digest>, marker: Option<Marker>)

  predicate Sorted(files: seq<File>) { forall i, j :: 0 <= i < j < |files| ==> files[i].month < files[j].month }

  function Length(line: Line): nat { if line.Entry? then line.size + 1 else |line.text| + 1 }

  function Size(lines: seq<Line>): nat { if lines == [] then 0 else Size(Init(lines)) + Length(Last(lines)) }

  /** Every line, oldest first. */
  function Flat(files: seq<File>): seq<Line> {
    if files == [] then [] else Flat(Init(files)) + Last(files).lines
  }

  /** False for an empty text, as in Python. */
  predicate Truthy(text: Option<Digest>) { text.Some? && text.value != Word("") }

  /** `_link_after` */
  function LinkAfter(line: Line): Digest {
    if line.Entry? && line.hash != Word("") then line.hash else OfLine(line)
  }

  // ---- append --------------------------------------------------------------------

  /** `_link`, without the newline of an unfinished line. */
  function Link(files: seq<File>, head: Option<Digest>): Digest
    decreases |files|
  {
    if files == [] then (if Truthy(head) then head.value else Genesis)
    else if Last(files).lines == [] then Link(Init(files), head)
    else
      var line := Last(Last(files).lines);
      if line.Entry? && Truthy(head) then head.value else LinkAfter(line)
  }

  function Month(log: Log, month: nat): nat {
    if log.files != [] && Last(log.files).month > month then Last(log.files).month else month
  }

  /** The newest file is as the last append left it. */
  predicate Untouched(log: Log, month: nat) {
    log.marker.Some? && log.files != [] && Last(log.files).month == Month(log, month) &&
    log.marker.value.month == Month(log, month) && log.marker.value.size == Size(Last(log.files).lines)
  }

  function Prev(log: Log, month: nat): Digest {
    if Untouched(log, month) then log.marker.value.digest else Link(log.files, log.head)
  }

  function NewEntry(prev: Digest, body: string, size: nat): Line {
    Entry(body, Some(prev), OfEntry(Some(prev), body), size)
  }

  function Written(files: seq<File>, month: nat, line: Line): seq<File> {
    if files != [] && Last(files).month == month then Init(files) + [File(month, Last(files).lines + [line])]
    else files + [File(month, [line])]
  }

  function Append(log: Log, month: nat, body: string, size: nat): Log {
    var target := Month(log, month);
    var line := NewEntry(Prev(log, month), body, size);
    var files := Written(log.files, target, line);
    Log(files, Some(line.hash), Some(Marker(target, Size(Last(files).lines), line.hash)))
  }

  /** What is appended, when, and how long the line is. */
  datatype Record = Record(month: nat, body: string, size: nat)

  function AppendAll(log: Log, records: seq<Record>): Log
    decreases records
  {
    if records == [] then log
    else AppendAll(Append(log, records[0].month, records[0].body, records[0].size), records[1..])
  }

  const NEW := Log([], None, None)

  // ---- verify ----------------------------------------------------------------------

  datatype Problem = NotAnEntry(month: nat, number: nat) | Broken(month: nat, number: nat)
                   | Modified(month: nat, number: nat) | HeadDiffers

  function LineProblems(month: nat, number: nat, line: Line, expected: Digest): seq<Problem> {
    if line.Damaged? then [NotAnEntry(month, number)]
    else
      (if line.prev != Some(expected) then [Broken(month, number)] else []) +
      (if OfEntry(line.prev, line.body) != line.hash then [Modified(month, number)] else [])
  }

  /** What the line after these must link to. */
  function Expected(lines: seq<Line>, before: Digest): Digest {
    if lines == [] then before else LinkAfter(Last(lines))
  }

  function FileProblems(month: nat, lines: seq<Line>, before: Digest): seq<Problem> {
    if lines == [] then []
    else FileProblems(month, Init(lines), before) +
         LineProblems(month, |lines|, Last(lines), Expected(Init(lines), before))
  }

  lemma NextLine(month: nat, lines: seq<Line>, n: nat, before: Digest)
    requires n < |lines|
    ensures FileProblems(month, lines[..n + 1], before)
         == FileProblems(month, lines[..n], before) + LineProblems(month, n + 1, lines[n], Expected(lines[..n], before))
    ensures Expected(lines[..n + 1], before) == LinkAfter(lines[n])
  {
    hide LineProblems, LinkAfter;
    assert Init(lines[..n + 1]) == lines[..n];
  }

  function End(files: seq<File>): Digest {
    if files == [] then Genesis else Expected(Last(files).lines, End(Init(files)))
  }

  function ChainProblems(files: seq<File>): seq<Problem> {
    if files == [] then []
    else ChainProblems(Init(files)) + FileProblems(Last(files).month, Last(files).lines, End(Init(files)))
  }

  lemma NextFile(files: seq<File>, f: nat)
    requires f < |files|
    ensures ChainProblems(files[..f + 1])
         == ChainProblems(files[..f]) + FileProblems(files[f].month, files[f].lines, End(files[..f]))
    ensures End(files[..f + 1]) == Expected(files[f].lines, End(files[..f]))
    ensures Flat(files[..f + 1]) == Flat(files[..f]) + files[f].lines
  {
    hide FileProblems, Expected;
    assert Init(files[..f + 1]) == files[..f];
  }

  lemma NothingYet() ensures ChainProblems([]) == [] && End([]) == Genesis && Flat([]) == [] {}

  lemma NoLines(month: nat, before: Digest)
    ensures FileProblems(month, [], before) == [] && Expected([], before) == before
  {
  }

  function Problems(log: Log): seq<Problem> {
    ChainProblems(log.files) + if log.head.Some? && log.head.value != End(log.files) then [HeadDiffers] else []
  }

  predicate Ok(log: Log) { Problems(log) == [] }

  // ---- what verify accepts -----------------------------------------------------------

  /** Every line is an entry that is unmodified and links to the one before it. */
  predicate Chained(lines: seq<Line>) {
    lines == [] ||
    (Chained(Init(lines)) && Last(lines).Entry? && Last(lines).prev == Some(Expected(Init(lines), Genesis)) &&
     Last(lines).hash == OfEntry(Last(lines).prev, Last(lines).body))
  }

  predicate ChainedFrom(lines: seq<Line>, before: Digest) {
    lines == [] ||
    (ChainedFrom(Init(lines), before) && Last(lines).Entry? &&
      Last(lines).prev == Some(Expected(Init(lines), before)) &&
     Last(lines).hash == OfEntry(Last(lines).prev, Last(lines).body))
  }

  lemma {:induction false} FileAccepted(month: nat, lines: seq<Line>, before: Digest)
    ensures FileProblems(month, lines, before) == [] <==> ChainedFrom(lines, before)
    decreases lines
  {
    if lines != [] { FileAccepted(month, Init(lines), before); }
  }

  lemma {:induction false} ChainedJoin(a: seq<Line>, b: seq<Line>)
    ensures Chained(a + b) <==> Chained(a) && ChainedFrom(b, Expected(a, Genesis))
    ensures Expected(a + b, Genesis) == Expected(b, Expected(a, Genesis))
    decreases b
  {
    if b == [] {
      assert a + b == a;
    } else {
      ChainedJoin(a, Init(b));
      assert Init(a + b) == a + Init(b) && Last(a + b) == Last(b);
    }
  }

  /** The files pass exactly if their lines, read as one list, are chained. */
  lemma {:induction false} FilesAccepted(files: seq<File>)
    ensures ChainProblems(files) == [] <==> Chained(Flat(files))
    ensures End(files) == Expected(Flat(files), Genesis)
    decreases files
  {
    if files != [] {
      FilesAccepted(Init(files));
      ChainedJoin(Flat(Init(files)), Last(files).lines);
      FileAccepted(Last(files).month, Last(files).lines, End(Init(files)));
    }
  }

  /** `verify` reports nothing exactly when the lines are chained and `head`, if it is
      there, is the hash of the last one. */
  lemma VerifyAccepts(log: Log)
    ensures Ok(log) <==>
            Chained(Flat(log.files)) &&
            (log.head.Some? ==> log.head.value == Expected(Flat(log.files), Genesis))
  {
    FilesAccepted(log.files);
  }

  // ---- the head fixes the history -------------------------------------------------------

  /** The same entries; the spacing of a line is no part of it. */
  predicate SameEntry(a: Line, b: Line) {
    a.Entry? && b.Entry? && a.body == b.body && a.prev == b.prev && a.hash == b.hash
  }

  predicate SameEntries(a: seq<Line>, b: seq<Line>) {
    |a| == |b| && forall i :: 0 <= i < |a| ==> SameEntry(a[i], b[i])
  }

  lemma {:induction false} EndFixesLines(a: seq<Line>, b: seq<Line>)
    requires Chained(a) && Chained(b) && Expected(a, Genesis) == Expected(b, Genesis)
    ensures SameEntries(a, b)
    decreases a
  {
    if a == [] {
      assert b == [] || Expected(b, Genesis).OfEntry?;
    } else {
      assert b != [];
      EndFixesLines(Init(a), Init(b));
      forall i | 0 <= i < |a| ensures SameEntry(a[i], b[i]) {
        if i < |a| - 1 { assert SameEntry(Init(a)[i], Init(b)[i]); }
      }
    }
  }

  /**
    Two logs that both pass `verify` and have the same recorded head hold the same entries
    in the same order, however they are spread over files: an edit, insertion, deletion or
    reordering under an unchanged head is always reported.
   */
  lemma HeadFixesHistory(a: Log, b: Log)
    requires Ok(a) && Ok(b) && a.head.Some? && a.head == b.head
    ensures SameEntries(Flat(a.files), Flat(b.files))
  {
    VerifyAccepts(a);
    VerifyAccepts(b);
    EndFixesLines(Flat(a.files), Flat(b.files));
  }

  // ---- runs of appends ---------------------------------------------------------------------

  /** What a run of appends leaves behind. */
  predicate Built(log: Log) {
    Sorted(log.files) && (forall i :: 0 <= i < |log.files| ==> log.files[i].lines != []) && Chained(Flat(log.files)) &&
    if log.files == [] then log == NEW
    else
      var last := Last(log.files);
      var hash := Expected(Flat(log.files), Genesis);
      log.head == Some(hash) && hash.OfEntry? &&
      log.marker == Some(Marker(last.month, Size(last.lines), hash))
  }

  lemma WrittenFlat(files: seq<File>, month: nat, line: Line)
    ensures Flat(Written(files, month, line)) == Flat(files) + [line]
    ensures Last(Written(files, month, line)).month == month
  {
    var after := Written(files, month, line);
    if files != [] && Last(files).month == month {
      assert Init(after) == Init(files);
      assert Flat(Init(files)) + (Last(files).lines + [line]) == Flat(Init(files)) + Last(files).lines + [line];
    } else {
      assert Init(after) == files;
    }
  }

  lemma WrittenSorted(log: Log, month: nat, line: Line)
    requires Sorted(log.files) && forall i :: 0 <= i < |log.files| ==> log.files[i].lines != []
    ensures var files := Written(log.files, Month(log, month), line);
            Sorted(files) && files != [] && forall i :: 0 <= i < |files| ==> files[i].lines != []
  {
  }

  /** The marker and `_link` agree on what the next entry links to: the last entry. */
  lemma FastIsSlow(log: Log, month: nat)
    requires Built(log)
    ensures Prev(log, month) == Link(log.files, log.head) == Expected(Flat(log.files), Genesis)
  {
    if log.files != [] { assert Flat(log.files) != []; }
  }

  lemma ChainedMore(lines: seq<Line>, body: string, size: nat)
    requires Chained(lines)
    ensures var line := NewEntry(Expected(lines, Genesis), body, size);
            Chained(lines + [line]) && Expected(lines + [line], Genesis) == line.hash
  {
    var line := NewEntry(Expected(lines, Genesis), body, size);
    assert Init(lines + [line]) == lines && Last(lines + [line]) == line;
  }

  lemma AppendBuilds(log: Log, month: nat, body: string, size: nat)
    requires Built(log)
    ensures Built(Append(log, month, body, size))
    ensures Flat(Append(log, month, body, size).files)
            == Flat(log.files) + [NewEntry(Expected(Flat(log.files), Genesis), body, size)]
  {
    FastIsSlow(log, month);
    hide Flat, Size, Prev, Chained, Expected, Link, Written, Month, Sorted;
    var line := NewEntry(Prev(log, month), body, size);
    WrittenFlat(log.files, Month(log, month), line);
    WrittenSorted(log, month, line);
    ChainedMore(Flat(log.files), body, size);
  }

  /** The entries hold the records, one each. */
  predicate Keeps(lines: seq<Line>, records: seq<Record>) {
    |lines| == |records| && forall i :: 0 <= i < |lines| ==> lines[i].Entry? && lines[i].body == records[i].body
  }

  lemma {:induction false} ChainedEntries(lines: seq<Line>)
    requires Chained(lines)
    ensures forall i :: 0 <= i < |lines| ==> lines[i].Entry?
    decreases lines
  {
    if lines != [] {
      ChainedEntries(Init(lines));
      assert forall i :: 0 <= i < |lines| - 1 ==> lines[i] == Init(lines)[i];
    }
  }

  lemma {:induction false} RunBuilds(log: Log, records: seq<Record>) returns (added: seq<Line>)
    requires Built(log)
    ensures Built(AppendAll(log, records))
    ensures Flat(AppendAll(log, records).files) == Flat(log.files) + added && Keeps(added, records)
    decreases records
  {
    hide Flat, Chained, Expected, Built, Append;
    added := [];
    if records == [] {
      assert Flat(log.files) + added == Flat(log.files);
    } else {
      var r := records[0];
      AppendBuilds(log, r.month, r.body, r.size);
      var next := Append(log, r.month, r.body, r.size);
      var line := NewEntry(Expected(Flat(log.files), Genesis), r.body, r.size);
      var rest := RunBuilds(next, records[1..]);
      added := [line] + rest;
      assert Flat(log.files) + [line] + rest == Flat(log.files) + added;
    }
  }

  /**
    Any run of appends to an empty directory, with clocks that go forward or back across
    months, leaves a log that `verify` accepts and that holds what was appended, in order;
    and the marker then picks the link that reading the log would pick.
   */
  lemma EveryRunVerifies(records: seq<Record>, month: nat)
    ensures var log := AppendAll(NEW, records);
            Ok(log) && Sorted(log.files) && Chained(Flat(log.files)) && Keeps(Flat(log.files), records) &&
            Prev(log, month) == Link(log.files, log.head)
  {
    assert Flat(NEW.files) == [];
    var added := RunBuilds(NEW, records);
    hide Chained, Flat, Expected, Keeps, Prev, Link;
    var log := AppendAll(NEW, records);
    assert Flat(NEW.files) + added == added;
    FastIsSlow(log, month);
    VerifyAccepts(log);
  }

  // ---- removed entries stay visible ------------------------------------------------------------

  /** `after` is `before` with entries removed from the end, and nothing else done to it. */
  predicate Truncated(before: Log, after: Log) {
    after.head == before.head && after.marker == before.marker && Sorted(after.files) &&
    |Flat(after.files)| < |Flat(before.files)| && Flat(after.files) <= Flat(before.files) &&
    forall i :: 0 <= i < |after.files| ==>
      exists j :: 0 <= j < |before.files| && before.files[j].month == after.files[i].month &&
                  after.files[i].lines <= before.files[j].lines
  }

  function Depth(d: Digest): nat {
    match d
    case OfEntry(prev, _) => (match prev case Some(p) => 1 + Depth(p) case None => 0)
    case _ => 0
  }

  /** The hash of an entry is deeper than that of any entry before it. */
  lemma {:induction false} DepthCounts(lines: seq<Line>)
    requires Chained(lines)
    ensures Depth(Expected(lines, Genesis)) == |lines|
    decreases lines
  {
    if lines != [] { DepthCounts(Init(lines)); }
  }

  lemma {:induction false} ChainedPrefix(lines: seq<Line>, n: nat)
    requires Chained(lines) && n <= |lines|
    ensures Chained(lines[..n])
    decreases |lines| - n
  {
    if n == |lines| {
      assert lines[..n] == lines;
    } else {
      ChainedPrefix(lines, n + 1);
      assert Init(lines[..n + 1]) == lines[..n];
    }
  }

  lemma {:induction false} SizeGrows(a: seq<Line>, b: seq<Line>)
    requires a <= b
    ensures Size(a) <= Size(b) && (Size(a) == Size(b) ==> a == b)
    decreases b
  {
    if a != b {
      assert a <= Init(b);
      SizeGrows(a, Init(b));
    }
  }

  lemma {:induction false} LinkIsHead(files: seq<File>, head: Option<Digest>)
    requires Truthy(head) && forall i :: 0 <= i < |Flat(files)| ==> Flat(files)[i].Entry?
    ensures Link(files, head) == head.value
    decreases |files|
  {
    if files != [] {
      var lines := Flat(files);
      if Last(files).lines == [] {
        assert Flat(Init(files)) == lines;
        LinkIsHead(Init(files), head);
      } else {
        assert Last(Last(files).lines) == lines[|lines| - 1];
      }
    }
  }

  /** The marker cannot match what is left of the newest file. */
  lemma MarkerMisses(before: Log, after: Log, month: nat)
    requires Built(before) && Truncated(before, after)
    ensures !Untouched(after, month)
  {
    if Untouched(after, month) {
      var f := Last(after.files);
      var j :| 0 <= j < |before.files| && before.files[j].month == f.month && f.lines <= before.files[j].lines;
      assert before.files[j] == Last(before.files);
      SizeGrows(f.lines, before.files[j].lines);
      var a, b := Flat(after.files), Flat(before.files);
      assert a != [] && Last(a) == Last(f.lines) == Last(b);
      ChainedPrefix(b, |a|);
      assert b[..|a|] == a;
      DepthCounts(a);
      DepthCounts(b);
      assert false;
    }
  }

  lemma {:induction false} BrokenStays(log: Log, records: seq<Record>)
    requires !Chained(Flat(log.files))
    ensures !Chained(Flat(AppendAll(log, records).files))
    decreases records
  {
    if records != [] {
      var r := records[0];
      var line := NewEntry(Prev(log, r.month), r.body, r.size);
      WrittenFlat(log.files, Month(log, r.month), line);
      assert Init(Flat(log.files) + [line]) == Flat(log.files);
      BrokenStays(Append(log, r.month, r.body, r.size), records[1..]);
    }
  }

  /**
    Starting from any log that appends built, removing one or more entries from the end
    makes `verify` fail, and it still fails after any further run of appends, in any months.
   */
  lemma TruncationStaysVisible(before: Log, after: Log, records: seq<Record>)
    requires Built(before) && Truncated(before, after)
    ensures !Ok(AppendAll(after, records))
  {
    var a, b := Flat(after.files), Flat(before.files);
    ChainedPrefix(b, |a|);
    assert b[..|a|] == a;
    DepthCounts(a);
    DepthCounts(b);
    assert after.head.value != Expected(a, Genesis);
    if records == [] {
      VerifyAccepts(after);
    } else {
      var r := records[0];
      MarkerMisses(before, after, r.month);
      ChainedEntries(a);
      LinkIsHead(after.files, after.head);
      var line := NewEntry(Prev(after, r.month), r.body, r.size);
      WrittenFlat(after.files, Month(after, r.month), line);
      assert Init(a + [line]) == a && Last(a + [line]) == line;
      var next := Append(after, r.month, r.body, r.size);
      BrokenStays(next, records[1..]);
      VerifyAccepts(AppendAll(after, records));
    }
  }

  // ---- when an append hides what verify reported ------------------------------------------------

  lemma {:induction false} LinkWithoutHead(files: seq<File>, head: Option<Digest>)
    requires !Truthy(head)
    ensures Link(files, head) == Expected(Flat(files), Genesis)
    decreases |files|
  {
    if files != [] && Last(files).lines == [] {
      assert Flat(files) == Flat(Init(files));
      LinkWithoutHead(Init(files), head);
    }
  }

  /**
    A log that fails `verify` passes after one more append in exactly two cases, both with
    all entries chained: the file is as the marker says and the marker names the last entry,
    or the file is not and `head` is there but empty.
   */
  lemma AppendHidesExactly(log: Log, month: nat, body: string, size: nat)
    requires !Ok(log)
    ensures Ok(Append(log, month, body, size)) <==>
            Chained(Flat(log.files)) &&
            if Untouched(log, month) then log.marker.value.digest == Expected(Flat(log.files), Genesis)
            else log.head == Some(Word(""))
  {
    var line := NewEntry(Prev(log, month), body, size);
    var lines := Flat(log.files);
    WrittenFlat(log.files, Month(log, month), line);
    assert Init(lines + [line]) == lines && Last(lines + [line]) == line;
    VerifyAccepts(log);
    VerifyAccepts(Append(log, month, body, size));
    if Chained(lines) && !Untouched(log, month) {
      ChainedEntries(lines);
      if Truthy(log.head) { LinkIsHead(log.files, log.head); } else { LinkWithoutHead(log.files, log.head); }
    }
  }

  /** Every truncation whose `head` is left empty fails `verify`, and any append hides it. */
  lemma EmptyHeadHides(before: Log, after: Log, month: nat, body: string, size: nat)
    requires Built(before) && Truncated(before, after)
    ensures var log := after.(head := Some(Word("")));
            !Ok(log) && Ok(Append(log, month, body, size))
  {
    var log := after.(head := Some(Word("")));
    var a, b := Flat(after.files), Flat(before.files);
    ChainedPrefix(b, |a|);
    assert b[..|a|] == a;
    MarkerMisses(before, after, month);
    hide Chained, Flat, Link, Append;
    VerifyAccepts(log);
    EndIsNoWord(a);
    AppendHidesExactly(log, month, body, size);
  }

  lemma EndIsNoWord(lines: seq<Line>)
    requires Chained(lines)
    ensures !Expected(lines, Genesis).Word?
  {
    if lines != [] { ChainedEntries(lines); }
  }

  const FIRST := Record(1, "a", 1)
  const SECOND := Record(1, "b", 1)

  lemma OneWritten()
    ensures Append(NEW, 1, "a", 1).files == [File(1, [NewEntry(Genesis, "a", 1)])]
    ensures Flat([File(1, [NewEntry(Genesis, "a", 1)])]) == [NewEntry(Genesis, "a", 1)]
  {
    var file := File(1, [NewEntry(Genesis, "a", 1)]);
    assert Init([file]) == [] && Flat([]) == [];
  }

  lemma TwoWritten()
    ensures var one := Append(NEW, 1, "a", 1);
            var before := Append(one, 1, "b", 1);
            AppendAll(NEW, [FIRST, SECOND]) == before && Built(one) && Built(before) &&
            |Flat(before.files)| == 2 && Flat(one.files) <= Flat(before.files)
  {
    hide Append, Built, Flat;
    var one := Append(NEW, 1, "a", 1);
    var before := Append(one, 1, "b", 1);
    assert [FIRST, SECOND][1..] == [SECOND] && [SECOND][1..] == [] && AppendAll(before, []) == before;
    assert AppendAll(one, [SECOND]) == before;
    assert Flat(NEW.files) == [] by { NothingWritten(); }
    assert Built(NEW) by { NothingWritten(); }
    AppendBuilds(NEW, 1, "a", 1);
    AppendBuilds(one, 1, "b", 1);
  }

  lemma NothingWritten() ensures Built(NEW) && Flat(NEW.files) == [] {}

  lemma SecondFile(one: Log)
    requires Sorted(one.files) && |one.files| == 1 && one.files[0].month == 1
    ensures var before := Append(one, 1, "b", 1);
            |before.files| == 1 && before.files[0].month == 1 && one.files[0].lines <= before.files[0].lines
  {
  }

  /** Two entries are written, the second is cut off and `head` emptied; a third one makes `verify` pass. */
  lemma EmptyHeadHappens(body: string, size: nat)
    ensures var before := AppendAll(NEW, [FIRST, SECOND]);
            var log := Log([File(1, [NewEntry(Genesis, "a", 1)])], Some(Word("")), before.marker);
            Built(before) && |Flat(log.files)| == 1 && |Flat(before.files)| == 2 &&
            Flat(log.files) <= Flat(before.files) &&
            !Ok(log) && Ok(Append(log, 1, body, size))
  {
    hide Append, AppendAll, Built, Flat, Ok;
    OneWritten();
    TwoWritten();
    var one := Append(NEW, 1, "a", 1);
    var before := Append(one, 1, "b", 1);
    SecondFile(one);
    var after := Log(one.files, before.head, before.marker);
    assert Truncated(before, after);
    EmptyHeadHides(before, after, 1, body, size);
  }
}
