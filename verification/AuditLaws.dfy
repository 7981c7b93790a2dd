/**
  What `append` and `verify` (ember_armor/ledger/audit.py) mean for any log, line by line: the
  file an entry goes to, what it links to, and exactly which problems are reported.
 */
module AuditLaws {
  import opened Prelude
  import opened Audit

  // ---- which file ---------------------------------------------------------------------------------

  /** The month of the file of each line. */
  function Months(files: seq<File>): seq<nat> {
    if files == [] then [] else Months(Init(files)) + seq(|Last(files).lines|, _ => Last(files).month)
  }

  /** The latest month any clock showed so far. */
  function Latest(records: seq<Record>): nat
    requires records != []
  {
    if |records| == 1 then records[0].month
    else if Last(records).month > Latest(Init(records)) then Last(records).month
    else Latest(Init(records))
  }

  predicate InFiles(files: seq<File>, records: seq<Record>) {
    |Months(files)| == |records| && forall i :: 0 <= i < |records| ==> Months(files)[i] == Latest(records[..i + 1])
  }

  lemma {:induction false} AppendLast(log: Log, records: seq<Record>)
    requires records != []
    ensures var r := Last(records);
            AppendAll(log, records) == Append(AppendAll(log, Init(records)), r.month, r.body, r.size)
    decreases records
  {
    hide Append;
    var r := records[0];
    if |records| > 1 {
      AppendLast(Append(log, r.month, r.body, r.size), records[1..]);
      assert Init(records)[1..] == Init(records[1..]);
    } else {
      assert records[1..] == [] && Init(records) == [];
    }
  }

  lemma WrittenMonths(files: seq<File>, month: nat, line: Line)
    ensures Months(Written(files, month, line)) == Months(files) + [month]
  {
    var after := Written(files, month, line);
    if files != [] && Last(files).month == month {
      var n := |Last(files).lines|;
      assert Init(after) == Init(files);
      assert seq(n + 1, _ => month) == seq(n, _ => month) + [month];
    } else {
      assert Init(after) == files;
      assert seq(1, _ => month) == [month];
    }
  }

  lemma InFilesMore(files: seq<File>, after: seq<File>, records: seq<Record>)
    requires records != [] && InFiles(files, Init(records)) && Months(after) == Months(files) + [Latest(records)]
    ensures InFiles(after, records)
  {
    hide Months, Latest;
    forall i | 0 <= i < |records| ensures Months(after)[i] == Latest(records[..i + 1]) {
      if i < |records| - 1 {
        assert Init(records)[..i + 1] == records[..i + 1];
      } else {
        assert records[..i + 1] == records;
      }
    }
  }

  /** Every entry goes to the file of the latest month seen so far; a clock that goes back opens no old file. */
  lemma {:induction false} EntriesGoToTheLatestMonth(records: seq<Record>)
    ensures var log := AppendAll(NEW, records);
            InFiles(log.files, records) &&
            (records == [] ==> log.files == []) &&
            (records != [] ==> log.files != [] && Last(log.files).month == Latest(records))
    decreases records
  {
    if records != [] {
      hide Append, AppendAll, Months, InFiles;
      var r := Last(records);
      EntriesGoToTheLatestMonth(Init(records));
      AppendLast(NEW, records);
      var before := AppendAll(NEW, Init(records));
      Grows(before, r, Latest(records));
      InFilesMore(before.files, AppendAll(NEW, records).files, records);
    } else {
      assert AppendAll(NEW, records) == NEW;
    }
  }

  lemma Grows(log: Log, r: Record, latest: nat)
    requires latest == if log.files == [] || r.month > Last(log.files).month then r.month else Last(log.files).month
    ensures var files := Append(log, r.month, r.body, r.size).files;
            Months(files) == Months(log.files) + [latest] && files != [] && Last(files).month == latest
  {
    var line := NewEntry(Prev(log, r.month), r.body, r.size);
    WrittenMonths(log.files, latest, line);
  }

  // ---- what the next entry links to ----------------------------------------------------------------

  /** Behind an append the marker is believed until the month changes. */
  lemma MarkerServesTheMonth(log: Log, month: nat, body: string, size: nat, later: nat)
    ensures var after := Append(log, month, body, size);
            Untouched(after, later) <==> later <= Month(log, month)
  {
  }

  /** Reading the log picks the recorded head behind an entry or in an empty log, and otherwise the last line. */
  lemma {:induction false} LinkExactly(files: seq<File>, head: Option<Digest>)
    ensures Link(files, head) ==
            if head.Some? && head != Some(Word("")) && (Flat(files) == [] || Last(Flat(files)).Entry?) then head.value
            else if Flat(files) == [] then Genesis
            else LinkAfter(Last(Flat(files)))
    decreases |files|
  {
    if files != [] {
      if Last(files).lines == [] {
        assert Flat(files) == Flat(Init(files));
        LinkExactly(Init(files), head);
      } else {
        assert Last(Flat(files)) == Last(Last(files).lines);
      }
    }
  }

  /** A damaged line, and an entry without a hash, stand for themselves. */
  predicate Unhashed(line: Line) { line.Damaged? || line.hash == Word("") }

  /** So replacing one by another breaks the entry behind it, in one text or the other. */
  lemma DamageIsFixed(month: nat, lines: seq<Line>, a: Line, b: Line, behind: Line, before: Digest)
    requires Unhashed(a) && Unhashed(b) && a != b && behind.Entry?
    ensures Broken(month, |lines| + 2) in FileProblems(month, lines + [a, behind], before) ||
            Broken(month, |lines| + 2) in FileProblems(month, lines + [b, behind], before)
  {
    hide Expected;
    forall x: Line
      ensures behind.prev != Some(LinkAfter(x)) ==>
                Broken(month, |lines| + 2) in FileProblems(month, lines + [x, behind], before)
    {
      var all := lines + [x, behind];
      assert Init(all) == lines + [x];
      assert Expected(lines + [x], before) == LinkAfter(x) by { ExpectedLast(lines, x, before); }
    }
  }

  lemma ExpectedLast(lines: seq<Line>, x: Line, before: Digest) ensures Expected(lines + [x], before) == LinkAfter(x) {}

  // ---- what is reported -------------------------------------------------------------------------------

  /** Where a problem stands in its file; a line that does not follow is reported before one that was changed. */
  function Position(p: Problem): nat {
    match p
    case NotAnEntry(_, n) => 2 * n
    case Broken(_, n) => 2 * n
    case Modified(_, n) => 2 * n + 1
    case HeadDiffers => 0
  }

  /** What line `k` must link to. */
  function Before(lines: seq<Line>, k: nat, before: Digest): Digest
    requires k < |lines|
  {
    if k == 0 then before
    else if lines[k - 1].Entry? && lines[k - 1].hash != Word("") then lines[k - 1].hash
    else OfLine(lines[k - 1])
  }

  /** The problem belongs to a line of the file, and is there. */
  predicate IsThere(p: Problem, month: nat, lines: seq<Line>, before: Digest) {
    match p
    case NotAnEntry(m, n) => m == month && 0 < n <= |lines| && lines[n - 1].Damaged?
    case Broken(m, n) =>
      m == month && 0 < n <= |lines| && lines[n - 1].Entry? && lines[n - 1].prev != Some(Before(lines, n - 1, before))
    case Modified(m, n) =>
      m == month && 0 < n <= |lines| && lines[n - 1].Entry? &&
      lines[n - 1].hash != OfEntry(lines[n - 1].prev, lines[n - 1].body)
    case HeadDiffers => false
  }

  /** The problems of the last line, and those of the lines before it. */
  lemma OfTheLastLine(month: nat, lines: seq<Line>, before: Digest, p: Problem)
    requires lines != []
    ensures p in LineProblems(month, |lines|, Last(lines), Expected(Init(lines), before)) <==>
            IsThere(p, month, lines, before) && Position(p) >= 2 * |lines|
  {
  }

  lemma OfTheLinesBefore(month: nat, lines: seq<Line>, before: Digest, p: Problem)
    requires lines != []
    ensures IsThere(p, month, Init(lines), before) <==>
            IsThere(p, month, lines, before) && Position(p) < 2 * |lines|
  {
    var fewer := Init(lines);
    assert forall k :: 0 <= k < |fewer| ==> fewer[k] == lines[k];
    if p.Broken? && 0 < p.number <= |fewer| {
      assert Before(lines, p.number - 1, before) == Before(fewer, p.number - 1, before);
    }
  }

  predicate Ascending(problems: seq<Problem>) {
    forall i, j :: 0 <= i < j < |problems| ==> Position(problems[i]) < Position(problems[j])
  }

  lemma AscendingBoth(a: seq<Problem>, b: seq<Problem>, at: nat)
    requires Ascending(a) && Ascending(b)
    requires (forall p :: p in a ==> Position(p) < at) && (forall p :: p in b ==> Position(p) >= at)
    ensures Ascending(a + b)
  {
  }

  /** A file is reported on line by line, each problem once, with its kind and number. */
  lemma {:induction false} FileListedExactly(month: nat, lines: seq<Line>, before: Digest)
    ensures var problems := FileProblems(month, lines, before);
            (forall p :: p in problems <==> IsThere(p, month, lines, before)) && Ascending(problems)
    decreases lines
  {
    if lines != [] {
      FileListedExactly(month, Init(lines), before);
      var here := LineProblems(month, |lines|, Last(lines), Expected(Init(lines), before));
      assert Ascending(here);
      hide IsThere, LineProblems, Expected, Position, Ascending;
      forall p: Problem
        ensures p in here <==> IsThere(p, month, lines, before) && Position(p) >= 2 * |lines|
        ensures IsThere(p, month, Init(lines), before) <==>
                IsThere(p, month, lines, before) && Position(p) < 2 * |lines|
      {
        OfTheLastLine(month, lines, before, p);
        OfTheLinesBefore(month, lines, before, p);
      }
      AscendingBoth(FileProblems(month, Init(lines), before), here, 2 * |lines|);
    }
  }

  /** A problem of file `f`; its first line follows the last line before it, in whatever file that is. */
  predicate ThereIn(p: Problem, files: seq<File>, f: nat)
    requires f < |files|
  {
    IsThere(p, files[f].month, files[f].lines, Expected(Flat(files[..f]), Genesis))
  }

  lemma ThereBefore(p: Problem, files: seq<File>, f: nat)
    requires f < |files| - 1
    ensures ThereIn(p, Init(files), f) == ThereIn(p, files, f)
  {
    assert Init(files)[..f] == files[..f];
  }

  lemma LastIsListed(files: seq<File>, p: Problem)
    requires files != []
    ensures p in ChainProblems(files) <==> p in ChainProblems(Init(files)) || ThereIn(p, files, |files| - 1)
  {
    hide FileProblems, IsThere;
    var fewer := Init(files);
    FileListedExactly(Last(files).month, Last(files).lines, End(fewer));
    FilesAccepted(fewer);
    assert files[..|files| - 1] == fewer;
  }

  predicate Somewhere(p: Problem, files: seq<File>) { exists f :: 0 <= f < |files| && ThereIn(p, files, f) }

  lemma SomewhereBefore(p: Problem, files: seq<File>)
    requires files != []
    ensures Somewhere(p, files) <==> Somewhere(p, Init(files)) || ThereIn(p, files, |files| - 1)
  {
    hide ThereIn;
    var fewer := Init(files);
    if f: nat :| f < |fewer| && ThereIn(p, fewer, f) {
      ThereBefore(p, files, f);
      assert ThereIn(p, files, f);
    }
    if f: nat :| f < |files| && ThereIn(p, files, f) {
      if f < |files| - 1 { ThereBefore(p, files, f); }
    }
  }

  /** And so is the whole log. */
  lemma {:induction false} EveryFileIsListed(files: seq<File>, p: Problem)
    ensures p in ChainProblems(files) <==> Somewhere(p, files)
    decreases files
  {
    if files != [] {
      EveryFileIsListed(Init(files), p);
      LastIsListed(files, p);
      SomewhereBefore(p, files);
      hide *;
    }
  }

  /**
    Appending to any log, however damaged, hides and adds nothing: all reports on its lines stay,
    the head is right again, and the new entry is reported exactly if it was linked to something
    else than the line before it.
   */
  lemma AppendKeepsTheReports(log: Log, month: nat, body: string, size: nat)
    ensures var after := Append(log, month, body, size);
            Problems(after) == ChainProblems(log.files) +
              if Prev(log, month) == End(log.files) then []
              else [Broken(Month(log, month), |Last(after.files).lines|)]
  {
    hide Prev, FileProblems, LineProblems;
    var line := NewEntry(Prev(log, month), body, size);
    var target := Month(log, month);
    var after := Written(log.files, target, line);
    if log.files != [] && Last(log.files).month == target {
      var last, before := Last(log.files), End(Init(log.files));
      assert Init(after) == Init(log.files);
      OneLineMore(target, last.lines, line, before);
      var here := LineProblems(target, |last.lines| + 1, line, Expected(last.lines, before));
      assert ChainProblems(after) == ChainProblems(Init(log.files)) + (FileProblems(target, last.lines, before) + here);
      assert ChainProblems(after) == ChainProblems(log.files) + here;
    } else {
      assert Init(after) == log.files;
      OneLineMore(target, [], line, End(log.files));
      NoLines(target, End(log.files));
      assert [] + [line] == [line];
    }
    assert End(after) == line.hash;
    LinkedProblems(target, |Last(after).lines|, line, End(log.files));
  }

  lemma OneLineMore(month: nat, lines: seq<Line>, line: Line, before: Digest)
    ensures FileProblems(month, lines + [line], before)
         == FileProblems(month, lines, before) + LineProblems(month, |lines| + 1, line, Expected(lines, before))
  {
    assert Init(lines + [line]) == lines;
  }

  /** A new entry is never modified. */
  lemma LinkedProblems(month: nat, number: nat, line: Line, expected: Digest)
    requires line.Entry? && line.prev.Some? && line == NewEntry(line.prev.value, line.body, line.size)
    ensures LineProblems(month, number, line, expected) ==
            if line.prev.value == expected then [] else [Broken(month, number)]
  {
  }
}
