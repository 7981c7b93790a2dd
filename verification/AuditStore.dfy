/**
  `AuditLog` (ember_armor/ledger/audit.py): the directory, changed in place by `append` and
  read by `verify`.  Each method does what its function in `Audit` says.
 */
module AuditStore {
  import opened Prelude
  import opened Audit

  class AuditLog {
    var files: seq<File>
    var head: Option<Digest>
    var marker: Option<Marker>

    function Value(): Log
      reads this
    {
      Log(files, head, marker)
    }

    constructor ()
      ensures Value() == NEW
    {
      files, head, marker := [], None, None;
    }

    method LinkNext() returns (link: Digest)
      ensures link == Link(files, head)
    {
      var i := |files|;
      assert files[..i] == files;
      while i > 0
        invariant 0 <= i <= |files|
        invariant Link(files, head) == Link(files[..i], head)
      {
        i := i - 1;
        assert Init(files[..i + 1]) == files[..i] && Last(files[..i + 1]) == files[i];
        if files[i].lines != [] {
          var line := Last(files[i].lines);
          var intact := line.Entry?;
          return if intact && Truthy(head) then head.value else LinkAfter(line);
        }
      }
      link := if Truthy(head) then head.value else Genesis;
    }

    /** Append one entry; an entry is never inserted before existing ones. */
    method AppendEntry(month: nat, body: string, size: nat) returns (entry: Line)
      modifies this
      ensures Value() == Append(old(Value()), month, body, size)
      ensures entry == NewEntry(Prev(old(Value()), month), body, size)
      ensures Flat(files) == old(Flat(files)) + [entry] && head == Some(entry.hash)
    {
      var target := if files != [] && Last(files).month > month then Last(files).month else month;
      var prev;
      if marker.Some? && files != [] && Last(files).month == target &&
         marker.value.month == target && marker.value.size == Size(Last(files).lines) {
        prev := marker.value.digest;
      } else {
        prev := LinkNext();
      }
      entry := Entry(body, Some(prev), OfEntry(Some(prev), body), size);
      WrittenFlat(files, target, entry);
      if files != [] && Last(files).month == target {
        files := Init(files) + [File(target, Last(files).lines + [entry])];
      } else {
        files := files + [File(target, [entry])];
      }
      head := Some(entry.hash);
      marker := Some(Marker(target, Size(Last(files).lines), entry.hash));
    }

    /** Recompute the chain over every file and report what does not fit. */
    method Verify() returns (entries: nat, problems: seq<Problem>)
      ensures problems == Problems(Value())
      ensures entries == |Flat(files)|
    {
      hide FileProblems, ChainProblems, End, Expected, Flat, LinkAfter;
      problems := [];
      var expected := Genesis;
      entries := 0;
      NothingYet();
      for f := 0 to |files|
        invariant problems == ChainProblems(files[..f])
        invariant expected == End(files[..f]) && entries == |Flat(files[..f])|
      {
        var month, lines := files[f].month, files[f].lines;
        ghost var before, sofar, count := expected, problems, entries;
        NoLines(month, before);
        for n := 0 to |lines|
          invariant problems == sofar + FileProblems(month, lines[..n], before)
          invariant expected == Expected(lines[..n], before) && entries == count + n
        {
          var line := lines[n];
          NextLine(month, lines, n, before);
          entries := entries + 1;
          var number := n + 1;
          if line.Damaged? {
            problems := problems + [NotAnEntry(month, number)];
          } else {
            if line.prev != Some(expected) {
              problems := problems + [Broken(month, number)];
            }
            if OfEntry(line.prev, line.body) != line.hash {
              problems := problems + [Modified(month, number)];
            }
          }
          expected := LinkAfter(line);
        }
        assert lines[..|lines|] == lines;
        NextFile(files, f);
      }
      assert files[..|files|] == files;
      if head.Some? && head.value != expected {
        problems := problems + [HeadDiffers];
      }
    }
  }
}
