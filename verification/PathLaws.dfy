/**
  Laws of path predicates (`_path_holds` and its parts in ember_armor/ledger/engine.py,
  `may_match` in ember_armor/ledger/paths.py): what each field takes and leaves.
 */
module PathLaws {
  import opened Prelude
  import opened Globs
  import opened PathRules
  import Abbreviations

  /** A predicate that every path meets. */
  const ANY_PATH := PathPred(None, [], [], [], [], [], None, [])

  /** A predicate says what each of its fields says alone. */
  lemma FieldsApart(k: Classes, pred: PathPred, facts: Facts, fact: PathFact)
    ensures PathMatches(k, pred, facts, fact) <==>
            PathMatches(k, ANY_PATH.(op := pred.op), facts, fact) &&
            PathMatches(k, ANY_PATH.(recursive := pred.recursive), facts, fact) &&
            PathMatches(k, ANY_PATH.(under := pred.under), facts, fact) &&
            PathMatches(k, ANY_PATH.(notUnder := pred.notUnder), facts, fact) &&
            PathMatches(k, ANY_PATH.(notWithin := pred.notWithin), facts, fact) &&
            PathMatches(k, ANY_PATH.(glob := pred.glob), facts, fact) &&
            PathMatches(k, ANY_PATH.(notGlob := pred.notGlob), facts, fact) &&
            PathMatches(k, ANY_PATH.(sparedBeside := pred.sparedBeside), facts, fact)
  {
    NothingSpared(facts, fact);
    hide IsUnder, MatchesGlob, MayMatch, SparedBeside, Split, Join, Shared;
  }

  lemma NothingSpared(facts: Facts, fact: PathFact)
    ensures !SparedBeside(facts, fact, [])
  {
  }

  /** What a path is used for, and whether with everything below it. */
  lemma UseFields(k: Classes, op: Operation, recursive: bool, facts: Facts, fact: PathFact)
    ensures PathMatches(k, ANY_PATH.(op := Some(op)), facts, fact) <==> fact.op == op
    ensures PathMatches(k, ANY_PATH.(recursive := Some(recursive)), facts, fact) <==> fact.recursive == recursive
  {
    NothingSpared(facts, fact);
    hide IsUnder, MatchesGlob, MayMatch, SparedBeside, Split, Join, Shared;
  }

  /** No use of a path is meant by predicates on different operations. */
  lemma OperationsApart(k: Classes, a: PathPred, b: PathPred, facts: Facts, fact: PathFact)
    requires PathMatches(k, a, facts, fact) && PathMatches(k, b, facts, fact)
    ensures a.op.Some? && b.op.Some? ==> a.op == b.op
    ensures a.recursive.Some? && b.recursive.Some? ==> a.recursive == b.recursive
  {
  }

  lemma UnderField(k: Classes, under: seq<Pattern>, facts: Facts, fact: PathFact)
    requires under != []
    ensures PathMatches(k, ANY_PATH.(under := under), facts, fact) <==>
            exists p :: p in under && IsUnder(k, fact.path, p.text)
  {
    NothingSpared(facts, fact);
    hide IsUnder, MatchesGlob, MayMatch, SparedBeside, Split, Join, Shared;
    forall i | 0 <= i < |under| ensures under[i] in under {}
  }

  /** An exception by directory or name counts where the path is known, or wherever it is. */
  predicate Counts(path: string, pattern: Pattern) { '$' !in path || "**/" <= pattern.text }

  lemma ExceptionFields(k: Classes, patterns: seq<Pattern>, facts: Facts, fact: PathFact)
    ensures PathMatches(k, ANY_PATH.(notUnder := patterns), facts, fact) <==>
            forall p :: p in patterns && Counts(fact.path, p) ==> !IsUnder(k, fact.path, p.text)
    ensures PathMatches(k, ANY_PATH.(notGlob := patterns), facts, fact) <==>
            forall p :: p in patterns && Counts(fact.path, p) ==> !MatchesGlob(k, fact.path, p.text)
  {
    NothingSpared(facts, fact);
    hide IsUnder, MatchesGlob, MayMatch, SparedBeside, Split, Join, Shared;
    forall i | 0 <= i < |patterns| ensures patterns[i] in patterns {}
  }

  lemma GlobField(k: Classes, globs: seq<Pattern>, facts: Facts, fact: PathFact)
    requires globs != []
    ensures PathMatches(k, ANY_PATH.(glob := globs), facts, fact) <==>
            exists p :: p in globs && MayMatch(k, fact.path, p.text)
  {
    NothingSpared(facts, fact);
    hide IsUnder, MatchesGlob, MayMatch, SparedBeside, Split, Join, Shared;
    forall i | 0 <= i < |globs| ensures globs[i] in globs {}
  }

  // ---- names and directories -------------------------------------------------------------------

  /** A path is its directory, a slash and its name. */
  lemma {:induction false} DirectoryAndName(s: string)
    ensures '/' !in Name(s)
    ensures if '/' in s then s == Directory(s) + "/" + Name(s) else Directory(s) == "" && Name(s) == s
    decreases |s|
  {
    if s != "" {
      assert s == Init(s) + [Last(s)];
      if Last(s) != '/' { DirectoryAndName(Init(s)); }
    }
  }

  /** An operand with wildcards in its name that is accepted for a glob, though it does not match as it stands. */
  lemma ExpandsToAName(k: Classes, path: string, pattern: string) returns (name: string)
    requires MayMatch(k, path, pattern) && !MatchesGlob(k, path, pattern)
    ensures Abbreviations.Aligned(NoClasses(Name(path)), NoClasses(Name(pattern)),
                                  Abbreviations.Anything(NoClasses(Name(pattern))), name)
    ensures Name(path) != "" && !WildChar(Name(path)[0]) && Wild(Name(path))
    ensures MatchesGlob(k, Directory(path), Directory(pattern))
  {
    hide MatchesGlob, Abbreviations.Reaches, Abbreviations.Aligned;
    DirectoryAndName(path);
    DirectoryAndName(pattern);
    NoClassesChars(Name(path));
    NoClassesChars(Name(pattern));
    var a, b := NoClasses(Name(path)), NoClasses(Name(pattern));
    Abbreviations.AbbreviatesExactly(a, b);
    name :| Abbreviations.Aligned(a, b, Abbreviations.Anything(b), name);
  }

  /** And it is, when such a name exists. */
  lemma NamesExpand(k: Classes, path: string, pattern: string, name: string)
    requires Name(path) != "" && !WildChar(Name(path)[0]) && Wild(Name(path))
    requires MatchesGlob(k, Directory(path), Directory(pattern))
    requires Abbreviations.Aligned(NoClasses(Name(path)), NoClasses(Name(pattern)),
                                   Abbreviations.Anything(NoClasses(Name(pattern))), name)
    ensures MayMatch(k, path, pattern)
  {
    hide MatchesGlob, Abbreviations.Reaches, Abbreviations.Aligned;
    DirectoryAndName(path);
    DirectoryAndName(pattern);
    NoClassesChars(Name(path));
    NoClassesChars(Name(pattern));
    Abbreviations.AbbreviatesExactly(NoClasses(Name(path)), NoClasses(Name(pattern)));
  }

  lemma {:induction false} NoClassesChars(s: string)
    ensures forall c :: c in NoClasses(s) ==> c == '?' || c in s
    decreases |s|
  {
    if s != "" {
      if s[0] == '[' && Find(s, ']', 1).Some? {
        NoClassesChars(s[Find(s, ']', 1).value + 1..]);
      } else {
        NoClassesChars(s[1..]);
      }
    }
  }

  lemma {:induction false} FindFirst(front: string, c: char, rest: string, from: nat)
    requires from <= |front| && forall i :: from <= i < |front| ==> front[i] != c
    ensures Find(front + [c] + rest, c, from) == Some(|front|)
    decreases |front| - from
  {
    if from < |front| { FindFirst(front, c, rest, from + 1); }
  }

  /** Every class stands for one character. */
  lemma {:induction false} ClassesStandForOne(front: string, body: string, rest: string)
    requires '[' !in front && ']' !in body
    ensures NoClasses(front + "[" + body + "]" + rest) == front + "?" + NoClasses(rest)
    decreases front
  {
    var s := front + "[" + body + "]" + rest;
    if front == "" {
      FindFirst("[" + body, ']', rest, 1);
      assert s == ("[" + body) + [']'] + rest;
      assert s[|body| + 2..] == rest;
    } else {
      ClassesStandForOne(front[1..], body, rest);
      assert s[0] == front[0] && s[1..] == front[1..] + "[" + body + "]" + rest;
    }
  }

  lemma {:induction false} NoClassStays(s: string)
    requires '[' !in s
    ensures NoClasses(s) == s
    decreases s
  {
    if s != "" { NoClassStays(s[1..]); }
  }

  // ---- what is spared near the working directory --------------------------------------------------

  /** The shared segments are the longest common beginning. */
  lemma {:induction false} SharedIs(parts: seq<string>, base: seq<string>, end: nat)
    requires end <= |parts|
    ensures end <= Shared(parts, base) <==> parts[..end] <= base
    decreases parts
  {
    if end > 0 && base != [] && parts[0] == base[0] {
      SharedIs(parts[1..], base[1..], end - 1);
      assert parts[1..][..end - 1] == parts[..end][1..];
      assert parts[..end] == [parts[0]] + parts[..end][1..] && base == [base[0]] + base[1..];
    }
  }

  /** The path or a directory above it that is neither the working directory nor above that. */
  predicate Beyond(path: string, cwd: string, end: nat) {
    end <= |Split(path)| && !(Split(path)[..end] <= Split(cwd))
  }

  lemma BeyondShared(path: string, cwd: string, end: nat)
    ensures Beyond(path, cwd, end) <==> Shared(Split(path), Split(cwd)) < end <= |Split(path)|
  {
    if end <= |Split(path)| { SharedIs(Split(path), Split(cwd), end); }
  }

  /** Directory or name `p` spares the path, seen from the working directory. */
  ghost predicate SparesWithin(k: Classes, p: Pattern, path: string, cwd: string) {
    Counts(path, p) && exists end: nat :: Beyond(path, cwd, end) && MatchesGlob(k, Join(Split(path)[..end]), p.text)
  }

  lemma WithinField(k: Classes, patterns: seq<Pattern>, facts: Facts, fact: PathFact)
    ensures PathMatches(k, ANY_PATH.(notWithin := patterns), facts, fact) <==>
            !exists p :: p in patterns && SparesWithin(k, p, fact.path, facts.cwd)
  {
    NothingSpared(facts, fact);
    var parts, base := Split(fact.path), Split(facts.cwd);
    hide IsUnder, MatchesGlob, MayMatch, SparedBeside, Split, Join, Shared;
    if Within(k, fact.path, facts.cwd, patterns) {
      var end, i :| Shared(parts, base) < end <= |parts| && 0 <= i < |patterns| &&
        (Located(fact.path) || Anywhere(patterns[i].text)) && MatchesGlob(k, Join(parts[..end]), patterns[i].text);
      BeyondShared(fact.path, facts.cwd, end);
      assert patterns[i] in patterns && SparesWithin(k, patterns[i], fact.path, facts.cwd);
    }
    if p :| p in patterns && SparesWithin(k, p, fact.path, facts.cwd) {
      var end: nat :| Beyond(fact.path, facts.cwd, end) && MatchesGlob(k, Join(parts[..end]), p.text);
      BeyondShared(fact.path, facts.cwd, end);
      var i :| 0 <= i < |patterns| && patterns[i] == p;
    }
  }

  /** The call does the same to this path, which stands beside the directory or name that ends with segment `end`. */
  predicate Beside(facts: Facts, fact: PathFact, end: nat, sibling: string, other: PathFact)
    requires 0 < end <= |Split(fact.path)|
  {
    other in facts.paths && other.op == fact.op && other.path != fact.path &&
    Trimmed(other.path) == Join(Split(fact.path)[..end - 1]) + "/" + sibling
  }

  ghost predicate BesideOne(facts: Facts, fact: PathFact, table: seq<(string, seq<string>)>) {
    exists end: nat, sibling, other ::
      Beyond(fact.path, facts.cwd, end) && 0 < end && sibling in Siblings(table, Split(fact.path)[end - 1]) &&
      Beside(facts, fact, end, sibling, other)
  }

  lemma BesideField(k: Classes, table: seq<(string, seq<string>)>, facts: Facts, fact: PathFact)
    ensures PathMatches(k, ANY_PATH.(sparedBeside := table), facts, fact) <==> !BesideOne(facts, fact, table)
  {
    hide IsUnder, MatchesGlob, MayMatch, Split, Join, Shared, Siblings, Trimmed, SparedBeside, BesideOne;
    if SparedBeside(facts, fact, table) { SparedIsBeside(facts, fact, table); }
    if BesideOne(facts, fact, table) { BesideIsSpared(facts, fact, table); }
  }

  lemma SparedIsBeside(facts: Facts, fact: PathFact, table: seq<(string, seq<string>)>)
    requires SparedBeside(facts, fact, table)
    ensures BesideOne(facts, fact, table)
  {
    var parts, base := Split(fact.path), Split(facts.cwd);
    hide Split, Join, Shared, Siblings, Trimmed, Beyond;
    var end :| Shared(parts, base) <= end < |parts| &&
               SparedAt(facts, fact, Siblings(table, parts[end]), Join(parts[..end]));
    var siblings, parent := Siblings(table, parts[end]), Join(parts[..end]);
    var i :| 0 <= i < |siblings| && AlsoTouched(facts, fact, parent + "/" + siblings[i]);
    var j :| 0 <= j < |facts.paths| && facts.paths[j].op == fact.op && facts.paths[j].path != fact.path &&
             Trimmed(facts.paths[j].path) == parent + "/" + siblings[i];
    BeyondShared(fact.path, facts.cwd, end + 1);
    assert siblings[i] in siblings && facts.paths[j] in facts.paths;
    assert Beside(facts, fact, end + 1, siblings[i], facts.paths[j]);
  }

  lemma BesideIsSpared(facts: Facts, fact: PathFact, table: seq<(string, seq<string>)>)
    requires BesideOne(facts, fact, table)
    ensures SparedBeside(facts, fact, table)
  {
    var parts, base := Split(fact.path), Split(facts.cwd);
    hide Split, Join, Shared, Siblings, Trimmed;
    var end: nat, sibling, other :|
      Beyond(fact.path, facts.cwd, end) && 0 < end <= |parts| && sibling in Siblings(table, parts[end - 1]) &&
      Beside(facts, fact, end, sibling, other);
    BeyondShared(fact.path, facts.cwd, end);
    var siblings := Siblings(table, parts[end - 1]);
    var i :| 0 <= i < |siblings| && siblings[i] == sibling;
    var j :| 0 <= j < |facts.paths| && facts.paths[j] == other;
    assert AlsoTouched(facts, fact, Join(parts[..end - 1]) + "/" + siblings[i]);
    assert SparedAt(facts, fact, siblings, Join(parts[..end - 1]));
  }

  /** Of two entries for a name the later one counts. */
  lemma LaterEntryCounts(table: seq<(string, seq<string>)>, name: string, siblings: seq<string>, other: string)
    ensures Siblings(table + [(name, siblings)], name) == siblings
    ensures other != name ==> Siblings(table + [(name, siblings)], other) == Siblings(table, other)
    ensures Siblings([], other) == []
  {
    assert Init(table + [(name, siblings)]) == table;
  }

  /** Slashes at the end do not count. */
  lemma {:induction false} TrimmedSlashes(s: string)
    ensures Trimmed(s + "/") == Trimmed(s)
    ensures s != "" && Last(s) != '/' ==> Trimmed(s) == s
  {
    assert Init(s + "/") == s;
  }

  /** A call meets a predicate when one of its paths does. */
  lemma OneOfThePaths(k: Classes, pred: PathPred, facts: Facts)
    ensures PathHolds(k, pred, facts) <==> exists fact :: fact in facts.paths && PathMatches(k, pred, facts, fact)
  {
    hide PathMatches;
    forall i | 0 <= i < |facts.paths| ensures facts.paths[i] in facts.paths {}
  }
}
