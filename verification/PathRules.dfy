/**
  Path predicates: what the gate evaluates (`_path_holds` and its parts in
  ember_armor/ledger/engine.py, `may_match` in paths.py) and what lint claims about any two
  of them (`directory_inside` and `path_implies` in ember_armor/ledger/implies.py), on the
  POSIX flavour and with the patterns already resolved.
 */
module PathRules {
  import opened Prelude
  import opened Globs
  import opened WildTokens
  import Abbreviations

  // ---- paths of a call --------------------------------------------------------------

  datatype Operation = Read | Write | Delete

  datatype PathFact = PathFact(path: string, op: Operation, recursive: bool)

  /** What a path predicate sees of a call: its paths, and where it is made. */
  datatype Facts = Facts(paths: seq<PathFact>, cwd: string)

  /** A resolved pattern.  Lint does not compare every pattern (one with a ".." segment). */
  datatype Pattern = Pattern(text: string, comparable: bool)

  /** `op` is `None` for "any"; `recursive` is `None` when both are accepted. */
  datatype PathPred = PathPred(
    op: Option<Operation>, under: seq<Pattern>, notUnder: seq<Pattern>, notWithin: seq<Pattern>,
    glob: seq<Pattern>, notGlob: seq<Pattern>, recursive: Option<bool>, sparedBeside: seq<(string, seq<string>)>)

  // ---- splitting a path ---------------------------------------------------------------

  function Split(s: string): (parts: seq<string>)
    ensures parts != []
  {
    if s == [] then [""]
    else if s[0] == '/' then [""] + Split(s[1..])
    else
      var rest := Split(s[1..]);
      [[s[0]] + rest[0]] + rest[1..]
  }

  function Join(parts: seq<string>): string {
    if parts == [] then "" else if |parts| == 1 then parts[0] else parts[0] + "/" + Join(parts[1..])
  }

  /** How many leading segments are the same. */
  function Shared(parts: seq<string>, base: seq<string>): (n: nat)
    ensures n <= |parts|
  {
    if parts == [] || base == [] || parts[0] != base[0] then 0 else 1 + Shared(parts[1..], base[1..])
  }

  /** `rpartition("/")` */
  function Directory(s: string): string
    decreases |s|
  {
    if s == [] then "" else if Last(s) == '/' then Init(s) else Directory(Init(s))
  }

  function Name(s: string): string
    decreases |s|
  {
    if s == [] || Last(s) == '/' then "" else Name(Init(s)) + [Last(s)]
  }

  // ---- the engine ---------------------------------------------------------------------

  predicate WildChar(c: char) { c == '*' || c == '?' || c == '[' }

  /** Every class of a name becomes "?" (`_CLASS_RE.sub("?", ...)`). */
  function NoClasses(s: string): string
    decreases |s|
  {
    if s == [] then ""
    else if s[0] == '[' && Find(s, ']', 1).Some? then "?" + NoClasses(s[Find(s, ']', 1).value + 1..])
    else [s[0]] + NoClasses(s[1..])
  }

  /** `may_match` */
  predicate MayMatch(k: Classes, path: string, pattern: string) {
    MatchesGlob(k, path, pattern) ||
    (var name := Name(path);
     name != [] && !WildChar(name[0]) && Wild(name) &&
     MatchesGlob(k, Directory(path), Directory(pattern)) &&
     Abbreviations.Reaches(NoClasses(name), NoClasses(Name(pattern)), (0, 0)))
  }

  /** True for a pattern that does not depend on a location. */
  predicate Anywhere(pattern: string) { "**/" <= pattern }

  /** A path with an unresolved variable lies nowhere the gate knows. */
  predicate Located(path: string) { '$' !in path }

  predicate UnderOne(k: Classes, path: string, directories: seq<Pattern>) {
    exists i :: 0 <= i < |directories| && (Located(path) || Anywhere(directories[i].text)) &&
      IsUnder(k, path, directories[i].text)
  }

  /** `_within`: a directory counts only beyond what the path shares with `cwd`. */
  predicate Within(k: Classes, path: string, cwd: string, directories: seq<Pattern>) {
    var parts := Split(path);
    exists end, i ::
      Shared(parts, Split(cwd)) < end <= |parts| && 0 <= i < |directories| &&
      (Located(path) || Anywhere(directories[i].text)) && MatchesGlob(k, Join(parts[..end]), directories[i].text)
  }

  /** The siblings a name is spared beside; of two entries the later one counts. */
  function Siblings(table: seq<(string, seq<string>)>, name: string): seq<string> {
    if table == [] then [] else if Last(table).0 == name then Last(table).1 else Siblings(Init(table), name)
  }

  /** The call does the same to another path, which is this one without its last slashes. */
  predicate AlsoTouched(facts: Facts, fact: PathFact, path: string) {
    exists i :: 0 <= i < |facts.paths| && facts.paths[i].op == fact.op && facts.paths[i].path != fact.path &&
                Trimmed(facts.paths[i].path) == path
  }

  /** The directory that ends with segment `end` of the path is spared beside a sibling. */
  predicate SparedAt(facts: Facts, fact: PathFact, siblings: seq<string>, parent: string) {
    exists i :: 0 <= i < |siblings| && AlsoTouched(facts, fact, parent + "/" + siblings[i])
  }

  predicate SparedBeside(facts: Facts, fact: PathFact, table: seq<(string, seq<string>)>) {
    var parts := Split(fact.path);
    exists end :: Shared(parts, Split(facts.cwd)) <= end < |parts| &&
                  SparedAt(facts, fact, Siblings(table, parts[end]), Join(parts[..end]))
  }

  /** One path satisfies every field of the predicate. */
  predicate PathMatches(k: Classes, pred: PathPred, facts: Facts, fact: PathFact) {
    (pred.op.Some? ==> fact.op == pred.op.value) &&
    (pred.recursive.Some? ==> fact.recursive == pred.recursive.value) &&
    (pred.under != [] ==> exists i :: 0 <= i < |pred.under| && IsUnder(k, fact.path, pred.under[i].text)) &&
    !UnderOne(k, fact.path, pred.notUnder) &&
    !Within(k, fact.path, facts.cwd, pred.notWithin) &&
    !SparedBeside(facts, fact, pred.sparedBeside) &&
    (forall i :: 0 <= i < |pred.notGlob| && (Located(fact.path) || Anywhere(pred.notGlob[i].text)) ==>
                   !MatchesGlob(k, fact.path, pred.notGlob[i].text)) &&
    (pred.glob != [] ==> exists i :: 0 <= i < |pred.glob| && MayMatch(k, fact.path, pred.glob[i].text))
  }

  /** `_path_holds` */
  predicate PathHolds(k: Classes, pred: PathPred, facts: Facts) {
    exists i :: 0 <= i < |facts.paths| && PathMatches(k, pred, facts, facts.paths[i])
  }

  // ---- lint -----------------------------------------------------------------------------

  /** `directory_inside`, on patterns that lint compares; none starts with its placeholder. */
  predicate DirectoryInside(k: Classes, inner: Pattern, outer: Pattern) {
    inner.comparable && outer.comparable &&
    (inner.text == outer.text ||
     (var text := if Anywhere(inner.text) && Anywhere(outer.text) then inner.text[3..] else inner.text;
      !Wild(text) && IsUnder(k, text, outer.text)))
  }

  predicate InsideOne(k: Classes, inner: Pattern, outers: seq<Pattern>) {
    exists i :: 0 <= i < |outers| && DirectoryInside(k, inner, outers[i])
  }

  /** The same text, where lint compares both. */
  predicate Listed(p: Pattern, patterns: seq<Pattern>) {
    p.comparable && exists i :: 0 <= i < |patterns| && patterns[i].comparable && patterns[i].text == p.text
  }

  predicate GroupInside(k: Classes, group: seq<Pattern>, outers: seq<Pattern>) {
    group != [] && forall i :: 0 <= i < |group| ==> InsideOne(k, group[i], outers)
  }

  predicate Among(names: seq<string>, others: seq<string>) {
    forall i :: 0 <= i < |names| ==> names[i] in others
  }

  /** `path_implies` */
  predicate PathImplies(k: Classes, a: PathPred, b: PathPred) {
    (b.op.Some? ==> a.op == b.op) &&
    (b.recursive.Some? ==> a.recursive == b.recursive) &&
    (b.under != [] ==> GroupInside(k, a.under, b.under) || GroupInside(k, a.glob, b.under)) &&
    (forall i :: 0 <= i < |b.notUnder| ==> InsideOne(k, b.notUnder[i], a.notUnder)) &&
    (forall i :: 0 <= i < |b.notWithin| ==>
       Listed(b.notWithin[i], a.notWithin) || InsideOne(k, b.notWithin[i], a.notUnder)) &&
    (forall i :: 0 <= i < |b.sparedBeside| ==>
      Among(b.sparedBeside[i].1, Siblings(a.sparedBeside, b.sparedBeside[i].0))) &&
    (forall i :: 0 <= i < |b.notGlob| ==> Listed(b.notGlob[i], a.notGlob)) &&
    (b.glob != [] ==> a.glob != [] && forall i :: 0 <= i < |a.glob| ==> Listed(a.glob[i], b.glob))
  }

  // ---- patterns and paths the claims are about ---------------------------------------------

  /** No slash at the end, except for the root. */
  predicate Resolved(text: string) { text == "/" || (text != [] && Last(text) != '/') }

  // A class that takes a slash at the end of the pattern, as in "**/[!a]".
  predicate EndsInSlashClass(k: Classes, text: string) {
    var t := Tokens(k, Trimmed(text));
    t != [] && Last(t).Class? && k.has(Last(t).body, '/')
  }

  /** A path without wildcards or variables. */
  predicate Literal(path: string) { path != [] && !Wild(path) && Located(path) }

  /** The class takes every character of a path without wildcards and variables. */
  ghost predicate Full(k: Classes, body: string) {
    forall c: char :: Literal([c]) ==> k.has(body, c)
  }

  /** A pattern that takes "/" takes every literal path: its last class is no obstacle. */
  ghost predicate RootStands(k: Classes, outer: string) {
    outer == "/" || !EndsInSlashClass(k, outer) ||
    (var t := Tokens(k, Trimmed(outer)); TakesAnything(Init(t)) && Full(k, Last(t).body))
  }

  /** The guard under which `directory_inside` can be believed. */
  ghost predicate Comparable(k: Classes, inner: Pattern, outer: Pattern) {
    Resolved(inner.text) && Resolved(outer.text) && (inner.text == "/" ==> RootStands(k, outer.text))
  }

  // ---- being under is transitive -------------------------------------------------------------

  lemma TrimmedResolved(text: string)
    requires Resolved(text)
    ensures Trimmed(text) == if text == "/" then "" else text
  {
    if text == "/" { assert Init(text) == ""; }
  }

  lemma UnderLiteral(k: Classes, path: string, text: string)
    requires Resolved(text) && !Wild(text)
    ensures IsUnder(k, path, text) <==>
            (if text == "/" then path == [] || path[0] == '/' else text <= path && Edge(path, |text|))
  {
    TrimmedResolved(text);
    var t := Trimmed(text);
    forall j | 0 <= j <= |path| ensures Match(k, Tokens(k, t), path[..j]) <==> path[..j] == t {
      PlainMatchesItself(k, t, path[..j]);
    }
    if t <= path { assert path[..|t|] == t; }
  }

  /** From the root: what a pattern says of "/" it says of every absolute path, unless it ends in a class. */
  lemma UnderFromRoot(k: Classes, path: string, outer: string)
    requires path != [] && path[0] == '/' && Resolved(outer) && IsUnder(k, "/", outer)
    requires outer == "/" || !EndsInSlashClass(k, outer)
    ensures IsUnder(k, path, outer)
  {
    TrimmedResolved(outer);
    var t := Trimmed(outer);
    var tokens := Tokens(k, t);
    var root := "/";
    var j :| 0 <= j <= |root| && Edge(root, j) && Match(k, tokens, root[..j]);
    if j == 0 {
      assert path[..0] == root[..0];
    } else {
      assert root[..j] == root;
      if tokens == [] {
        assert false;
      } else {
        TokensEnd(k, t);
        LastMatched(k, tokens, root);
        assert Last(tokens).Star? || Last(tokens).Any?;
        var n := NameEnd(path, 1);
        TailTakesMore(k, tokens, root, path[1..n]);
        assert root + path[1..n] == path[..n];
      }
    }
  }

  /** Where the name that begins at `from` ends. */
  function NameEnd(path: string, from: nat): (n: nat)
    requires from <= |path|
    ensures from <= n <= |path| && Edge(path, n) && NoSlash(path[from..n])
    decreases |path| - from
  {
    if from == |path| || path[from] == '/' then from
    else
      var n := NameEnd(path, from + 1);
      assert path[from..n] == [path[from]] + path[from + 1..n];
      n
  }

  /** A pattern that ends in a class and takes "/" has only wildcards before the class. */
  lemma SlashClassTakesRoot(k: Classes, outer: string)
    requires Resolved(outer) && outer != "/" && EndsInSlashClass(k, outer) && IsUnder(k, "/", outer)
    ensures AllWild(Init(Tokens(k, Trimmed(outer))))
  {
    hide Match, Tokens, Trimmed;
    var tokens := Tokens(k, Trimmed(outer));
    var first, last := Init(tokens), [Last(tokens)];
    assert tokens == first + last;
    var root := "/";
    var j :| 0 <= j <= |root| && Edge(root, j) && Match(k, tokens, root[..j]);
    var n := MatchSplit(k, first, last, root[..j]);
    ClassTakesOne(k, Last(tokens).body, root[..j][n..]);
    assert root[..j][..n] == "";
    TakesNothing(k, first);
  }

  lemma ClassTakesOne(k: Classes, body: string, s: string)
    ensures Match(k, [Class(body)], s) <==> |s| == 1 && k.has(body, s[0])
  {
    if s != [] { assert [Class(body)][1..] == [] && |s[1..]| == |s| - 1; }
  }

  /** Such a pattern takes every literal path exactly if the wildcards and the class take everything. */
  lemma RootStandsFor(k: Classes, outer: string, path: string)
    requires Resolved(outer) && outer != "/" && EndsInSlashClass(k, outer) && IsUnder(k, "/", outer)
    requires RootStands(k, outer) && Literal(path) && path[0] == '/'
    ensures IsUnder(k, path, outer)
  {
    hide Match, Tokens, Trimmed, TakesAnything;
    SlashClassTakesRoot(k, outer);
    var tokens := Tokens(k, Trimmed(outer));
    var first, last := Init(tokens), [Last(tokens)];
    var n := NameEnd(path, 1);
    var c := path[n - 1];
    assert k.has(Last(tokens).body, c) by {
      if n > 1 { assert path[1..n][n - 2] == c && c in path && Literal([c]); }
    }
    AnythingIsTaken(k, first, path[..n - 1]);
    ClassTakesOne(k, Last(tokens).body, [c]);
    MatchJoin(k, first, last, path[..n - 1], [c]);
    assert tokens == first + last && path[..n] == path[..n - 1] + [c];
  }

  lemma RootFallsFor(k: Classes, outer: string) returns (path: string)
    requires Resolved(outer) && outer != "/" && EndsInSlashClass(k, outer) && IsUnder(k, "/", outer)
    requires !RootStands(k, outer)
    ensures Literal(path) && path[0] == '/' && !IsUnder(k, path, outer)
  {
    hide Match, Tokens, Trimmed, TakesAnything;
    SlashClassTakesRoot(k, outer);
    var tokens := Tokens(k, Trimmed(outer));
    if TakesAnything(Init(tokens)) {
      var c: char :| Literal([c]) && !k.has(Last(tokens).body, c);
      path := ['/', c];
      ClassEnds(k, tokens, path[..2]);
    } else {
      path := "/bc";
      NameBehindSlash(k, Init(tokens));
      assert Init(path[..3]) == "/b";
      ClassEnds(k, tokens, path[..3]);
    }
    ClassEnds(k, tokens, path[..0]);
    assert forall j :: 0 <= j <= |path| && Edge(path, j) ==> j == 0 || j == |path|;
  }

  /** What a pattern takes that ends in a class. */
  lemma ClassEnds(k: Classes, tokens: seq<Token>, s: string)
    requires tokens != [] && Last(tokens).Class?
    ensures Match(k, tokens, s) ==> s != "" && k.has(Last(tokens).body, Last(s)) && Match(k, Init(tokens), Init(s))
  {
    hide Match;
    var first, last := Init(tokens), [Last(tokens)];
    assert tokens == first + last;
    if Match(k, tokens, s) {
      var n := MatchSplit(k, first, last, s);
      ClassTakesOne(k, Last(tokens).body, s[n..]);
      assert s[..n] == Init(s);
    }
  }

  lemma UnderPlain(k: Classes, path: string, inner: string, outer: string)
    requires Resolved(inner) && !Wild(inner) && inner != "/" && IsUnder(k, path, inner) && IsUnder(k, inner, outer)
    ensures IsUnder(k, path, outer)
  {
    UnderLiteral(k, path, inner);
    var m :| 0 <= m <= |inner| && Edge(inner, m) && Match(k, Tokens(k, Trimmed(outer)), inner[..m]);
    assert path[..m] == inner[..m];
  }

  /** A match that begins behind a slash also holds from the beginning. */
  lemma DeepFromStart(k: Classes, rest: seq<Token>, path: string, start: nat, end: nat)
    requires start <= end <= |path| && (start > 0 ==> path[start - 1] == '/')
    requires Match(k, [Deep] + rest, path[start..end])
    ensures Match(k, [Deep] + rest, path[..end])
  {
    if start == 0 {
      assert path[..end] == path[start..end];
    } else {
      DeepTakesMore(k, rest, path[..start - 1], path[start..end]);
      assert path[..start - 1] + "/" + path[start..end] == path[..end];
    }
  }

  lemma AnywhereTokens(k: Classes, text: string)
    requires Anywhere(text) && Resolved(text)
    ensures Tokens(k, Trimmed(text)) == [Deep] + Tokens(k, text[3..])
  {
    TrimmedResolved(text);
  }

  lemma Slices(s: string, start: nat, j: nat, m: nat)
    requires start <= start + m <= j <= |s|
    ensures s[..j][start..] == s[start..j] && s[start..j][..m] == s[start..start + m]
  {
  }

  lemma UnderAnywhere(k: Classes, path: string, inner: string, outer: string)
    requires Anywhere(inner) && Anywhere(outer) && Resolved(inner) && Resolved(outer)
    requires !Wild(inner[3..]) && IsUnder(k, path, inner) && IsUnder(k, inner[3..], outer)
    ensures IsUnder(k, path, outer)
  {
    hide Match, Tokens, Trimmed;
    var text, rest := inner[3..], Tokens(k, outer[3..]);
    AnywhereTokens(k, inner);
    AnywhereTokens(k, outer);
    PlainTokens(k, text);
    var j :| 0 <= j <= |path| && Edge(path, j) && Match(k, [Deep] + Literals(text), path[..j]);
    var m :| 0 <= m <= |text| && Edge(text, m) && Match(k, [Deep] + rest, text[..m]);
    var start := DeepStart(k, text, path[..j]);
    var end := start + m;
    Slices(path, start, j, m);
    DeepFromStart(k, rest, path, start, end);
    if m < |text| { assert path[end] == text[m]; }
  }

  // Where the literal part begins in a match of "**/text".
  lemma DeepStart(k: Classes, text: string, s: string) returns (start: nat)
    requires Match(k, [Deep] + Literals(text), s)
    ensures start <= |s| && s[start..] == text && (start > 0 ==> s[start - 1] == '/')
  {
    hide Match;
    var tokens := [Deep] + Literals(text);
    assert tokens[1..] == Literals(text);
    start := FirstTook(k, tokens, s);
    PlainMatch(k, text, s[start..]);
  }

  /** What lint calls inside is inside: a path under the inner directory is under the outer. */
  lemma InsideIsUnder(k: Classes, inner: Pattern, outer: Pattern, path: string)
    requires DirectoryInside(k, inner, outer) && Comparable(k, inner, outer) && Literal(path)
    requires IsUnder(k, path, inner.text)
    ensures IsUnder(k, path, outer.text)
  {
    hide Match, Tokens, Trimmed, TakesAnything;
    if inner.text != outer.text {
      if Anywhere(inner.text) && Anywhere(outer.text) {
        UnderAnywhere(k, path, inner.text, outer.text);
      } else if inner.text == "/" {
        UnderLiteral(k, path, "/");
        if outer.text == "/" || !EndsInSlashClass(k, outer.text) {
          UnderFromRoot(k, path, outer.text);
        } else {
          RootStandsFor(k, outer.text, path);
        }
      } else {
        UnderPlain(k, path, inner.text, outer.text);
      }
    }
  }

  // `directory_inside` is right for all literal paths exactly under that guard.  It is wrong
  // for "/" and a pattern such as "**/[!a]": a negated class takes a slash, so "/" itself is
  // under the pattern, and what lies below "/" need not be.
  lemma InsideIsRightExactly(k: Classes, inner: Pattern, outer: Pattern)
    requires DirectoryInside(k, inner, outer) && Resolved(inner.text) && Resolved(outer.text)
    ensures Comparable(k, inner, outer) <==>
            forall path :: Literal(path) && IsUnder(k, path, inner.text) ==> IsUnder(k, path, outer.text)
  {
    hide IsUnder, EndsInSlashClass, DirectoryInside, RootStands;
    if Comparable(k, inner, outer) {
      forall path | Literal(path) && IsUnder(k, path, inner.text) ensures IsUnder(k, path, outer.text) {
        InsideIsUnder(k, inner, outer, path);
      }
    } else {
      RootInside(k, inner, outer);
      var path := RootFallsFor(k, outer.text);
      UnderLiteral(k, path, "/");
    }
  }

  lemma RootInside(k: Classes, inner: Pattern, outer: Pattern)
    requires inner.text == "/" && DirectoryInside(k, inner, outer) && !RootStands(k, outer.text)
    ensures outer.text != "/" && EndsInSlashClass(k, outer.text) && IsUnder(k, "/", outer.text)
  {
  }

  /** What matches a pattern is under it. */
  lemma MatchIsUnder(k: Classes, path: string, text: string)
    requires Resolved(text) && MatchesGlob(k, path, text)
    ensures IsUnder(k, path, text)
  {
    TrimmedResolved(text);
    if text == "/" {
      PlainMatchesItself(k, text, path);
      UnderLiteral(k, path, text);
    } else {
      assert path[..|path|] == path;
    }
  }

  // ---- what lint claims about two predicates holds for every path -------------------------------

  lemma {:induction false} JoinedPrefix(parts: seq<string>, end: nat)
    requires 0 < end <= |parts|
    ensures var whole, part := Join(parts), Join(parts[..end]); part <= whole && Edge(whole, |part|)
    decreases parts
  {
    if |parts| > 1 {
      var tail := Join(parts[1..]);
      if end == 1 {
        assert parts[..1] == [parts[0]];
        assert Join(parts)[|parts[0]|] == '/';
      } else {
        JoinedPrefix(parts[1..], end - 1);
        assert parts[..end][1..] == parts[1..][..end - 1];
        var front := parts[0] + "/";
        var part := Join(parts[1..][..end - 1]);
        assert Join(parts) == front + tail && Join(parts[..end]) == front + part;
        if |part| < |tail| { assert (front + tail)[|front| + |part|] == tail[|part|]; }
      }
    } else {
      assert parts[..end] == parts;
    }
  }

  lemma {:induction false} JoinSplit(s: string)
    ensures Join(Split(s)) == s
  {
    if s != [] {
      JoinSplit(s[1..]);
      var rest := Split(s[1..]);
      if s[0] == '/' {
        assert Split(s)[1..] == rest;
        assert [] + "/" + s[1..] == s;
      } else {
        assert Split(s)[1..] == rest[1..];
        if |rest| == 1 {
          assert [s[0]] + rest[0] == s;
        } else {
          assert [s[0]] + rest[0] + "/" + Join(rest[1..]) == [s[0]] + (rest[0] + "/" + Join(rest[1..]));
        }
      }
    }
  }

  /** What is within a directory, seen from anywhere, is under it. */
  lemma WithinIsUnder(k: Classes, path: string, end: nat, text: string)
    requires 0 < end <= |Split(path)| && Resolved(text) && MatchesGlob(k, Join(Split(path)[..end]), text)
    ensures text == "/" || IsUnder(k, path, text)
    ensures text == "/" ==> path != [] && path[0] == '/'
  {
    hide Split, Join, Trimmed, Tokens, Match;
    JoinSplit(path);
    JoinedPrefix(Split(path), end);
    var part := Join(Split(path)[..end]);
    TrimmedResolved(text);
    if text == "/" {
      PlainMatchesItself(k, text, part);
    } else {
      assert path[..|part|] == part;
    }
  }

  lemma {:induction false} SiblingsListed(table: seq<(string, seq<string>)>, name: string)
    ensures Siblings(table, name) == [] || (name, Siblings(table, name)) in table
    decreases table
  {
    if table != [] && Last(table).0 != name {
      SiblingsListed(Init(table), name);
      assert forall e :: e in Init(table) ==> e in table;
    }
  }

  lemma SparedToo(a: seq<(string, seq<string>)>, b: seq<(string, seq<string>)>, facts: Facts, fact: PathFact)
    requires forall i :: 0 <= i < |b| ==> Among(b[i].1, Siblings(a, b[i].0))
    requires SparedBeside(facts, fact, b)
    ensures SparedBeside(facts, fact, a)
  {
    var parts := Split(fact.path);
    var end :| Shared(parts, Split(facts.cwd)) <= end < |parts| &&
               SparedAt(facts, fact, Siblings(b, parts[end]), Join(parts[..end]));
    var mine, parent := Siblings(b, parts[end]), Join(parts[..end]);
    var i :| 0 <= i < |mine| && AlsoTouched(facts, fact, parent + "/" + mine[i]);
    SiblingsListed(b, parts[end]);
    var n :| 0 <= n < |b| && b[n] == (parts[end], mine);
    var theirs := Siblings(a, parts[end]);
    assert Among(b[n].1, theirs) && mine[i] in theirs;
    var m :| 0 <= m < |theirs| && theirs[m] == mine[i];
    assert AlsoTouched(facts, fact, parent + "/" + theirs[m]);
  }

  /** When lint finds the pattern inside one of the others, it can be believed for one of them. */
  ghost predicate RightlyInside(k: Classes, inner: Pattern, outers: seq<Pattern>) {
    InsideOne(k, inner, outers) ==>
      exists i :: 0 <= i < |outers| && DirectoryInside(k, inner, outers[i]) && Comparable(k, inner, outers[i])
  }

  /** Where the claims of `PathImplies` rest on `directory_inside`, it can be believed. */
  ghost predicate Believable(k: Classes, a: PathPred, b: PathPred) {
    (forall p :: p in a.under + a.glob ==> RightlyInside(k, p, b.under)) &&
    (forall p :: p in b.notUnder + b.notWithin ==> RightlyInside(k, p, a.notUnder))
  }

  lemma InsideOneUnder(k: Classes, inner: Pattern, outers: seq<Pattern>, path: string)
    requires InsideOne(k, inner, outers) && IsUnder(k, path, inner.text) && Literal(path)
    requires RightlyInside(k, inner, outers)
    ensures exists i :: 0 <= i < |outers| && IsUnder(k, path, outers[i].text)
  {
    var i :| 0 <= i < |outers| && DirectoryInside(k, inner, outers[i]) && Comparable(k, inner, outers[i]);
    InsideIsUnder(k, inner, outers[i], path);
  }

  lemma MayMatchLiteral(k: Classes, path: string, pattern: string)
    requires Literal(path)
    ensures MayMatch(k, path, pattern) == MatchesGlob(k, path, pattern)
  {
    NameIn(path);
  }

  lemma {:induction false} NameIn(path: string)
    ensures forall c :: c in Name(path) ==> c in path
    decreases |path|
  {
    if path != [] && Last(path) != '/' {
      NameIn(Init(path));
      assert forall c :: c in Init(path) ==> c in path;
    }
  }

  lemma UnderImplied(k: Classes, a: PathPred, b: PathPred, facts: Facts, fact: PathFact)
    requires PathImplies(k, a, b) && Believable(k, a, b) && Literal(fact.path) && PathMatches(k, a, facts, fact)
    requires b.under != []
    ensures exists i :: 0 <= i < |b.under| && IsUnder(k, fact.path, b.under[i].text)
  {
    if GroupInside(k, a.under, b.under) {
      var i :| 0 <= i < |a.under| && IsUnder(k, fact.path, a.under[i].text);
      assert a.under[i] in a.under + a.glob;
      InsideOneUnder(k, a.under[i], b.under, fact.path);
    } else {
      var i :| 0 <= i < |a.glob| && MayMatch(k, fact.path, a.glob[i].text);
      assert a.glob[i] in a.under + a.glob;
      MayMatchLiteral(k, fact.path, a.glob[i].text);
      assert InsideOne(k, a.glob[i], b.under) && RightlyInside(k, a.glob[i], b.under);
      MatchIsUnder(k, fact.path, a.glob[i].text);
      InsideOneUnder(k, a.glob[i], b.under, fact.path);
    }
  }

  lemma NotUnderImplied(k: Classes, a: PathPred, b: PathPred, facts: Facts, fact: PathFact)
    requires PathImplies(k, a, b) && Believable(k, a, b) && Literal(fact.path) && PathMatches(k, a, facts, fact)
    ensures !UnderOne(k, fact.path, b.notUnder)
  {
    forall i | 0 <= i < |b.notUnder| ensures !IsUnder(k, fact.path, b.notUnder[i].text) {
      if IsUnder(k, fact.path, b.notUnder[i].text) {
        assert b.notUnder[i] in b.notUnder + b.notWithin;
        InsideOneUnder(k, b.notUnder[i], a.notUnder, fact.path);
        assert false;
      }
    }
  }

  /** The part of a path that lies in a spared directory, if it does. */
  predicate WithinAt(k: Classes, path: string, cwd: string, text: string, end: nat) {
    var parts := Split(path);
    Shared(parts, Split(cwd)) < end <= |parts| && MatchesGlob(k, Join(parts[..end]), text)
  }

  lemma WithinListed(k: Classes, path: string, cwd: string, p: Pattern, patterns: seq<Pattern>, end: nat)
    requires Listed(p, patterns) && WithinAt(k, path, cwd, p.text, end) && Located(path)
    ensures Within(k, path, cwd, patterns)
  {
    var m :| 0 <= m < |patterns| && patterns[m].comparable && patterns[m].text == p.text;
    assert MatchesGlob(k, Join(Split(path)[..end]), patterns[m].text);
  }

  lemma WithinInside(k: Classes, path: string, cwd: string, p: Pattern, patterns: seq<Pattern>, end: nat)
    requires InsideOne(k, p, patterns) && WithinAt(k, path, cwd, p.text, end) && Literal(path)
    requires RightlyInside(k, p, patterns)
    ensures UnderOne(k, path, patterns)
  {
    var j :| 0 <= j < |patterns| && DirectoryInside(k, p, patterns[j]) && Comparable(k, p, patterns[j]);
    WithinIsUnder(k, path, end, p.text);
    if p.text == "/" { UnderLiteral(k, path, "/"); }
    InsideOneUnder(k, p, patterns, path);
  }

  lemma NotWithinImplied(k: Classes, a: PathPred, b: PathPred, facts: Facts, fact: PathFact)
    requires PathImplies(k, a, b) && Believable(k, a, b) && Literal(fact.path) && PathMatches(k, a, facts, fact)
    ensures !Within(k, fact.path, facts.cwd, b.notWithin)
  {
    hide DirectoryInside, MatchesGlob, IsUnder, SparedBeside, MayMatch, Comparable, RightlyInside, InsideOne;
    forall end, i |
      0 <= i < |b.notWithin| && WithinAt(k, fact.path, facts.cwd, b.notWithin[i].text, end)
      ensures false
    {
      var p := b.notWithin[i];
      assert p in b.notUnder + b.notWithin;
      if Listed(p, a.notWithin) {
        WithinListed(k, fact.path, facts.cwd, p, a.notWithin, end);
      } else {
        WithinInside(k, fact.path, facts.cwd, p, a.notUnder, end);
      }
    }
    if Within(k, fact.path, facts.cwd, b.notWithin) {
      WithinSomewhere(k, fact.path, facts.cwd, b.notWithin);
    }
  }

  lemma WithinSomewhere(k: Classes, path: string, cwd: string, patterns: seq<Pattern>)
    requires Within(k, path, cwd, patterns)
    ensures exists end, i :: 0 <= i < |patterns| && WithinAt(k, path, cwd, patterns[i].text, end)
  {
    var end, i :|
      Shared(Split(path), Split(cwd)) < end <= |Split(path)| && 0 <= i < |patterns| &&
      MatchesGlob(k, Join(Split(path)[..end]), patterns[i].text);
    assert WithinAt(k, path, cwd, patterns[i].text, end);
  }

  lemma GlobsImplied(k: Classes, a: PathPred, b: PathPred, facts: Facts, fact: PathFact)
    requires PathImplies(k, a, b) && Literal(fact.path) && PathMatches(k, a, facts, fact)
    ensures forall i :: 0 <= i < |b.notGlob| ==> !MatchesGlob(k, fact.path, b.notGlob[i].text)
    ensures b.glob != [] ==> exists i :: 0 <= i < |b.glob| && MayMatch(k, fact.path, b.glob[i].text)
  {
    forall i | 0 <= i < |b.notGlob| ensures !MatchesGlob(k, fact.path, b.notGlob[i].text) {
      assert Listed(b.notGlob[i], a.notGlob);
    }
    if b.glob != [] {
      var i :| 0 <= i < |a.glob| && MayMatch(k, fact.path, a.glob[i].text);
      assert Listed(a.glob[i], b.glob);
    }
  }

  /**
    `path_implies` is sound: every path without wildcards or variables that satisfies `a`
    satisfies `b`, through every field of the two predicates.
   */
  lemma PathImpliesIsSound(k: Classes, a: PathPred, b: PathPred, facts: Facts, fact: PathFact)
    requires PathImplies(k, a, b) && Believable(k, a, b) && Literal(fact.path)
    requires PathMatches(k, a, facts, fact)
    ensures PathMatches(k, b, facts, fact)
  {
    if b.under != [] { UnderImplied(k, a, b, facts, fact); }
    NotUnderImplied(k, a, b, facts, fact);
    NotWithinImplied(k, a, b, facts, fact);
    if SparedBeside(facts, fact, b.sparedBeside) { SparedToo(a.sparedBeside, b.sparedBeside, facts, fact); }
    GlobsImplied(k, a, b, facts, fact);
  }

  /** Classes of one letter: "[!a]" is everything but "a". */
  function NotA(): Classes { Classes(_ => true, (_, c) => c != 'a') }

  lemma NotATokens()
    ensures Tokens(NotA(), Trimmed("**/[!a]")) == [Deep, Class("!a")]
  {
    var k, text := NotA(), "[!a]";
    TrimmedResolved("**/[!a]");
    assert "**/[!a]"[3..] == text && First(k, "**/[!a]") == (Deep, 3);
    assert Find(text, ']', 2) == Some(3) && text[1..3] == "!a";
    assert Bracket(k, text) && First(k, text) == (Class("!a"), 4);
    assert text[4..] == [] && Tokens(k, []) == [];
    assert Tokens(k, text) == [Class("!a")];
  }

  // The family is not empty: "/" is inside "**/[!a]" for lint, and "/bc" is not under it.
  lemma RootInsideSlashClass() returns (inner: Pattern, outer: Pattern)
    ensures DirectoryInside(NotA(), inner, outer) && Resolved(inner.text) && Resolved(outer.text)
    ensures !Comparable(NotA(), inner, outer)
  {
    hide Tokens, Trimmed, Match;
    var k, root := NotA(), "/";
    inner, outer := Pattern("/", true), Pattern("**/[!a]", true);
    NotATokens();
    var tokens := [Deep, Class("!a")];
    assert Init(tokens) == [Deep] && tokens[1..] == [Class("!a")];
    ClassTakesOne(k, "!a", root);
    assert root[0..] == root && root[..1] == root;
    FirstTakes(k, tokens, root, 0);
    assert IsUnder(k, root, outer.text);
  }
}
