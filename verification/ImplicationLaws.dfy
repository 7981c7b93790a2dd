/**
  What lint is bound to see (`path_implies`, `command_implies` and `directory_inside` in
  ember_armor/ledger/implies.py): a predicate with conditions left out, alternatives added and
  exceptions dropped is implied, and so is a place within another.
 */
module ImplicationLaws {
  import opened Prelude
  import opened Globs
  import C = CommandRules
  import P = PathRules
  import opened Views

  // ---- directories ---------------------------------------------------------------------------------

  predicate Plain(p: P.Pattern) { p.comparable && P.Literal(p.text) && P.Resolved(p.text) }

  lemma TrimmedPlain(p: P.Pattern)
    requires Plain(p)
    ensures !Wild(Trimmed(p.text))
    ensures Trimmed(p.text) == p.text || (p.text == "/" && Trimmed(p.text) == "")
  {
    if p.text == "/" {
      assert Init("/") == "" && Trimmed("") == "";
    }
  }

  /** A directory without wildcards lies in another one exactly when it matches it or is below a match. */
  lemma PlainInsideExactly(k: Classes, inner: P.Pattern, outer: P.Pattern)
    requires Plain(inner) && outer.comparable
    ensures P.DirectoryInside(k, inner, outer) <==> IsUnder(k, inner.text, outer.text)
  {
    assert inner.text[0] in inner.text;
    if inner.text == outer.text {
      TrimmedPlain(inner);
      var j := |Trimmed(inner.text)|;
      PlainMatchesItself(k, Trimmed(inner.text), inner.text[..j]);
      assert Edge(inner.text, j);
    }
  }

  /** So does any pattern that begins with "**" in another one, for what stands behind the "**". */
  lemma AnywhereInsideExactly(k: Classes, text: string, outer: P.Pattern)
    requires !Wild(text) && outer.comparable && P.Anywhere(outer.text)
    ensures P.DirectoryInside(k, P.Pattern("**/" + text, true), outer) <==>
            "**/" + text == outer.text || IsUnder(k, text, outer.text)
  {
    assert ("**/" + text)[3..] == text;
  }

  /** Pattern `p` is one of these, or a plain directory that lies in one of these. */
  predicate LiesIn(k: Classes, p: P.Pattern, outers: seq<P.Pattern>) {
    exists i :: 0 <= i < |outers| && outers[i].comparable &&
      ((p.comparable && p.text == outers[i].text) || (Plain(p) && IsUnder(k, p.text, outers[i].text)))
  }

  lemma LyingIsInside(k: Classes, p: P.Pattern, outers: seq<P.Pattern>)
    requires LiesIn(k, p, outers)
    ensures P.InsideOne(k, p, outers)
  {
    hide P.Resolved, P.Literal, IsUnder;
    var i :| 0 <= i < |outers| && outers[i].comparable &&
      ((p.comparable && p.text == outers[i].text) || (Plain(p) && IsUnder(k, p.text, outers[i].text)));
    if p.text != outers[i].text { PlainInsideExactly(k, p, outers[i]); }
    assert P.DirectoryInside(k, p, outers[i]);
  }

  // ---- paths ---------------------------------------------------------------------------------------

  predicate AllLieIn(k: Classes, patterns: seq<P.Pattern>, outers: seq<P.Pattern>) {
    forall i :: 0 <= i < |patterns| ==> LiesIn(k, patterns[i], outers)
  }

  predicate AllListed(patterns: seq<P.Pattern>, others: seq<P.Pattern>) {
    forall i :: 0 <= i < |patterns| ==> patterns[i].comparable && patterns[i] in others
  }

  /** `b` asks for no more than `a` does, and excepts no more. */
  predicate PathRelaxed(k: Classes, a: P.PathPred, b: P.PathPred) {
    b.op in {None, a.op} && b.recursive in {None, a.recursive} &&
    (b.under == [] || (a.under != [] && AllLieIn(k, a.under, b.under)) ||
     (a.glob != [] && AllLieIn(k, a.glob, b.under))) &&
    (b.glob == [] || (a.glob != [] && AllListed(a.glob, b.glob))) &&
    AllLieIn(k, b.notUnder, a.notUnder) && AllListed(b.notGlob, a.notGlob) &&
    (AllListed(b.notWithin, a.notWithin) || AllLieIn(k, b.notWithin, a.notUnder)) &&
    forall i :: 0 <= i < |b.sparedBeside| ==>
      forall name :: name in b.sparedBeside[i].1 ==> name in P.Siblings(a.sparedBeside, b.sparedBeside[i].0)
  }

  lemma AllInside(k: Classes, patterns: seq<P.Pattern>, outers: seq<P.Pattern>)
    requires AllLieIn(k, patterns, outers)
    ensures forall i :: 0 <= i < |patterns| ==> P.InsideOne(k, patterns[i], outers)
  {
    hide LiesIn, P.InsideOne;
    forall i | 0 <= i < |patterns| ensures P.InsideOne(k, patterns[i], outers) {
      LyingIsInside(k, patterns[i], outers);
    }
  }

  lemma ListedIsListed(p: P.Pattern, patterns: seq<P.Pattern>)
    requires p.comparable && p in patterns
    ensures P.Listed(p, patterns)
  {
    var i :| 0 <= i < |patterns| && patterns[i] == p;
  }

  /** Lint sees that a relaxed path predicate is implied. */
  lemma RelaxedPathsAreImplied(k: Classes, a: P.PathPred, b: P.PathPred)
    requires PathRelaxed(k, a, b)
    ensures P.PathImplies(k, a, b)
  {
    if b.under != [] {
      if a.under != [] && AllLieIn(k, a.under, b.under) {
        AllInside(k, a.under, b.under);
      } else {
        AllInside(k, a.glob, b.under);
      }
    }
    AllInside(k, b.notUnder, a.notUnder);
    if !AllListed(b.notWithin, a.notWithin) { AllInside(k, b.notWithin, a.notUnder); }
    hide LiesIn, P.InsideOne;
    forall p: P.Pattern, patterns | p.comparable && p in patterns ensures P.Listed(p, patterns) {
      ListedIsListed(p, patterns);
    }
    hide P.Listed;
  }

  // ---- commands ------------------------------------------------------------------------------------

  predicate Within(names: seq<string>, others: seq<string>) { forall name :: name in names ==> name in others }

  /** The same names, in another case when case does not count. */
  predicate SameNames(t: C.Texts, names: seq<string>, others: seq<string>, fold: bool) {
    if fold then
      forall i :: 0 <= i < |names| ==> exists j :: 0 <= j < |others| && t.lower(names[i]) == t.lower(others[j])
    else Within(names, others)
  }

  /** A command predicate for another shell than Bash does not look at case. */
  predicate Caseless(a: C.CommandPred) { a.shell.Some? && !a.shell.value.Bash? }

  /** One of the alternatives is certain. */
  predicate Covered(flags: seq<string>, a: C.CommandPred) {
    (a.flagsAny != [] && Within(a.flagsAny, flags)) || exists flag :: flag in a.flagsAll && flag in flags
  }

  /** Everything `b` asks for is asked for by `a`. */
  predicate CommandRelaxed(t: C.Texts, a: C.CommandPred, b: C.CommandPred) {
    b.shell in {None, a.shell} &&
    (b.program == [] || (a.program != [] && SameNames(t, a.program, b.program, Caseless(a)))) &&
    b.subcommand <= a.subcommand &&
    (b.flagsAny == [] || Covered(b.flagsAny, a)) &&
    (forall flag :: flag in b.flagsAll ==> flag in a.flagsAll || a.flagsAny == [flag]) &&
    Within(b.flagsNone, a.flagsNone) &&
    (b.argsNoneGlob == [] || (a.subcommand == b.subcommand && Within(b.argsNoneGlob, a.argsNoneGlob))) &&
    (b.argsRegex.None? || (a.subcommand == b.subcommand && a.argsRegex == b.argsRegex)) &&
    (b.argsAnyGlob == [] || (a.argsAnyGlob != [] && Within(a.argsAnyGlob, b.argsAnyGlob)))
  }

  lemma WithinIsSubset(names: seq<string>, others: seq<string>)
    ensures Within(names, others) ==> C.Subset(names, others)
  {
  }

  lemma SameIsWithin(t: C.Texts, names: seq<string>, others: seq<string>, fold: bool)
    requires SameNames(t, names, others, fold)
    ensures C.NamesWithin(t, names, others, fold)
  {
    if fold {
      var (a, b) := (C.Lowered(t, names), C.Lowered(t, others));
      forall i | 0 <= i < |a| ensures a[i] in b {
        var j :| 0 <= j < |others| && t.lower(names[i]) == t.lower(others[j]);
        assert b[j] == a[i];
      }
    }
  }

  /** Lint sees that a relaxed command predicate is implied. */
  lemma RelaxedCommandsAreImplied(t: C.Texts, a: C.CommandPred, b: C.CommandPred)
    requires CommandRelaxed(t, a, b)
    ensures C.CommandImplies(t, a, b)
  {
    if b.program != [] { SameIsWithin(t, a.program, b.program, Caseless(a)); }
    assert forall i :: 0 <= i < |b.subcommand| ==> a.subcommand[i] == b.subcommand[i];
    if b.flagsAny != [] && !(a.flagsAny != [] && Within(a.flagsAny, b.flagsAny)) {
      var flag :| flag in a.flagsAll && flag in b.flagsAny;
      var i :| 0 <= i < |a.flagsAll| && a.flagsAll[i] == flag;
    }
    hide SameNames, C.Lowered;
  }

  // ---- scopes ----------------------------------------------------------------------------------------

  /** `wide` is everything, the same scope, or one whose parts hold those of `narrow`. */
  predicate ScopeRelaxed(k: Classes, narrow: Option<Area>, wide: Option<Area>) {
    wide.None? || wide == narrow ||
    (narrow.Some? &&
     (wide.value.under == [] || (narrow.value.under != [] && AllLieIn(k, narrow.value.under, wide.value.under))) &&
     AllLieIn(k, wide.value.excluded, narrow.value.excluded) &&
     (wide.value.roots == [] || (narrow.value.roots != [] && AllListed(narrow.value.roots, wide.value.roots))))
  }

  lemma RelaxedScopesSeeMore(k: Classes, narrow: Option<Area>, wide: Option<Area>)
    requires ScopeRelaxed(k, narrow, wide)
    ensures SeesLess(k, narrow, wide)
  {
    if wide.Some? && narrow.Some? && wide != narrow {
      var (a, b) := (narrow.value, wide.value);
      if b.under != [] { AllInside(k, a.under, b.under); }
      AllInside(k, b.excluded, a.excluded);
      hide LiesIn, P.InsideOne;
      forall p: P.Pattern, patterns | p.comparable && p in patterns ensures P.Listed(p, patterns) {
        ListedIsListed(p, patterns);
      }
    }
  }
}
