/**
  What the axioms of lint (`_Model` in ember_armor/ledger/lint.py) come to, neither more nor
  less, and the findings that follow from them.
 */
module LintFinds {
  import opened Prelude
  import opened Arguments
  import opened Views
  import opened Lint
  import opened LintModel
  import opened Findings
  import opened LintLimits
  import C = CommandRules
  import P = PathRules

  // ---- what one axiom says -------------------------------------------------------------------------

  predicate Follows(v: Valuation, a: Atom, b: Atom) { v.truth(a) ==> v.truth(b) }

  predicate Apart(v: Valuation, a: Atom, b: Atom) { !v.truth(a) || !v.truth(b) }

  /** What is true of two entries of one table. */
  predicate PairObeyed(w: World, t: Tables, v: Valuation, side: Pair, i: nat, j: nat)
    requires i < Count(t, side) && j < Count(t, side)
  {
    match side
    case Areas =>
      SeesLess(w.classes, Some(t.areas[i]), Some(t.areas[j])) ==> Follows(v, AreaAtom(i), AreaAtom(j))
    case Tools =>
      !Wildcarded(t.tools[i]) ==>
        if w.texts.fnmatch(t.tools[i], t.tools[j]) then Follows(v, ToolAtom(i), ToolAtom(j))
        else Apart(v, ToolAtom(i), ToolAtom(j))
    case Constants =>
      t.equals[i].0 == t.equals[j].0 && !Same(t.equals[i].1, t.equals[j].1) ==> Apart(v, EqualAtom(i), EqualAtom(j))
    case Commands =>
      SameCommands(w, t.commands[i].0, t.commands[j].0) && SeesLess(w.classes, t.commands[i].1, t.commands[j].1) ==>
        Follows(v, CommandAtom(i), CommandAtom(j))
    case Paths =>
      SamePaths(w, t.paths[i].0, t.paths[j].0) && SeesLess(w.classes, t.paths[i].1, t.paths[j].1) ==>
        Follows(v, PathAtom(i), PathAtom(j))
    case Directories =>
      P.DirectoryInside(w.classes, t.directories[i], t.directories[j]) ==>
        Follows(v, DirectoryAtom(i), DirectoryAtom(j))
  }

  /** The tool of the call can carry commands. */
  predicate IsShell(w: World, t: Tables, v: Valuation) {
    v.truth(Another) || exists i :: 0 <= i < |t.tools| && CarriesShell(w, t.tools[i]) && v.truth(ToolAtom(i))
  }

  /** File tool `i`; they are numbered behind the shell tools. */
  predicate Is(v: Valuation, i: nat) { v.truth(ToolAtom(|SHELL_TOOLS| + i)) }

  predicate IsFileTool(v: Valuation) { exists i: nat :: i < |FILE_TOOLS| && Is(v, i) }

  predicate OneOf(names: seq<P.Pattern>, table: seq<P.Pattern>, atom: nat -> Atom, v: Valuation) {
    names == [] || exists i :: 0 <= i < |names| && names[i] in table && v.truth(atom(Number(table, names[i])))
  }

  /** What is true of one entry. */
  predicate SingleObeyed(w: World, t: Tables, v: Valuation, side: Single, i: nat)
    requires i < Size(t, side)
  {
    match side
    case Parts =>
      v.truth(AreaAtom(i)) ==>
        OneOf(t.areas[i].under, t.directories, (n: nat) => DirectoryAtom(n), v) &&
        OneOf(t.areas[i].roots, t.roots, (n: nat) => RootAtom(n), v)
    case AnyTools => Stars(t.tools[i]) ==> v.truth(ToolAtom(i))
    case NamedTools => !Wildcarded(t.tools[i]) ==> Apart(v, Another, ToolAtom(i))
    case CommandCarriers => v.truth(CommandAtom(i)) ==> IsShell(w, t, v)
    case KindCarriers => v.truth(KindAtom(DYNAMIC_KINDS[i])) ==> IsShell(w, t, v)
    case PathCarriers => v.truth(PathAtom(i)) ==> IsShell(w, t, v) || IsFileTool(v)
    case Equalities =>
      v.truth(EqualAtom(i)) ==>
        v.truth(Present(t.equals[i].0)) &&
        (t.equals[i].1.Num? && v.truth(Numeric(t.equals[i].0)) ==> v.number(t.equals[i].0) == t.equals[i].1.r)
    case NumericNames => Follows(v, Numeric(t.names[i]), Present(t.names[i]))
  }

  lemma LeadsExactly(yes: bool, a: Atom, b: Atom, v: Valuation)
    ensures AllTrue(Leads(yes, a, b), v) <==> (yes ==> Follows(v, a, b))
  {
    if yes { OneTrue(Implies(Var(a), Var(b)), v); } else { NothingToHold(v); }
  }

  lemma ExcludesExactly(yes: bool, a: Atom, b: Atom, v: Valuation)
    ensures AllTrue(Excludes(yes, a, b), v) <==> (yes ==> Apart(v, a, b))
  {
    if yes {
      OneTrue(Not(And([Var(a), Var(b)])), v);
      TwoTrue(Var(a), Var(b), v);
    } else {
      NothingToHold(v);
    }
  }

  lemma PairExactly(w: World, t: Tables, v: Valuation, side: Pair, i: nat, j: nat)
    requires i < Count(t, side) && j < Count(t, side)
    ensures AllTrue(PairAxiom(w, t, side, i, j), v) <==> PairObeyed(w, t, v, side, i, j)
  {
    hide AllTrue, Leads, Excludes, SeesLess, SameCommands, SamePaths, P.DirectoryInside, Same;
    NothingToHold(v);
    forall yes, a, b
      ensures AllTrue(Leads(yes, a, b), v) <==> (yes ==> Follows(v, a, b))
      ensures AllTrue(Excludes(yes, a, b), v) <==> (yes ==> Apart(v, a, b))
    {
      LeadsExactly(yes, a, b, v);
      ExcludesExactly(yes, a, b, v);
    }
  }

  lemma ShellExactly(w: World, t: Tables, v: Valuation)
    ensures True(ShellTerm(w, t), v) <==> IsShell(w, t, v)
  {
    hide CarriesShell, CarrierTerms;
    var terms := CarrierTerms(w, t.tools) + [Var(Another)];
    if v.truth(Another) { MemberTrue(terms, Var(Another), v); }
    if i :| 0 <= i < |t.tools| && CarriesShell(w, t.tools[i]) && v.truth(ToolAtom(i)) {
      CarrierThere(w, t.tools, i);
      MemberTrue(terms, Var(ToolAtom(i)), v);
    }
    if k :| 0 <= k < |terms| && True(terms[k], v) {
      if k < |terms| - 1 { CarrierIs(w, t.tools, terms[k]); }
    }
  }

  lemma FileExactly(w: World, t: Tables, v: Valuation)
    requires Opened(t)
    ensures True(FileTerm(w, t), v) <==> IsShell(w, t, v) || IsFileTool(v)
  {
    ShellExactly(w, t, v);
    hide ShellTerm, IsShell;
    var terms := FileTerm(w, t).terms;
    assert terms[0] == ShellTerm(w, t);
    assert |terms| == |FILE_TOOLS| + 1;
    assert forall k :: 0 < k < |terms| ==> terms[k] == Var(ToolAtom(|SHELL_TOOLS| + (k - 1)));
    if i: nat :| i < |FILE_TOOLS| && Is(v, i) { assert True(terms[i + 1], v); }
    if k :| 0 <= k < |terms| && True(terms[k], v) {
      if k > 0 { assert Is(v, k - 1); }
    }
  }

  lemma PartsExactly(w: World, t: Tables, v: Valuation, i: nat)
    requires Split(t) && i < |t.areas|
    ensures AllTrue(PartTerms(t, i), v) <==>
            (v.truth(AreaAtom(i)) ==>
               OneOf(t.areas[i].under, t.directories, (n: nat) => DirectoryAtom(n), v) &&
               OneOf(t.areas[i].roots, t.roots, (n: nat) => RootAtom(n), v))
  {
    var area := t.areas[i];
    var (a, b) := (DirectoryTerms(t, area.under), RootTerms(t, area.roots));
    OrExactly(area.under, t.directories, (n: nat) => DirectoryAtom(n), a, v);
    OrExactly(area.roots, t.roots, (n: nat) => RootAtom(n), b, v);
    hide DirectoryTerms, RootTerms, OneOf, AllTrue;
    NothingToHold(v);
    OneTrue(Implies(Var(AreaAtom(i)), Or(a)), v);
    OneTrue(Implies(Var(AreaAtom(i)), Or(b)), v);
    TrueJoin(if area.under == [] then [] else [Implies(Var(AreaAtom(i)), Or(a))],
             if area.roots == [] then [] else [Implies(Var(AreaAtom(i)), Or(b))], v);
    assert area.under == [] ==> OneOf(area.under, t.directories, (n: nat) => DirectoryAtom(n), v) by { NoneToBe(v); }
    assert area.roots == [] ==> OneOf(area.roots, t.roots, (n: nat) => RootAtom(n), v) by { NoneToBe(v); }
  }

  lemma NoneToBe(v: Valuation) ensures forall table, atom :: OneOf([], table, atom, v) {}

  lemma OrExactly(names: seq<P.Pattern>, table: seq<P.Pattern>, atom: nat -> Atom, terms: seq<Term>, v: Valuation)
    requires EachIn(names, table) && |terms| == |names|
    requires forall k :: 0 <= k < |names| ==> terms[k] == Var(atom(Number(table, names[k])))
    ensures names != [] ==> (True(Or(terms), v) <==> OneOf(names, table, atom, v))
  {
    if k :| 0 <= k < |terms| && True(terms[k], v) {
      assert names[k] in table && v.truth(atom(Number(table, names[k])));
    }
    if k :| 0 <= k < |names| && names[k] in table && v.truth(atom(Number(table, names[k]))) {
      assert True(terms[k], v);
    }
  }

  lemma EqualityExactly(w: World, t: Tables, v: Valuation, i: nat)
    requires i < |t.equals|
    ensures AllTrue(EqualityTerms(t, i), v) <==> SingleObeyed(w, t, v, Equalities, i)
  {
    var (name, constant) := t.equals[i];
    var first := Implies(Var(EqualAtom(i)), Var(Present(name)));
    OneTrue(first, v);
    NothingToHold(v);
    if constant.Num? {
      var both := And([Var(EqualAtom(i)), Var(Numeric(name))]);
      var second := Implies(both, Compare([Addend(1.0, name)], Equal, constant.r));
      TwoTrue(Var(EqualAtom(i)), Var(Numeric(name)), v);
      ComparedAlone(v, name, Equal, constant.r);
      OneTrue(second, v);
      TrueJoin([first], [second], v);
    } else {
      TrueJoin([first], [], v);
    }
  }

  lemma SingleExactly(w: World, t: Tables, v: Valuation, side: Single, i: nat)
    requires Opened(t) && Split(t) && i < Size(t, side)
    ensures AllTrue(SingleAxiom(w, t, side, i), v) <==> SingleObeyed(w, t, v, side, i)
  {
    hide AllTrue, ShellTerm, FileTerm, IsShell, IsFileTool, PartTerms, OneOf, Opened, Split;
    NothingToHold(v);
    match side
    case Parts => PartsExactly(w, t, v, i);
    case AnyTools => OneTrue(Var(ToolAtom(i)), v);
    case NamedTools => ExcludesExactly(!Wildcarded(t.tools[i]), Another, ToolAtom(i), v);
    case CommandCarriers =>
      ShellExactly(w, t, v);
      OneTrue(Implies(Var(CommandAtom(i)), ShellTerm(w, t)), v);
    case KindCarriers =>
      ShellExactly(w, t, v);
      OneTrue(Implies(Var(KindAtom(DYNAMIC_KINDS[i])), ShellTerm(w, t)), v);
    case PathCarriers =>
      FileExactly(w, t, v);
      OneTrue(Implies(Var(PathAtom(i)), FileTerm(w, t)), v);
    case Equalities => EqualityExactly(w, t, v, i);
    case NumericNames => LeadsExactly(true, Numeric(t.names[i]), Present(t.names[i]), v);
  }

  // ---- all of them -------------------------------------------------------------------------------------

  lemma {:induction false} RowExactly(w: World, t: Tables, v: Valuation, side: Pair, i: nat, n: nat)
    requires i < Count(t, side) && n <= Count(t, side)
    ensures AllTrue(PairRow(w, t, side, i, n), v) <==>
            forall j: nat :: j < n && j != i ==> PairObeyed(w, t, v, side, i, j)
  {
    hide PairAxiom, PairObeyed, AllTrue;
    NothingToHold(v);
    if n > 0 {
      RowExactly(w, t, v, side, i, n - 1);
      PairExactly(w, t, v, side, i, n - 1);
      TrueJoin(PairRow(w, t, side, i, n - 1), if i == n - 1 then [] else PairAxiom(w, t, side, i, n - 1), v);
    }
  }

  lemma {:induction false} RowsExactly(w: World, t: Tables, v: Valuation, side: Pair, n: nat)
    requires n <= Count(t, side)
    ensures AllTrue(PairRows(w, t, side, n), v) <==>
            forall i: nat, j: nat :: i < n && j < Count(t, side) && j != i ==> PairObeyed(w, t, v, side, i, j)
  {
    hide PairAxiom, PairRow, PairObeyed, AllTrue;
    NothingToHold(v);
    if n > 0 {
      RowsExactly(w, t, v, side, n - 1);
      RowExactly(w, t, v, side, n - 1, Count(t, side));
      TrueJoin(PairRows(w, t, side, n - 1), PairRow(w, t, side, n - 1, Count(t, side)), v);
    }
  }

  lemma {:induction false} SinglesExactly(w: World, t: Tables, v: Valuation, side: Single, n: nat)
    requires Opened(t) && Split(t) && n <= Size(t, side)
    ensures AllTrue(SingleRows(w, t, side, n), v) <==> forall i: nat :: i < n ==> SingleObeyed(w, t, v, side, i)
  {
    hide SingleAxiom, SingleObeyed, AllTrue, Opened, Split;
    NothingToHold(v);
    if n > 0 {
      SinglesExactly(w, t, v, side, n - 1);
      SingleExactly(w, t, v, side, n - 1);
      TrueJoin(SingleRows(w, t, side, n - 1), SingleAxiom(w, t, side, n - 1), v);
    }
  }

  predicate PairsObeyed(w: World, t: Tables, v: Valuation, side: Pair) {
    forall i: nat, j: nat :: i < Count(t, side) && j < Count(t, side) && j != i ==> PairObeyed(w, t, v, side, i, j)
  }

  predicate SinglesObeyed(w: World, t: Tables, v: Valuation, side: Single) {
    forall i: nat :: i < Size(t, side) ==> SingleObeyed(w, t, v, side, i)
  }

  /** Every condition of every table, and no other tool when there is no list of carriers. */
  ghost predicate Obeyed(w: World, t: Tables, v: Valuation) {
    (forall side :: PairsObeyed(w, t, v, side)) && (forall side :: SinglesObeyed(w, t, v, side)) &&
    (w.carriers == [] ==> !v.truth(Another))
  }

  lemma UnnamedExactly(w: World, v: Valuation)
    ensures AllTrue(Unnamed(w), v) <==> (w.carriers == [] ==> !v.truth(Another))
  {
    NothingToHold(v);
    OneTrue(Not(Var(Another)), v);
  }

  /** A description satisfies the axioms of lint exactly when it obeys these conditions. */
  lemma AxiomsExactly(w: World, t: Tables, v: Valuation)
    requires Opened(t) && Split(t)
    ensures AllTrue(AllAxioms(w, t), v) <==> Obeyed(w, t, v)
  {
    forall side: Pair ensures AllTrue(Pairs(w, t, side), v) <==> PairsObeyed(w, t, v, side) {
      RowsExactly(w, t, v, side, Count(t, side));
    }
    forall side: Single ensures AllTrue(Singles(w, t, side), v) <==> SinglesObeyed(w, t, v, side) {
      SinglesExactly(w, t, v, side, Size(t, side));
    }
    UnnamedExactly(w, v);
    hide *;
    AllJoined(w, t, v);
  }

  lemma ThreeJoined(a: seq<Term>, b: seq<Term>, c: seq<Term>, v: Valuation)
    ensures AllTrue(a + b + c, v) <==> AllTrue(a, v) && AllTrue(b, v) && AllTrue(c, v)
  {
    hide AllTrue;
    TrueJoin(a + b, c, v);
    TrueJoin(a, b, v);
  }

  lemma ToolsJoined(w: World, t: Tables, v: Valuation)
    requires Opened(t) && Split(t)
    ensures AllTrue(ToolAxioms(w, t), v) <==>
            AllTrue(Singles(w, t, AnyTools), v) && AllTrue(Pairs(w, t, Tools), v) && AllTrue(Unnamed(w), v) &&
            AllTrue(Singles(w, t, NamedTools), v) && AllTrue(Singles(w, t, CommandCarriers), v) &&
            AllTrue(Singles(w, t, KindCarriers), v) && AllTrue(Singles(w, t, PathCarriers), v)
  {
    hide AllTrue, Pairs, Singles, Unnamed, Opened, Split;
    ThreeJoined(Singles(w, t, AnyTools), Pairs(w, t, Tools), Unnamed(w), v);
    var first := Singles(w, t, AnyTools) + Pairs(w, t, Tools) + Unnamed(w);
    ThreeJoined(first, Singles(w, t, NamedTools), Singles(w, t, CommandCarriers), v);
    ThreeJoined(first + Singles(w, t, NamedTools) + Singles(w, t, CommandCarriers), Singles(w, t, KindCarriers),
                Singles(w, t, PathCarriers), v);
  }

  lemma PartsJoined(w: World, t: Tables, v: Valuation)
    requires Opened(t) && Split(t)
    ensures AllTrue(AllAxioms(w, t), v) <==>
            AllTrue(AreaAxioms(w, t), v) && AllTrue(ToolAxioms(w, t), v) && AllTrue(ArgumentAxioms(w, t), v) &&
            AllTrue(Pairs(w, t, Commands), v) && AllTrue(Pairs(w, t, Paths), v) && AllTrue(Pairs(w, t, Directories), v)
  {
    hide AllTrue, Pairs, Opened, Split, AreaAxioms, ToolAxioms, ArgumentAxioms;
    var first := AreaAxioms(w, t) + ToolAxioms(w, t) + ArgumentAxioms(w, t);
    ThreeJoined(AreaAxioms(w, t), ToolAxioms(w, t), ArgumentAxioms(w, t), v);
    ThreeJoined(first + Pairs(w, t, Commands), Pairs(w, t, Paths), Pairs(w, t, Directories), v);
    TrueJoin(first, Pairs(w, t, Commands), v);
  }

  lemma SmallJoined(w: World, t: Tables, v: Valuation)
    requires Opened(t) && Split(t)
    ensures AllTrue(AreaAxioms(w, t), v) <==> AllTrue(Singles(w, t, Parts), v) && AllTrue(Pairs(w, t, Areas), v)
    ensures AllTrue(ArgumentAxioms(w, t), v) <==>
            AllTrue(Singles(w, t, Equalities), v) && AllTrue(Pairs(w, t, Constants), v) &&
            AllTrue(Singles(w, t, NumericNames), v)
  {
    hide AllTrue, Pairs, Singles, Opened, Split;
    TrueJoin(Singles(w, t, Parts), Pairs(w, t, Areas), v);
    ThreeJoined(Singles(w, t, Equalities), Pairs(w, t, Constants), Singles(w, t, NumericNames), v);
  }

  lemma AllJoined(w: World, t: Tables, v: Valuation)
    requires Opened(t) && Split(t)
    ensures AllTrue(AllAxioms(w, t), v) <==>
            (forall side :: AllTrue(Pairs(w, t, side), v)) && (forall side :: AllTrue(Singles(w, t, side), v)) &&
            AllTrue(Unnamed(w), v)
  {
    PartsJoined(w, t, v);
    SmallJoined(w, t, v);
    ToolsJoined(w, t, v);
    EachPair(w, t, v);
    EachSingle(w, t, v);
    hide *;
  }

  lemma EachPair(w: World, t: Tables, v: Valuation)
    ensures (forall side :: AllTrue(Pairs(w, t, side), v)) <==>
            AllTrue(Pairs(w, t, Areas), v) && AllTrue(Pairs(w, t, Tools), v) && AllTrue(Pairs(w, t, Constants), v) &&
            AllTrue(Pairs(w, t, Commands), v) && AllTrue(Pairs(w, t, Paths), v) && AllTrue(Pairs(w, t, Directories), v)
  {
    hide *;
    var six := AllTrue(Pairs(w, t, Areas), v) && AllTrue(Pairs(w, t, Tools), v) && AllTrue(Pairs(w, t, Constants), v) &&
      AllTrue(Pairs(w, t, Commands), v) && AllTrue(Pairs(w, t, Paths), v) && AllTrue(Pairs(w, t, Directories), v);
    forall side: Pair ensures six ==> AllTrue(Pairs(w, t, side), v) {
      match side
      case Areas => case Tools => case Constants => case Commands => case Paths => case Directories =>
    }
  }

  lemma EachSingle(w: World, t: Tables, v: Valuation)
    requires Opened(t) && Split(t)
    ensures (forall side :: AllTrue(Singles(w, t, side), v)) <==>
            AllTrue(Singles(w, t, Parts), v) && AllTrue(Singles(w, t, AnyTools), v) &&
            AllTrue(Singles(w, t, NamedTools), v) && AllTrue(Singles(w, t, CommandCarriers), v) &&
            AllTrue(Singles(w, t, KindCarriers), v) && AllTrue(Singles(w, t, PathCarriers), v) &&
            AllTrue(Singles(w, t, Equalities), v) && AllTrue(Singles(w, t, NumericNames), v)
  {
    hide *;
    var eight := AllTrue(Singles(w, t, Parts), v) && AllTrue(Singles(w, t, AnyTools), v) &&
      AllTrue(Singles(w, t, NamedTools), v) && AllTrue(Singles(w, t, CommandCarriers), v) &&
      AllTrue(Singles(w, t, KindCarriers), v) && AllTrue(Singles(w, t, PathCarriers), v) &&
      AllTrue(Singles(w, t, Equalities), v) && AllTrue(Singles(w, t, NumericNames), v);
    forall side: Single ensures eight ==> AllTrue(Singles(w, t, side), v) {
      match side
      case Parts => case AnyTools => case NamedTools => case CommandCarriers => case KindCarriers =>
      case PathCarriers => case Equalities => case NumericNames =>
    }
  }

  // ---- what is found --------------------------------------------------------------------------------------

  /** Lint reports exactly what these conditions rule out. */
  lemma FindingsExactly(w: World, t: Tables, a: Rule, b: Rule)
    requires Opened(t) && Split(t) && RuleKnown(t, a) && RuleKnown(t, b)
    ensures Dead(w, t, b) <==> forall v: Valuation :: Obeyed(w, t, v) ==> !True(CaseOf(t, b).applies, v)
    ensures CoversRule(w, t, a, b) <==>
            forall v: Valuation :: Obeyed(w, t, v) && True(CaseOf(t, b).applies, v) ==> True(CaseOf(t, a).applies, v)
  {
    var (x, y) := (CaseOf(t, a).applies, CaseOf(t, b).applies);
    var known := AllAxioms(w, t);
    hide CaseOf, AllAxioms, AllTrue, True, RuleKnown, Opened, Split, Obeyed;
    forall v: Valuation
      ensures AllTrue(known, v) <==> Obeyed(w, t, v)
      ensures AllTrue(known + [y], v) <==> AllTrue(known, v) && True(y, v)
      ensures AllTrue(known + [y, Not(x)], v) <==> AllTrue(known, v) && True(y, v) && !True(x, v)
    {
      AxiomsExactly(w, t, v);
      TrueJoin(known, [y], v);
      OneTrue(y, v);
      TrueJoin(known, [y, Not(x)], v);
      PairHolds(y, Not(x), v);
      NotTrue(x, v);
    }
  }

  function OneRule(tools: seq<string>, area: Area, when: Predicate): Rule { Rule(tools, area, when, false) }

  lemma OneRuleTerm(t: Tables, tools: seq<string>, area: Area, when: Predicate, v: Valuation)
    requires RuleKnown(t, OneRule(tools, area, when))
    ensures True(CaseOf(t, OneRule(tools, area, when)).applies, v) <==>
            True(ScopeTerm(t, tools, area), v) && True(Encoded(t, when, ViewOf(area)), v)
  {
    var (scope, fires) := (ScopeTerm(t, tools, area), Encoded(t, when, ViewOf(area)));
    hide True, Encoded, ScopeTerm;
    TwoTrue(scope, fires, v);
  }

  /** The area of one rule is that of the other, or everywhere. */
  predicate Reaches(wide: Area, narrow: Area) { wide == narrow || wide == EVERYWHERE }

  lemma ReachesMore(w: World, t: Tables, wide: Area, narrow: Area, v: Valuation)
    requires Reaches(wide, narrow) && ScopeKnown(t, [], wide) && ScopeKnown(t, [], narrow)
    ensures SeesLess(w.classes, ViewOf(narrow), ViewOf(wide))
    ensures True(ScopeTerm(t, [], narrow), v) ==> True(ScopeTerm(t, [], wide), v)
  {
    if wide == EVERYWHERE { EverywhereTrue(t, v); }
  }

  /** Every rule on a command that another such rule implies is found to be shadowed by it. */
  lemma ImpliedCommandsAreFound(w: World, t: Tables, p: C.CommandPred, q: C.CommandPred, narrow: Area, wide: Area)
    requires Opened(t) && Split(t) && SameCommands(w, p, q) && Reaches(wide, narrow)
    requires RuleKnown(t, OneRule([], narrow, OnCommand(p))) && RuleKnown(t, OneRule([], wide, OnCommand(q)))
    ensures CoversRule(w, t, OneRule([], wide, OnCommand(q)), OneRule([], narrow, OnCommand(p)))
  {
    var (a, b) := (OneRule([], wide, OnCommand(q)), OneRule([], narrow, OnCommand(p)));
    var (i, j) := (Number(t.commands, (p, ViewOf(narrow))), Number(t.commands, (q, ViewOf(wide))));
    forall v: Valuation | Obeyed(w, t, v) && True(CaseOf(t, b).applies, v) ensures True(CaseOf(t, a).applies, v) {
      OneRuleTerm(t, [], narrow, OnCommand(p), v);
      OneRuleTerm(t, [], wide, OnCommand(q), v);
      ReachesMore(w, t, wide, narrow, v);
      assert PairsObeyed(w, t, v, Commands);
      hide CaseOf, ScopeTerm, Obeyed, SeesLess, SameCommands;
      assert i != j ==> PairObeyed(w, t, v, Commands, i, j);
    }
    hide *;
    FindingsExactly(w, t, a, b);
  }

  /** And every rule on a path. */
  lemma ImpliedPathsAreFound(w: World, t: Tables, p: P.PathPred, q: P.PathPred, narrow: Area, wide: Area)
    requires Opened(t) && Split(t) && SamePaths(w, p, q) && Reaches(wide, narrow)
    requires RuleKnown(t, OneRule([], narrow, OnPath(p))) && RuleKnown(t, OneRule([], wide, OnPath(q)))
    ensures CoversRule(w, t, OneRule([], wide, OnPath(q)), OneRule([], narrow, OnPath(p)))
  {
    var (a, b) := (OneRule([], wide, OnPath(q)), OneRule([], narrow, OnPath(p)));
    var (i, j) := (Number(t.paths, (p, ViewOf(narrow))), Number(t.paths, (q, ViewOf(wide))));
    forall v: Valuation | Obeyed(w, t, v) && True(CaseOf(t, b).applies, v) ensures True(CaseOf(t, a).applies, v) {
      OneRuleTerm(t, [], narrow, OnPath(p), v);
      OneRuleTerm(t, [], wide, OnPath(q), v);
      ReachesMore(w, t, wide, narrow, v);
      assert PairsObeyed(w, t, v, Paths);
      hide CaseOf, ScopeTerm, Obeyed, SeesLess, SamePaths;
      assert i != j ==> PairObeyed(w, t, v, Paths, i, j);
    }
    hide *;
    FindingsExactly(w, t, a, b);
  }

  /** A rule on commands of a tool that carries none is found to be dead. */
  lemma CommandsOfOtherToolsAreFoundDead(w: World, t: Tables, name: string, p: C.CommandPred)
    requires Opened(t) && Split(t) && RuleKnown(t, OneRule([name], EVERYWHERE, OnCommand(p))) && !Wildcarded(name)
    requires forall i :: 0 <= i < |t.tools| && CarriesShell(w, t.tools[i]) ==>
                           t.tools[i] != name && !w.texts.fnmatch(name, t.tools[i])
    ensures Dead(w, t, OneRule([name], EVERYWHERE, OnCommand(p)))
  {
    var rule := OneRule([name], EVERYWHERE, OnCommand(p));
    assert name == [name][0] && name in t.tools;
    var n := Number(t.commands, (p, None));
    forall v: Valuation | Obeyed(w, t, v) ensures !True(CaseOf(t, rule).applies, v) {
      OneRuleTerm(t, [name], EVERYWHERE, OnCommand(p), v);
      NamedScope(t, name, v);
      assert Encoded(t, OnCommand(p), None) == Var(CommandAtom(n));
      if v.truth(ToolAtom(Number(t.tools, name))) {
        NoShell(w, t, name, v);
        assert SinglesObeyed(w, t, v, CommandCarriers);
        assert SingleObeyed(w, t, v, CommandCarriers, n);
      }
    }
    hide *;
    FindingsExactly(w, t, rule, rule);
  }

  lemma NoShell(w: World, t: Tables, name: string, v: Valuation)
    requires Obeyed(w, t, v) && name in t.tools && !Wildcarded(name) && v.truth(ToolAtom(Number(t.tools, name)))
    requires forall i :: 0 <= i < |t.tools| && CarriesShell(w, t.tools[i]) ==>
                           t.tools[i] != name && !w.texts.fnmatch(name, t.tools[i])
    ensures !IsShell(w, t, v)
  {
    var i := Number(t.tools, name);
    assert SinglesObeyed(w, t, v, NamedTools) && PairsObeyed(w, t, v, Tools);
    hide Obeyed, CarriesShell, Wildcarded;
    assert SingleObeyed(w, t, v, NamedTools, i);
    forall j: nat | j < |t.tools| && CarriesShell(w, t.tools[j]) ensures !v.truth(ToolAtom(j)) {
      assert PairObeyed(w, t, v, Tools, i, j);
    }
  }

  lemma NamedScope(t: Tables, name: string, v: Valuation)
    requires ScopeKnown(t, [name], EVERYWHERE)
    ensures name == [name][0] && name in t.tools
    ensures True(ScopeTerm(t, [name], EVERYWHERE), v) ==> v.truth(ToolAtom(Number(t.tools, name)))
  {
    assert name == [name][0];
    var terms := ToolTerms(t, [name]);
    OneTrue(Or(terms), v);
    AndTrue([Or(terms)], v);
    assert [Or(terms)] + [] == [Or(terms)];
    assert ScopeTerm(t, [name], EVERYWHERE) == And([Or(terms)]);
  }
}
