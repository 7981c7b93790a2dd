/**
  Where the description lint has of calls leaves some out (ember_armor/ledger/lint.py): a shell
  tool whose name is spelled in another letter case, and a path that is spared beside a sibling
  only a wider scope sees.  Lint then reports rules as shadowed that are not.
 */
module LintLimits {
  import opened Prelude
  import opened Arguments
  import opened Views
  import opened Lint
  import opened LintModel
  import opened Findings
  import Globs
  import C = CommandRules
  import P = PathRules

  // ---- tools ---------------------------------------------------------------------------------

  /** The same valuation, except for the tool no rule names. */
  function With(v: Valuation, other: bool): Valuation {
    Valuation(atom => if atom == Another then other else v.truth(atom), v.number)
  }

  /** What is certain about shell tools allows the valuation, for a call that has commands. */
  predicate Allowed(w: World, t: Tables, v: Valuation)
    requires Opened(t) && Split(t)
  {
    AllTrue(Unnamed(w), v) && AllTrue(Singles(w, t, NamedTools), v) && True(ShellTerm(w, t), v)
  }

  lemma {:induction false} CarrierIs(w: World, tools: seq<string>, term: Term)
    requires term in CarrierTerms(w, tools)
    ensures exists i :: 0 <= i < |tools| && CarriesShell(w, tools[i]) && term == Var(ToolAtom(i))
    decreases tools
  {
    hide CarriesShell;
    if term in CarrierTerms(w, Init(tools)) {
      CarrierIs(w, Init(tools), term);
    }
  }

  /**
    A call of a shell tool has a valuation that what lint knows about shell tools allows,
    exactly if the user names tools of his own, or the tool is spelled as the tables have it.
   */
  lemma ToolsAreRightExactly(w: World, t: Tables, call: Call)
    requires NamesMatch(w.texts) && Opened(t) && Split(t) && CarriesShell(w, call.tool)
    ensures (exists other: bool :: Allowed(w, t, With(Induced(w, t, call), other))) <==> Spelled(w, t, call)
  {
    var v := Induced(w, t, call);
    if Spelled(w, t, call) {
      var other := v.truth(Another);
      UnnamedTrue(w, t, call);
      NamedSingles(w, t, call);
      ShellTrue(w, t, call);
      WithItself(v);
      assert Allowed(w, t, With(v, other));
    }
    if other: bool :| Allowed(w, t, With(v, other)) {
      if w.carriers == [] { UnspelledIsNot(w, t, call, other); }
    }
  }

  lemma WithItself(v: Valuation)
    ensures forall term: Term :: True(term, With(v, v.truth(Another))) == True(term, v)
  {
    forall term: Term ensures True(term, With(v, v.truth(Another))) == True(term, v) {
      WithSame(v, term);
    }
  }

  lemma {:induction false} WithSame(v: Valuation, term: Term)
    ensures True(term, With(v, v.truth(Another))) == True(term, v)
    decreases term
  {
    var u := With(v, v.truth(Another));
    match term
    case Var(_) =>
    case And(terms) => forall i | 0 <= i < |terms| { WithSame(v, terms[i]); }
    case Or(terms) => forall i | 0 <= i < |terms| { WithSame(v, terms[i]); }
    case Not(inner) => WithSame(v, inner);
    case Implies(left, right) => WithSame(v, left); WithSame(v, right);
    case If(test, left, right) => WithSame(v, test); WithSame(v, left); WithSame(v, right);
    case Compare(_, _, _) =>
  }

  lemma NamedSingles(w: World, t: Tables, call: Call)
    requires NamesMatch(w.texts) && Opened(t) && Split(t)
    ensures AllTrue(Singles(w, t, NamedTools), Induced(w, t, call))
  {
    NamedRows(w, t, call, |t.tools|);
  }

  lemma {:induction false} NamedRows(w: World, t: Tables, call: Call, n: nat)
    requires NamesMatch(w.texts) && Opened(t) && Split(t) && n <= |t.tools|
    ensures AllTrue(SingleRows(w, t, NamedTools, n), Induced(w, t, call))
  {
    hide AllTrue, Induced, Opened, Split, NamesMatch, SingleAxiom;
    var v := Induced(w, t, call);
    NothingToHold(v);
    if n > 0 {
      NamedRows(w, t, call, n - 1);
      NamedToolTrue(w, t, call, n - 1);
      TrueJoin(SingleRows(w, t, NamedTools, n - 1), SingleAxiom(w, t, NamedTools, n - 1), v);
    }
  }

  lemma UnspelledIsNot(w: World, t: Tables, call: Call, other: bool)
    requires w.carriers == [] && Opened(t) && Split(t) && Allowed(w, t, With(Induced(w, t, call), other))
    ensures Named(w, t, call)
  {
    var v := With(Induced(w, t, call), other);
    assert Unnamed(w)[0] == Not(Var(Another));
    assert !other;
    var terms := CarrierTerms(w, t.tools) + [Var(Another)];
    var i :| 0 <= i < |terms| && True(terms[i], v);
    assert terms[|terms| - 1] == Var(Another) && i < |terms| - 1;
    CarrierIs(w, t.tools, terms[i]);
    var n :| 0 <= n < |t.tools| && CarriesShell(w, t.tools[n]) && terms[i] == Var(ToolAtom(n));
    ValueTrue(w, t, call, ToolAtom(n));
  }

  // ---- what the axioms say -------------------------------------------------------------------

  lemma {:induction false} PairIn(w: World, t: Tables, side: Pair, n: nat, i: nat, j: nat, v: Valuation)
    requires i < n <= Count(t, side) && j < Count(t, side) && i != j && AllTrue(PairRows(w, t, side, n), v)
    ensures AllTrue(PairAxiom(w, t, side, i, j), v)
    decreases n
  {
    hide AllTrue, PairAxiom, PairRow;
    TrueJoin(PairRows(w, t, side, n - 1), PairRow(w, t, side, n - 1, Count(t, side)), v);
    if i == n - 1 { PairInRow(w, t, side, i, Count(t, side), j, v); } else { PairIn(w, t, side, n - 1, i, j, v); }
  }

  lemma {:induction false} PairInRow(w: World, t: Tables, side: Pair, i: nat, n: nat, j: nat, v: Valuation)
    requires i < Count(t, side) && j < n <= Count(t, side) && i != j && AllTrue(PairRow(w, t, side, i, n), v)
    ensures AllTrue(PairAxiom(w, t, side, i, j), v)
    decreases n
  {
    hide AllTrue, PairAxiom;
    TrueJoin(PairRow(w, t, side, i, n - 1), if i == n - 1 then [] else PairAxiom(w, t, side, i, n - 1), v);
    if j < n - 1 { PairInRow(w, t, side, i, n - 1, j, v); }
  }

  lemma {:induction false} SingleIn(w: World, t: Tables, side: Single, n: nat, i: nat, v: Valuation)
    requires Opened(t) && Split(t) && i < n <= Size(t, side) && AllTrue(SingleRows(w, t, side, n), v)
    ensures AllTrue(SingleAxiom(w, t, side, i), v)
    decreases n
  {
    hide AllTrue, SingleAxiom, Opened, Split;
    TrueJoin(SingleRows(w, t, side, n - 1), SingleAxiom(w, t, side, n - 1), v);
    if i < n - 1 { SingleIn(w, t, side, n - 1, i, v); }
  }

  lemma AxiomsSay(w: World, t: Tables, v: Valuation)
    requires Opened(t) && Split(t) && AllTrue(AllAxioms(w, t), v)
    ensures AllTrue(Unnamed(w), v) && AllTrue(Singles(w, t, CommandCarriers), v) && AllTrue(Pairs(w, t, Paths), v)
  {
    hide AllTrue, Singles, Pairs, Unnamed, Opened, Split;
    forall a, b ensures AllTrue(a + b, v) <==> AllTrue(a, v) && AllTrue(b, v) { TrueJoin(a, b, v); }
  }

  // ---- a path rule that is not shadowed -----------------------------------------------------------

  function PathRule(pred: P.PathPred, area: Area): Rule { Rule([], area, OnPath(pred), false) }

  lemma PathRuleTerm(t: Tables, pred: P.PathPred, area: Area, v: Valuation)
    requires RuleKnown(t, PathRule(pred, area))
    ensures var c := CaseOf(t, PathRule(pred, area));
            True(c.fires, v) == v.truth(PathAtom(Number(t.paths, (pred, ViewOf(area))))) &&
            True(c.applies, v) == (True(c.scope, v) && True(c.fires, v))
  {
    var c := CaseOf(t, PathRule(pred, area));
    hide ScopeTerm;
    TwoTrue(c.scope, c.fires, v);
  }

  const EVERYWHERE := Area([], [], [])

  lemma EverywhereTrue(t: Tables, v: Valuation)
    ensures ScopeKnown(t, [], EVERYWHERE) && True(ScopeTerm(t, [], EVERYWHERE), v)
  {
    assert AreaTerms(t, EVERYWHERE) == [];
    assert ScopeTerm(t, [], EVERYWHERE) == And([]);
  }

  lemma NarrowAtom(w: World, t: Tables, pred: P.PathPred, v: Valuation)
    requires Opened(t) && Split(t) && AllTrue(AllAxioms(w, t), v)
    requires (pred, Some(NEARBY)) in t.paths && (pred, None) in t.paths
    requires v.truth(PathAtom(Number(t.paths, (pred, Some(NEARBY)))))
    ensures v.truth(PathAtom(Number(t.paths, (pred, None))))
  {
    hide AllTrue, AllAxioms, True, PairAxiom, PairRow;
    var m, n := Number(t.paths, (pred, Some(NEARBY))), Number(t.paths, (pred, None));
    AxiomsSay(w, t, v);
    PairIn(w, t, Paths, |t.paths|, m, n, v);
    NarrowLeads(w, t, pred, m, n, v);
  }

  lemma NarrowImplies(w: World, t: Tables, pred: P.PathPred, v: Valuation)
    requires Opened(t) && Split(t) && AllTrue(AllAxioms(w, t), v)
    requires RuleKnown(t, PathRule(pred, EVERYWHERE)) && RuleKnown(t, PathRule(pred, NEARBY))
    requires True(CaseOf(t, PathRule(pred, NEARBY)).applies, v)
    ensures True(CaseOf(t, PathRule(pred, EVERYWHERE)).applies, v)
  {
    hide AllTrue, AllAxioms, CaseOf, True, ScopeTerm, Opened, Split;
    PathRuleTerm(t, pred, NEARBY, v);
    PathRuleTerm(t, pred, EVERYWHERE, v);
    NarrowAtom(w, t, pred, v);
    EverywhereTrue(t, v);
    EverywhereScope(t, pred);
  }

  lemma EverywhereScope(t: Tables, pred: P.PathPred)
    requires RuleKnown(t, PathRule(pred, EVERYWHERE))
    ensures CaseOf(t, PathRule(pred, EVERYWHERE)).scope == ScopeTerm(t, [], EVERYWHERE)
  {
  }

  /** Lint takes the rule everywhere to cover the same rule in a directory. */
  lemma LintCoversNarrow(w: World, t: Tables, pred: P.PathPred)
    requires Opened(t) && Split(t)
    requires RuleKnown(t, PathRule(pred, EVERYWHERE)) && RuleKnown(t, PathRule(pred, NEARBY))
    ensures CoversRule(w, t, PathRule(pred, EVERYWHERE), PathRule(pred, NEARBY))
  {
    var near, wide := CaseOf(t, PathRule(pred, NEARBY)).applies, CaseOf(t, PathRule(pred, EVERYWHERE)).applies;
    hide AllTrue, AllAxioms, CaseOf, True, RuleKnown, Opened, Split;
    forall v: Valuation ensures !AllTrue(AllAxioms(w, t) + [near, Not(wide)], v) {
      TrueJoin(AllAxioms(w, t), [near, Not(wide)], v);
      PairHolds(near, Not(wide), v);
      NotTrue(wide, v);
      if AllTrue(AllAxioms(w, t), v) && True(near, v) { NarrowImplies(w, t, pred, v); }
    }
  }

  lemma NotTrue(term: Term, v: Valuation) ensures True(Not(term), v) == !True(term, v) {}

  lemma NarrowLeads(w: World, t: Tables, pred: P.PathPred, m: nat, n: nat, v: Valuation)
    requires m < |t.paths| && n < |t.paths| && t.paths[m] == (pred, Some(NEARBY)) && t.paths[n] == (pred, None)
    requires AllTrue(PairAxiom(w, t, Paths, m, n), v)
    ensures v.truth(PathAtom(m)) ==> v.truth(PathAtom(n))
  {
    hide P.PathImplies;
    assert PairAxiom(w, t, Paths, m, n) == [Implies(Var(PathAtom(m)), Var(PathAtom(n)))];
    OneTrue(Implies(Var(PathAtom(m)), Var(PathAtom(n))), v);
  }

  /**
    For every path predicate that can be spared: lint reports the rule for one directory as
    shadowed by the same rule for all of them, and on some call only the first fires.
   */
  lemma SparedRuleIsNotShadowed(w: World, t: Tables, pred: P.PathPred) returns (call: Call)
    requires Opened(t) && Split(t) && CanBeSpared(w.classes, pred)
    requires RuleKnown(t, PathRule(pred, EVERYWHERE)) && RuleKnown(t, PathRule(pred, NEARBY))
    ensures CoversRule(w, t, PathRule(pred, EVERYWHERE), PathRule(pred, NEARBY))
    ensures Plain(call) && call.tool == "Bash" && call.dynamic == []
    ensures Fires(w, PathRule(pred, NEARBY), call) && !Fires(w, PathRule(pred, EVERYWHERE), call)
  {
    LintCoversNarrow(w, t, pred);
    hide CoversRule, RuleKnown, View, Plain, PathHolds, Meets;
    call := SparedCall(w, pred, pred);
    SeesAll(w, call);
  }

  /** Reading anything at all. */
  const READS := P.PathPred(Some(P.Read), [], [], [], [], [], None, [])

  /** A predicate that can be spared is no obstacle beside one that lint does not compare with it. */
  lemma UnrelatedScopesAreTrusted(w: World)
    requires NamesMatch(w.texts)
    ensures Trusted(w, Tables(SHELL_TOOLS + FILE_TOOLS, [], [], [], [], [(READS, Some(NEARBY)), (BINS, None)], [], []))
    ensures CanBeSpared(w.classes, BINS)
  {
    BinsCanBeSpared(w.classes);
    assert !P.PathImplies(w.classes, READS, BINS) && !P.PathImplies(w.classes, BINS, READS);
    hide NamesMatch, P.PathImplies, P.Believable, Escapes, CanBeSpared, SeesLess, Comparable;
    var t := Tables(SHELL_TOOLS + FILE_TOOLS, [], [], [], [], [(READS, Some(NEARBY)), (BINS, None)], [], []);
    forall i, j | 0 <= i < 2 && 0 <= j < 2 ensures PathsBelievable(w, t.paths[i], t.paths[j]) {
      if i == 0 && j == 1 { assert !SamePaths(w, READS, BINS); }
      if i == 1 && j == 0 { assert !SamePaths(w, BINS, READS); }
    }
  }

  // ---- a command rule that is not shadowed --------------------------------------------------------

  function CommandRule(pred: C.CommandPred, tools: seq<string>): Rule {
    Rule(tools, EVERYWHERE, OnCommand(pred), false)
  }

  lemma {:induction false} NumberAt<T>(table: seq<T>, i: nat)
    requires Distinct(table) && i < |table|
    ensures Number(table, table[i]) == i
    decreases table
  {
    if i > 0 {
      assert table[0] != table[i];
      assert table[1..][i - 1] == table[i];
      NumberAt(table[1..], i - 1);
    }
  }

  /** A shell tool is one of the built-in ones, where the rules name no other. */
  lemma ShellIsNamed(w: World, t: Tables, v: Valuation)
    requires w.carriers == [] && t.tools == SHELL_TOOLS + FILE_TOOLS
    requires forall name :: name in FILE_TOOLS ==> !CarriesShell(w, name)
    requires AllTrue(Unnamed(w), v) && True(ShellTerm(w, t), v)
    ensures EachIn(SHELL_TOOLS, t.tools) && True(Or(ToolTerms(t, SHELL_TOOLS)), v)
  {
    hide CarriesShell;
    var terms := CarrierTerms(w, t.tools) + [Var(Another)];
    assert Unnamed(w)[0] == Not(Var(Another));
    var k :| 0 <= k < |terms| && True(terms[k], v);
    assert terms[|terms| - 1] == Var(Another) && k < |terms| - 1;
    CarrierIs(w, t.tools, terms[k]);
    var i :| 0 <= i < |t.tools| && CarriesShell(w, t.tools[i]) && terms[k] == Var(ToolAtom(i));
    ShellToolTrue(t, SHELL_TOOLS, FILE_TOOLS, i, v);
  }

  lemma ShellToolTrue(t: Tables, shells: seq<string>, files: seq<string>, i: nat, v: Valuation)
    requires t.tools == shells + files && i < |t.tools| && t.tools[i] !in files && v.truth(ToolAtom(i))
    requires Distinct(t.tools)
    ensures EachIn(shells, t.tools) && True(Or(ToolTerms(t, shells)), v)
  {
    assert forall k :: |shells| <= k < |t.tools| ==> t.tools[k] == files[k - |shells|];
    assert forall k :: |shells| <= k < |t.tools| ==> t.tools[k] in files;
    forall j | 0 <= j < |shells| ensures shells[j] in t.tools { assert t.tools[j] == shells[j]; }
    NumberAt(t.tools, i);
    assert ToolTerms(t, shells)[i] == Var(ToolAtom(i));
  }

  lemma CommandRuleTerm(t: Tables, pred: C.CommandPred, tools: seq<string>, v: Valuation)
    requires RuleKnown(t, CommandRule(pred, tools))
    ensures var c := CaseOf(t, CommandRule(pred, tools));
            c.scope == ScopeTerm(t, tools, EVERYWHERE) &&
            True(c.applies, v) == (True(c.scope, v) && v.truth(CommandAtom(Number(t.commands, (pred, None)))))
  {
    var c := CaseOf(t, CommandRule(pred, tools));
    hide ScopeTerm;
    TwoTrue(c.scope, c.fires, v);
  }

  lemma ToolScopeTrue(t: Tables, tools: seq<string>, v: Valuation)
    requires tools != [] && EachIn(tools, t.tools) && True(Or(ToolTerms(t, tools)), v)
    ensures ScopeKnown(t, tools, EVERYWHERE) && True(ScopeTerm(t, tools, EVERYWHERE), v)
  {
    assert AreaTerms(t, EVERYWHERE) == [];
    var named := [Or(ToolTerms(t, tools))];
    assert ScopeTerm(t, tools, EVERYWHERE) == And(named) by { assert named + [] == named; }
    OneTrue(named[0], v);
  }

  lemma CommandShell(w: World, t: Tables, n: nat, v: Valuation)
    requires Opened(t) && Split(t) && AllTrue(AllAxioms(w, t), v) && n < |t.commands| && v.truth(CommandAtom(n))
    ensures AllTrue(Unnamed(w), v) && True(ShellTerm(w, t), v)
  {
    hide AllTrue, AllAxioms, ShellTerm, Unnamed;
    AxiomsSay(w, t, v);
    SingleIn(w, t, CommandCarriers, |t.commands|, n, v);
    OneTrue(Implies(Var(CommandAtom(n)), ShellTerm(w, t)), v);
  }

  /** Lint takes the rule for the built-in shell tools to cover the rule for all tools. */
  lemma LintCoversTools(w: World, t: Tables, pred: C.CommandPred)
    requires Opened(t) && Split(t) && t.tools == SHELL_TOOLS + FILE_TOOLS && w.carriers == []
    requires forall name :: name in FILE_TOOLS ==> !CarriesShell(w, name)
    requires RuleKnown(t, CommandRule(pred, SHELL_TOOLS)) && RuleKnown(t, CommandRule(pred, []))
    ensures CoversRule(w, t, CommandRule(pred, SHELL_TOOLS), CommandRule(pred, []))
  {
    var named, all := CaseOf(t, CommandRule(pred, SHELL_TOOLS)).applies, CaseOf(t, CommandRule(pred, [])).applies;
    assert (pred, None) in t.commands;
    var n := Number(t.commands, (pred, None));
    hide AllTrue, AllAxioms, CaseOf, True, RuleKnown, Opened, Split, ShellTerm, ToolTerms, CarriesShell, Unnamed;
    forall v: Valuation ensures !AllTrue(AllAxioms(w, t) + [all, Not(named)], v) {
      TrueJoin(AllAxioms(w, t), [all, Not(named)], v);
      PairHolds(all, Not(named), v);
      NotTrue(named, v);
      CommandRuleTerm(t, pred, [], v);
      CommandRuleTerm(t, pred, SHELL_TOOLS, v);
      if AllTrue(AllAxioms(w, t), v) && True(all, v) {
        CommandShell(w, t, n, v);
        ShellIsNamed(w, t, v);
        ToolScopeTrue(t, SHELL_TOOLS, v);
      }
    }
  }

  /**
    A shell tool in another letter case, such as "bash": lint reports the rule for all tools as
    shadowed by the same rule for the built-in shell tools, and on the call only the first fires.
   */
  lemma OtherCaseIsNotShadowed(w: World, t: Tables, pred: C.CommandPred, call: Call)
    requires Opened(t) && Split(t) && t.tools == SHELL_TOOLS + FILE_TOOLS && w.carriers == []
    requires forall name :: name in FILE_TOOLS ==> !CarriesShell(w, name)
    requires RuleKnown(t, CommandRule(pred, SHELL_TOOLS)) && RuleKnown(t, CommandRule(pred, []))
    requires NamesMatch(w.texts) && CommandHolds(w, pred, call)
    requires CarriesShell(w, call.tool) && call.tool !in SHELL_TOOLS
    ensures CoversRule(w, t, CommandRule(pred, SHELL_TOOLS), CommandRule(pred, []))
    ensures Fires(w, CommandRule(pred, []), call) && !Fires(w, CommandRule(pred, SHELL_TOOLS), call)
  {
    LintCoversTools(w, t, pred);
    hide CoversRule, RuleKnown, CommandHolds, Wildcarded, CarriesShell;
    SeesAll(w, call);
    forall i | 0 <= i < |SHELL_TOOLS| ensures !w.texts.fnmatch(call.tool, SHELL_TOOLS[i]) {
      BuiltInNames(SHELL_TOOLS[i]);
    }
  }

  // ---- a tool named "bash" -----------------------------------------------------------------------

  function Low(c: char): char { if 'A' <= c <= 'Z' then c - 'A' + 'a' else c }

  function Lower(s: string): string { seq(|s|, i requires 0 <= i < |s| => Low(s[i])) }

  /** A world with plain names, where letter case is that of ASCII. */
  const PLAIN_WORLD: World :=
    World(C.Texts(s => Lower(s), (s, _) => s, _ => false, _ => {}, _ => false,
                  (name, pattern) => name == pattern || Stars(pattern), (_, _) => false),
          Globs.Classes(_ => false, (_, _) => false), _ => NoRoot, (_, _, _) => false, [])

  /** Any command at all. */
  const ANY_COMMAND := C.CommandPred([], [], [], [], [], [], [], None, None)

  const BASH_CALL: Call :=
    Call("bash", [Placed(Home, C.Command(["ls"], C.Bash, "", []))], [], "/", true, [],
         Arguments(_ => None, _ => None, (_, _) => false, (_, _) => false), _ => false)

  const BASH_TABLES := Tables(SHELL_TOOLS + FILE_TOOLS, [], [], [], [(ANY_COMMAND, None)], [], [], [])

  lemma LowerNames(name: string)
    requires name in FILE_TOOLS
    ensures forall shell :: shell in SHELL_TOOLS ==> Lower(name) != Lower(shell)
  {
    forall shell | shell in SHELL_TOOLS ensures Lower(name) != Lower(shell) {
      if |name| == |shell| {
        assert shell == "Bash" && name[0] != 'B';
        assert Lower(shell)[0] == 'b' && Lower(name)[0] != 'b';
      } else {
        assert |Lower(name)| != |Lower(shell)|;
      }
    }
  }

  lemma PlainNames()
    ensures NamesMatch(PLAIN_WORLD.texts)
  {
    forall pattern | Stars(pattern) ensures Wildcarded(pattern) { assert pattern[0] == '*'; }
  }

  lemma NoStars(shell: string)
    requires shell in SHELL_TOOLS
    ensures !Stars(Lower(shell))
  {
    assert Lower(shell)[0] == Low(shell[0]);
  }

  lemma FilesDoNotCarry(name: string)
    requires name in FILE_TOOLS
    ensures !CarriesShell(PLAIN_WORLD, name)
  {
    LowerNames(name);
    forall i | 0 <= i < |SHELL_TOOLS + PLAIN_WORLD.carriers|
      ensures !PLAIN_WORLD.texts.fnmatch(Lower(name), Lower((SHELL_TOOLS + PLAIN_WORLD.carriers)[i]))
    {
      assert (SHELL_TOOLS + PLAIN_WORLD.carriers)[i] == SHELL_TOOLS[i];
      assert SHELL_TOOLS[i] in SHELL_TOOLS;
      NoStars(SHELL_TOOLS[i]);
      hide Lower;
    }
  }

  lemma BashCarries()
    ensures CarriesShell(PLAIN_WORLD, "bash") && "bash" !in SHELL_TOOLS
  {
    assert Lower("bash") == Lower("Bash");
    assert (SHELL_TOOLS + PLAIN_WORLD.carriers)[0] == "Bash";
  }

  lemma BashHolds()
    ensures CommandHolds(PLAIN_WORLD, ANY_COMMAND, BASH_CALL)
  {
    assert C.CommandMatches(PLAIN_WORLD.texts, BASH_CALL.commands[0].it, ANY_COMMAND, false);
  }

  lemma BashKnown()
    ensures Opened(BASH_TABLES) && Split(BASH_TABLES)
    ensures RuleKnown(BASH_TABLES, CommandRule(ANY_COMMAND, SHELL_TOOLS))
    ensures RuleKnown(BASH_TABLES, CommandRule(ANY_COMMAND, []))
  {
    InTables(SHELL_TOOLS, FILE_TOOLS);
    assert (ANY_COMMAND, None) == BASH_TABLES.commands[0];
    hide Combined;
  }

  lemma InTables(shells: seq<string>, files: seq<string>)
    ensures EachIn(shells, shells + files) && shells + files <= shells + files
  {
    forall i | 0 <= i < |shells| ensures shells[i] in shells + files { assert (shells + files)[i] == shells[i]; }
  }

  /** A gate that is asked about a call of "bash": lint's report is wrong for it. */
  lemma BashIsNotShadowed()
    ensures var (w, t) := (PLAIN_WORLD, BASH_TABLES);
            Opened(t) && Split(t) && NamesMatch(w.texts) && CarriesShell(w, BASH_CALL.tool) &&
            RuleKnown(t, CommandRule(ANY_COMMAND, SHELL_TOOLS)) && RuleKnown(t, CommandRule(ANY_COMMAND, [])) &&
            CoversRule(w, t, CommandRule(ANY_COMMAND, SHELL_TOOLS), CommandRule(ANY_COMMAND, [])) &&
            Fires(w, CommandRule(ANY_COMMAND, []), BASH_CALL) &&
            !Fires(w, CommandRule(ANY_COMMAND, SHELL_TOOLS), BASH_CALL)
  {
    hide CarriesShell, RuleKnown, CoversRule, Fires, NamesMatch, CommandHolds, Opened, Split;
    PlainNames();
    BashCarries();
    BashHolds();
    BashKnown();
    forall name | name in FILE_TOOLS ensures !CarriesShell(PLAIN_WORLD, name) { FilesDoNotCarry(name); }
    OtherCaseIsNotShadowed(PLAIN_WORLD, BASH_TABLES, ANY_COMMAND, BASH_CALL);
  }
}
