/**
  `_Model` of lint (ember_armor/ledger/lint.py): it numbers the atoms of rules as it meets
  them, and lists what is certain about any call.
 */
module LintModel {
  import opened Prelude
  import opened Arguments
  import opened Views
  import opened Lint
  import C = CommandRules
  import P = PathRules

  // ---- what is certain about two atoms of one table -----------------------------------------

  datatype Pair = Areas | Tools | Constants | Commands | Paths | Directories

  function Count(t: Tables, side: Pair): nat {
    match side
    case Areas => |t.areas|
    case Tools => |t.tools|
    case Constants => |t.equals|
    case Commands => |t.commands|
    case Paths => |t.paths|
    case Directories => |t.directories|
  }

  predicate Wildcarded(name: string) { '*' in name || '?' in name || '[' in name }

  predicate Stars(name: string) { name != "" && forall i :: 0 <= i < |name| ==> name[i] == '*' }

  function Leads(yes: bool, a: Atom, b: Atom): seq<Term> { if yes then [Implies(Var(a), Var(b))] else [] }

  function Excludes(yes: bool, a: Atom, b: Atom): seq<Term> { if yes then [Not(And([Var(a), Var(b)]))] else [] }

  predicate SameCommands(w: World, a: C.CommandPred, b: C.CommandPred) {
    a == b || C.CommandImplies(w.texts, a, b)
  }

  predicate SamePaths(w: World, a: P.PathPred, b: P.PathPred) {
    a == b || P.PathImplies(w.classes, a, b)
  }

  function PairAxiom(w: World, t: Tables, side: Pair, i: nat, j: nat): seq<Term>
    requires i < Count(t, side) && j < Count(t, side)
  {
    var k := w.classes;
    match side
    case Areas => Leads(SeesLess(k, Some(t.areas[i]), Some(t.areas[j])), AreaAtom(i), AreaAtom(j))
    case Tools =>
      if Wildcarded(t.tools[i]) then []
      else if w.texts.fnmatch(t.tools[i], t.tools[j]) then Leads(true, ToolAtom(i), ToolAtom(j))
      else Excludes(true, ToolAtom(i), ToolAtom(j))
    case Constants =>
      var (a, b) := (t.equals[i], t.equals[j]);
      Excludes(a.0 == b.0 && !Same(a.1, b.1), EqualAtom(i), EqualAtom(j))
    case Commands =>
      var (a, b) := (t.commands[i], t.commands[j]);
      Leads(SameCommands(w, a.0, b.0) && SeesLess(k, a.1, b.1), CommandAtom(i), CommandAtom(j))
    case Paths =>
      var (a, b) := (t.paths[i], t.paths[j]);
      Leads(SamePaths(w, a.0, b.0) && SeesLess(k, a.1, b.1), PathAtom(i), PathAtom(j))
    case Directories =>
      Leads(P.DirectoryInside(k, t.directories[i], t.directories[j]), DirectoryAtom(i), DirectoryAtom(j))
  }

  function PairRow(w: World, t: Tables, side: Pair, i: nat, n: nat): seq<Term>
    requires i < Count(t, side) && n <= Count(t, side)
  {
    if n == 0 then []
    else PairRow(w, t, side, i, n - 1) + if i == n - 1 then [] else PairAxiom(w, t, side, i, n - 1)
  }

  function PairRows(w: World, t: Tables, side: Pair, n: nat): seq<Term>
    requires n <= Count(t, side)
  {
    if n == 0 then [] else PairRows(w, t, side, n - 1) + PairRow(w, t, side, n - 1, Count(t, side))
  }

  function Pairs(w: World, t: Tables, side: Pair): seq<Term> { PairRows(w, t, side, Count(t, side)) }

  // ---- what is certain about one atom -----------------------------------------------------------

  datatype Single =
    | Parts | AnyTools | NamedTools | CommandCarriers | KindCarriers | PathCarriers | Equalities | NumericNames

  function Size(t: Tables, side: Single): nat {
    match side
    case Parts => |t.areas|
    case AnyTools => |t.tools|
    case NamedTools => |t.tools|
    case CommandCarriers => |t.commands|
    case KindCarriers => |DYNAMIC_KINDS|
    case PathCarriers => |t.paths|
    case Equalities => |t.equals|
    case NumericNames => |t.names|
  }

  /** The directories and repositories of every combined area have atoms of their own. */
  predicate Split(t: Tables) {
    forall i :: 0 <= i < |t.areas| ==> EachIn(t.areas[i].under, t.directories) && EachIn(t.areas[i].roots, t.roots)
  }

  /** The name of a tool that carries shell commands, in any letter case. */
  predicate CarriesShell(w: World, name: string) {
    exists i :: 0 <= i < |SHELL_TOOLS + w.carriers| &&
                w.texts.fnmatch(w.texts.lower(name), w.texts.lower((SHELL_TOOLS + w.carriers)[i]))
  }

  function CarrierTerms(w: World, tools: seq<string>): seq<Term> {
    if tools == [] then []
    else CarrierTerms(w, Init(tools)) + if CarriesShell(w, Last(tools)) then [Var(ToolAtom(|tools| - 1))] else []
  }

  function ShellTerm(w: World, t: Tables): Term { Or(CarrierTerms(w, t.tools) + [Var(Another)]) }

  function FileTerm(w: World, t: Tables): Term
    requires Opened(t)
  {
    Or([ShellTerm(w, t)] + seq(|FILE_TOOLS|, i requires 0 <= i < |FILE_TOOLS| => Var(ToolAtom(|SHELL_TOOLS| + i))))
  }

  function PartTerms(t: Tables, i: nat): seq<Term>
    requires Split(t) && i < |t.areas|
  {
    var area := t.areas[i];
    (if area.under == [] then [] else [Implies(Var(AreaAtom(i)), Or(DirectoryTerms(t, area.under)))]) +
    (if area.roots == [] then [] else [Implies(Var(AreaAtom(i)), Or(RootTerms(t, area.roots)))])
  }

  function EqualityTerms(t: Tables, i: nat): seq<Term>
    requires i < |t.equals|
  {
    var (name, constant) := t.equals[i];
    [Implies(Var(EqualAtom(i)), Var(Present(name)))] +
    if constant.Num? then
      [Implies(And([Var(EqualAtom(i)), Var(Numeric(name))]), Compare([Addend(1.0, name)], Equal, constant.r))]
    else []
  }

  function SingleAxiom(w: World, t: Tables, side: Single, i: nat): seq<Term>
    requires Opened(t) && Split(t) && i < Size(t, side)
  {
    match side
    case Parts => PartTerms(t, i)
    case AnyTools => if Stars(t.tools[i]) then [Var(ToolAtom(i))] else []
    case NamedTools => Excludes(!Wildcarded(t.tools[i]), Another, ToolAtom(i))
    case CommandCarriers => [Implies(Var(CommandAtom(i)), ShellTerm(w, t))]
    case KindCarriers => [Implies(Var(KindAtom(DYNAMIC_KINDS[i])), ShellTerm(w, t))]
    case PathCarriers => [Implies(Var(PathAtom(i)), FileTerm(w, t))]
    case Equalities => EqualityTerms(t, i)
    case NumericNames => Leads(true, Numeric(t.names[i]), Present(t.names[i]))
  }

  function SingleRows(w: World, t: Tables, side: Single, n: nat): seq<Term>
    requires Opened(t) && Split(t) && n <= Size(t, side)
  {
    if n == 0 then [] else SingleRows(w, t, side, n - 1) + SingleAxiom(w, t, side, n - 1)
  }

  function Singles(w: World, t: Tables, side: Single): seq<Term>
    requires Opened(t) && Split(t)
  {
    SingleRows(w, t, side, Size(t, side))
  }

  // ---- all axioms -------------------------------------------------------------------------------

  /** `_area_axioms` */
  function AreaAxioms(w: World, t: Tables): seq<Term>
    requires Opened(t) && Split(t)
  {
    Singles(w, t, Parts) + Pairs(w, t, Areas)
  }

  /** Without tools of the user's own, no shell tool goes unnamed. */
  function Unnamed(w: World): seq<Term> { if w.carriers == [] then [Not(Var(Another))] else [] }

  /** `_tool_axioms` */
  function ToolAxioms(w: World, t: Tables): seq<Term>
    requires Opened(t) && Split(t)
  {
    Singles(w, t, AnyTools) + Pairs(w, t, Tools) + Unnamed(w) + Singles(w, t, NamedTools) +
    Singles(w, t, CommandCarriers) + Singles(w, t, KindCarriers) + Singles(w, t, PathCarriers)
  }

  /** `_argument_axioms` */
  function ArgumentAxioms(w: World, t: Tables): seq<Term>
    requires Opened(t) && Split(t)
  {
    Singles(w, t, Equalities) + Pairs(w, t, Constants) + Singles(w, t, NumericNames)
  }

  function AllAxioms(w: World, t: Tables): seq<Term>
    requires Opened(t) && Split(t)
  {
    AreaAxioms(w, t) + ToolAxioms(w, t) + ArgumentAxioms(w, t) +
    Pairs(w, t, Commands) + Pairs(w, t, Paths) + Pairs(w, t, Directories)
  }

  // ---- the model ----------------------------------------------------------------------------------

  class Model {
    const world: World
    var tools: seq<string>
    var directories: seq<P.Pattern>
    var roots: seq<P.Pattern>
    var areas: seq<Area>
    var commands: seq<(C.CommandPred, Option<Area>)>
    var paths: seq<(P.PathPred, Option<Area>)>
    var names: seq<string>
    var equals: seq<(string, Json)>

    function Value(): Tables
      reads this
    {
      Tables(tools, directories, roots, areas, commands, paths, names, equals)
    }

    ghost predicate Valid()
      reads this
    {
      Clean(Value()) && Opened(Value()) && Split(Value())
    }

    constructor (w: World)
      ensures Valid() && world == w
      ensures Value() == Tables(SHELL_TOOLS + FILE_TOOLS, [], [], [], [], [], [], [])
    {
      world := w;
      tools := SHELL_TOOLS + FILE_TOOLS;
      directories, roots, areas, commands, paths, names, equals := [], [], [], [], [], [], [];
      new;
      DistinctTools();
    }

    method EqualNumber(name: string, value: Json) returns (term: Term)
      requires Valid()
      modifies this`equals
      ensures Valid() && Larger(old(Value()), Value()) && (name, value) in equals
      ensures term == EqualTerm(Value(), name, value)
    {
      var number;
      equals, number := Numbered(equals, (name, value));
      term := Var(EqualAtom(number));
    }

    method EqualTerms(name: string, values: seq<Json>) returns (terms: seq<Term>)
      requires Valid()
      modifies this`equals
      ensures Valid() && Larger(old(Value()), Value()) && |terms| == |values|
      ensures forall i :: 0 <= i < |values| ==>
                (name, values[i]) in equals && terms[i] == EqualTerm(Value(), name, values[i])
    {
      hide Valid;
      terms := [];
      for i := 0 to |values|
        invariant Valid() && Larger(old(Value()), Value()) && |terms| == i
        invariant forall k :: 0 <= k < i ==>
                    (name, values[k]) in equals && terms[k] == EqualTerm(Value(), name, values[k])
      {
        ghost var before := equals;
        var same := EqualNumber(name, values[i]);
        forall k | 0 <= k < i
          ensures (name, values[k]) in equals && terms[k] == EqualTerm(Value(), name, values[k])
        {
          NumberStays(before, equals, (name, values[k]));
        }
        terms := terms + [same];
      }
    }

    method NameNumber(name: string)
      requires Valid()
      modifies this`names
      ensures Valid() && Larger(old(Value()), Value()) && name in names
    {
      var number;
      names, number := Numbered(names, name);
    }

    /** `_arg` */
    method Argument(argument: ArgPred) returns (term: Term)
      requires Valid()
      modifies this`names, this`equals
      ensures Valid() && Larger(old(Value()), Value())
      ensures ArgumentKnown(Value(), argument) && term == ArgumentTerm(Value(), argument)
    {
      hide Valid, EqualTerm;
      NameNumber(argument.name);
      match argument
      case Matches(name, pattern) => term := And([Var(Present(name)), Var(MatchAtom(name, pattern))]);
      case In(name, values) =>
        var terms := EqualTerms(name, values);
        term := Or(terms);
      case Against(name, op, value) =>
        if value.Endless? { return Var(EndlessAtom(argument)); }
        if !value.Num? {
          var same := EqualNumber(name, value);
          term := if op.Equal? then same else if op.Unequal? then And([Var(Present(name)), Not(same)]) else Or([]);
          return;
        }
        var compared := Compare([Addend(1.0, name)], op, value.r);
        if !op.Equal? && !op.Unequal? { return And([Var(Numeric(name)), compared]); }
        var same := EqualNumber(name, value);
        var other := if op.Equal? then same else And([Var(Present(name)), Not(same)]);
        term := If(Var(Numeric(name)), compared, other);
    }

    /** `_expr` */
    method Sum(sum: SumPred) returns (term: Term)
      requires Valid()
      modifies this`names
      ensures Valid() && Larger(old(Value()), Value())
      ensures NamesKnown(Value(), sum.addends) && term == SumTerm(sum)
    {
      hide Valid;
      var numeric: seq<Term> := [];
      for i := 0 to |sum.addends|
        invariant Valid() && Larger(old(Value()), Value()) && |numeric| == i
        invariant forall k :: 0 <= k < i ==>
                    sum.addends[k].name in names && numeric[k] == Var(Numeric(sum.addends[k].name))
      {
        ghost var before := names;
        NameNumber(sum.addends[i].name);
        forall k | 0 <= k < i ensures sum.addends[k].name in names {
          NumberStays(before, names, sum.addends[k].name);
        }
        numeric := numeric + [Var(Numeric(sum.addends[i].name))];
      }
      term := And(numeric + [Compare(sum.addends, sum.op, sum.bound)]);
    }

    method CommandNumber(command: C.CommandPred, scope: Option<Area>) returns (number: nat)
      requires Valid()
      modifies this`commands
      ensures Valid() && Larger(old(Value()), Value())
      ensures (command, scope) in commands && number == Number(commands, (command, scope))
    {
      commands, number := Numbered(commands, (command, scope));
    }

    method PathNumber(path: P.PathPred, scope: Option<Area>) returns (number: nat)
      requires Valid()
      modifies this`paths
      ensures Valid() && Larger(old(Value()), Value())
      ensures (path, scope) in paths && number == Number(paths, (path, scope))
    {
      paths, number := Numbered(paths, (path, scope));
    }

    /** Solver term for a predicate; new leaves get the next numbers. */
    method Encode(pred: Predicate, scope: Option<Area>) returns (term: Term)
      requires Valid()
      modifies this`commands, this`paths, this`names, this`equals
      ensures Valid() && Larger(old(Value()), Value())
      ensures Known(Value(), pred, scope) && term == Encoded(Value(), pred, scope)
      decreases pred, 1
    {
      hide Valid, ArgumentKnown, ArgumentTerm, SumTerm, Kinds;
      match pred
      case OnCommand(command) =>
        var number := CommandNumber(command, scope);
        term := Var(CommandAtom(number));
      case OnPath(path) =>
        var number := PathNumber(path, scope);
        term := Var(PathAtom(number));
      case Dynamic(reasons) => term := Or(Kinds(reasons));
      case OnArgument(argument) => term := Argument(argument);
      case OnSum(sum) => term := Sum(sum);
      case Says(key) => term := Var(SaysAtom(key));
      case Past(key) => term := Var(PastAtom(key, scope));
      case All(of) =>
        var terms := EncodeEach(pred, of, scope);
        term := And(terms);
      case Any(of) =>
        var terms := EncodeEach(pred, of, scope);
        term := Or(terms);
      case Negated(inner) =>
        var encoded := Encode(inner, scope);
        term := Not(encoded);
    }

    method EncodeEach(ghost whole: Predicate, of: seq<Predicate>, scope: Option<Area>) returns (terms: seq<Term>)
      requires Valid() && (whole == All(of) || whole == Any(of))
      modifies this`commands, this`paths, this`names, this`equals
      ensures Valid() && Larger(old(Value()), Value()) && |terms| == |of|
      ensures forall i :: 0 <= i < |of| ==> Known(Value(), of[i], scope) && terms[i] == Encoded(Value(), of[i], scope)
      decreases whole, 0
    {
      hide Valid;
      terms := [];
      for n := 0 to |of|
        invariant Valid() && Larger(old(Value()), Value()) && |terms| == n
        invariant forall i :: 0 <= i < n ==>
                    Known(Value(), of[i], scope) && terms[i] == Encoded(Value(), of[i], scope)
      {
        ghost var before := Value();
        assert of[n] < whole;
        var term := Encode(of[n], scope);
        forall i | 0 <= i < n ensures Known(Value(), of[i], scope) && terms[i] == Encoded(Value(), of[i], scope) {
          EncodedStays(before, Value(), of[i], scope);
        }
        terms := terms + [term];
      }
    }

    method ToolsPart(wanted: seq<string>) returns (terms: seq<Term>)
      requires Valid()
      modifies this`tools
      ensures Valid() && Larger(old(Value()), Value())
      ensures EachIn(wanted, tools) && terms == ToolTerms(Value(), wanted)
    {
      var numbers;
      tools, numbers := NumberEach(tools, wanted);
      terms := Vars(numbers, (n: nat) => ToolAtom(n));
    }

    method DirectoriesPart(under: seq<P.Pattern>) returns (terms: seq<Term>)
      requires Valid()
      modifies this`directories
      ensures Valid() && Larger(old(Value()), Value())
      ensures EachIn(under, directories) && terms == DirectoryTerms(Value(), under)
    {
      var numbers;
      directories, numbers := NumberEach(directories, under);
      SplitStays(old(Value()), Value());
      terms := Vars(numbers, (n: nat) => DirectoryAtom(n));
    }

    method RootsPart(from: seq<P.Pattern>) returns (terms: seq<Term>)
      requires Valid()
      modifies this`roots
      ensures Valid() && Larger(old(Value()), Value())
      ensures EachIn(from, roots) && terms == RootTerms(Value(), from)
    {
      var numbers;
      roots, numbers := NumberEach(roots, from);
      SplitStays(old(Value()), Value());
      terms := Vars(numbers, (n: nat) => RootAtom(n));
    }

    method AreaNumber(area: Area) returns (number: nat)
      requires Valid() && EachIn(area.under, directories) && EachIn(area.roots, roots)
      modifies this`areas
      ensures Valid() && Larger(old(Value()), Value())
      ensures area in areas && number == Number(areas, area)
    {
      areas, number := Numbered(areas, area);
    }

    /** `_Model.scope`: tools, and directories or repositories or both as one area. */
    method Scope(wanted: seq<string>, area: Area) returns (term: Term)
      requires Valid()
      modifies this`tools, this`directories, this`roots, this`areas
      ensures Valid() && Larger(old(Value()), Value())
      ensures ScopeKnown(Value(), wanted, area) && term == ScopeTerm(Value(), wanted, area)
    {
      hide Valid, EachIn, ToolTerms, DirectoryTerms, RootTerms;
      var named := ToolsPart(wanted);
      ghost var first := Value();
      var under := DirectoriesPart(area.under);
      ghost var second := Value();
      var from := RootsPart(area.roots);
      ghost var third := Value();
      var parts := if wanted == [] then [] else [Or(named)];
      if Combined(area) {
        var number := AreaNumber(area);
        parts := parts + [Var(AreaAtom(number))];
      } else if area.under != [] {
        parts := parts + [Or(under)];
      } else if area.roots != [] {
        parts := parts + [Or(from)];
      }
      term := And(parts);
      NoKeys(tools);
      SameTerms(first, second, third, Value(), wanted, area);
      assert parts == (if wanted == [] then [] else [Or(ToolTerms(Value(), wanted))]) + AreaTerms(Value(), area);
    }

    /** `_Linter._case` */
    method Encase(rule: Rule) returns (c: Case)
      requires Valid()
      modifies this
      ensures Valid() && Larger(old(Value()), Value())
      ensures RuleKnown(Value(), rule) && c == CaseOf(Value(), rule)
    {
      var scope := Scope(rule.tools, rule.area);
      ghost var before := Value();
      var holds := Encode(rule.when, ViewOf(rule.area));
      ScopeStays(before, Value(), rule.tools, rule.area);
      var fires := if rule.obligation then Not(holds) else holds;
      c := Case(scope, fires, And([scope, fires]));
    }

    /** The cases of all rules, in the order of the ledger. */
    method EncaseAll(rules: seq<Rule>) returns (cases: seq<Case>)
      requires Valid()
      modifies this
      ensures Valid() && |cases| == |rules|
      ensures forall i :: 0 <= i < |rules| ==> RuleKnown(Value(), rules[i]) && cases[i] == CaseOf(Value(), rules[i])
    {
      cases := [];
      for n := 0 to |rules|
        invariant Valid() && |cases| == n
        invariant forall i :: 0 <= i < n ==> RuleKnown(Value(), rules[i]) && cases[i] == CaseOf(Value(), rules[i])
      {
        ghost var before := Value();
        var c := Encase(rules[n]);
        forall i | 0 <= i < n ensures RuleKnown(Value(), rules[i]) && cases[i] == CaseOf(Value(), rules[i]) {
          CaseStays(before, Value(), rules[i]);
        }
        cases := cases + [c];
      }
    }

    method PairsOf(side: Pair) returns (known: seq<Term>)
      requires Valid()
      ensures known == Pairs(world, Value(), side)
    {
      hide PairAxiom;
      known := [];
      for i := 0 to Count(Value(), side)
        invariant known == PairRows(world, Value(), side, i)
      {
        var row: seq<Term> := [];
        for j := 0 to Count(Value(), side)
          invariant row == PairRow(world, Value(), side, i, j)
        {
          if i != j { row := row + PairAxiom(world, Value(), side, i, j); }
        }
        known := known + row;
      }
    }

    method SinglesOf(side: Single) returns (known: seq<Term>)
      requires Valid()
      ensures known == Singles(world, Value(), side)
    {
      hide SingleAxiom;
      known := [];
      for i := 0 to Size(Value(), side)
        invariant known == SingleRows(world, Value(), side, i)
      {
        known := known + SingleAxiom(world, Value(), side, i);
      }
    }

    /** What is certain about any call. */
    method Axioms() returns (known: seq<Term>)
      requires Valid()
      ensures known == AllAxioms(world, Value())
    {
      hide Pairs, Singles;
      var parts := SinglesOf(Parts);
      var areas' := PairsOf(Areas);
      var every := SinglesOf(AnyTools);
      var tools' := PairsOf(Tools);
      var named := SinglesOf(NamedTools);
      var shells := SinglesOf(CommandCarriers);
      var kinds := SinglesOf(KindCarriers);
      var files := SinglesOf(PathCarriers);
      var equal := SinglesOf(Equalities);
      var constants := PairsOf(Constants);
      var numbers := SinglesOf(NumericNames);
      var commands' := PairsOf(Commands);
      var paths' := PairsOf(Paths);
      var directories' := PairsOf(Directories);
      known := (parts + areas') + (every + tools' + Unnamed(world) + named + shells + kinds + files) +
               (equal + constants + numbers) + commands' + paths' + directories';
    }
  }

  lemma DistinctTools() ensures Distinct(SHELL_TOOLS + FILE_TOOLS) {}

  /** Terms of one table do not depend on the others. */
  lemma SameTerms(first: Tables, second: Tables, third: Tables, last: Tables, wanted: seq<string>, area: Area)
    requires EachIn(wanted, first.tools) && EachIn(area.under, second.directories) && EachIn(area.roots, third.roots)
    requires last.tools == first.tools && last.directories == second.directories && last.roots == third.roots
    ensures ToolTerms(last, wanted) == ToolTerms(first, wanted)
    ensures DirectoryTerms(last, area.under) == DirectoryTerms(second, area.under)
    ensures RootTerms(last, area.roots) == RootTerms(third, area.roots)
  {
  }

  lemma NoKeys<T>(table: seq<T>) ensures EachIn([], table) {}

  function Vars(numbers: seq<nat>, atom: nat -> Atom): seq<Term> {
    seq(|numbers|, i requires 0 <= i < |numbers| => Var(atom(numbers[i])))
  }

  /** Numbers for several keys. */
  method NumberEach<T(==)>(table: seq<T>, keys: seq<T>) returns (more: seq<T>, numbers: seq<nat>)
    requires Distinct(table)
    ensures Distinct(more) && table <= more && EachIn(keys, more) && |numbers| == |keys|
    ensures forall i :: 0 <= i < |keys| ==> numbers[i] == Number(more, keys[i])
  {
    more, numbers := table, [];
    for n := 0 to |keys|
      invariant Distinct(more) && table <= more && |numbers| == n
      invariant forall i :: 0 <= i < n ==> keys[i] in more && numbers[i] == Number(more, keys[i])
    {
      ghost var before := more;
      var number;
      more, number := Numbered(more, keys[n]);
      forall i | 0 <= i < n ensures keys[i] in more && numbers[i] == Number(more, keys[i]) {
        NumberStays(before, more, keys[i]);
      }
      numbers := numbers + [number];
    }
  }

  lemma SplitStays(t: Tables, u: Tables)
    requires Split(t) && Larger(t, u) && u.areas == t.areas
    ensures Split(u)
  {
    forall i | 0 <= i < |u.areas|
      ensures EachIn(u.areas[i].under, u.directories) && EachIn(u.areas[i].roots, u.roots)
    {
      EachStays(t.areas[i].under, t.directories, u.directories);
      EachStays(t.areas[i].roots, t.roots, u.roots);
    }
  }
}
