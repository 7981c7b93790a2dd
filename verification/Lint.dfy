/**
  Lint's symbolic description of a call (`_Model` in ember_armor/ledger/lint.py), and what the
  gate evaluates instead (`_holds` and `judge` in ember_armor/ledger/engine.py).
 */
module Lint {
  import opened Prelude
  import opened Arguments
  import opened Views
  import C = CommandRules
  import P = PathRules

  // ---- the gate ---------------------------------------------------------------------

  /** `Says` is a question to the text or the variables of a call, `Past` one to its session. */
  datatype Predicate =
    | OnCommand(command: C.CommandPred)
    | OnPath(path: P.PathPred)
    | Dynamic(reasons: seq<string>)
    | OnArgument(argument: ArgPred)
    | OnSum(sum: SumPred)
    | Says(key: string)
    | Past(key: string)
    | All(of: seq<Predicate>)
    | Any(of: seq<Predicate>)
    | Negated(inner: Predicate)

  /** A rule fires when its predicate holds of what it sees, or, for an obligation, when it does not. */
  datatype Rule = Rule(tools: seq<string>, area: Area, when: Predicate, obligation: bool)

  const DYNAMIC_KINDS: seq<string> := [
    "parse_error", "eval", "variable_command", "nested_dynamic", "encoded_command",
    "pipe_to_shell", "decoder_pipe", "download_pipe"]

  const SHELL_TOOLS: seq<string> := [
    "Bash", "PowerShell", "mcp__Windows-MCP__PowerShell", "mcp__terminal__run_in_terminal"]

  const FILE_TOOLS: seq<string> := ["Read", "Write", "Edit", "MultiEdit", "NotebookEdit", "Grep"]

  predicate DynamicHolds(reasons: seq<string>, dynamic: seq<string>) {
    if reasons == [] then dynamic != [] else exists i :: 0 <= i < |dynamic| && dynamic[i] in reasons
  }

  /** `_holds`, on the part of a call that lies in the scope of the rule. */
  predicate Holds(w: World, pred: Predicate, scope: Option<Area>, part: Call) {
    match pred
    case OnCommand(command) => CommandHolds(w, command, part)
    case OnPath(path) => PathHolds(w, path, part)
    case Dynamic(reasons) => DynamicHolds(reasons, part.dynamic)
    case OnArgument(argument) => ArgHolds(part.arguments, argument)
    case OnSum(sum) => SumHolds(part.arguments, sum)
    case Says(key) => part.says(key)
    case Past(key) => w.past(key, scope, part)
    case All(of) => forall i :: 0 <= i < |of| ==> Holds(w, of[i], scope, part)
    case Any(of) => exists i :: 0 <= i < |of| && Holds(w, of[i], scope, part)
    case Negated(inner) => !Holds(w, inner, scope, part)
  }

  predicate ForTool(w: World, tools: seq<string>, tool: string) {
    tools == [] || exists i :: 0 <= i < |tools| && w.texts.fnmatch(tool, tools[i])
  }

  /** The scope covers the call, or a part of it. */
  predicate Covers(w: World, tools: seq<string>, area: Area, call: Call) {
    ForTool(w, tools, call.tool) && View(w, call, ViewOf(area)).Some?
  }

  predicate Fires(w: World, rule: Rule, call: Call) {
    Covers(w, rule.tools, rule.area, call) &&
    Holds(w, rule.when, ViewOf(rule.area), View(w, call, ViewOf(rule.area)).value) != rule.obligation
  }

  // ---- solver terms -------------------------------------------------------------------

  datatype Atom =
    | ToolAtom(number: nat)
    | Another               // a shell tool that no rule names
    | DirectoryAtom(number: nat)
    | RootAtom(number: nat)
    | AreaAtom(number: nat)
    | CommandAtom(number: nat)
    | PathAtom(number: nat)
    | KindAtom(kind: string)
    | EqualAtom(number: nat)
    | Present(name: string)
    | Numeric(name: string)
    | MatchAtom(name: string, pattern: string)
    | EndlessAtom(argument: ArgPred)
    | SaysAtom(key: string)
    | PastAtom(key: string, scope: Option<Area>)

  datatype Term =
    | Var(atom: Atom)
    | And(terms: seq<Term>)
    | Or(terms: seq<Term>)
    | Not(term: Term)
    | Implies(left: Term, right: Term)
    | If(test: Term, left: Term, right: Term)
    | Compare(addends: seq<Addend>, op: Op, bound: real)

  /** The truth of every atom, and the number of every argument. */
  datatype Valuation = Valuation(truth: Atom -> bool, number: string -> real)

  predicate True(term: Term, v: Valuation) {
    match term
    case Var(atom) => v.truth(atom)
    case And(terms) => forall i :: 0 <= i < |terms| ==> True(terms[i], v)
    case Or(terms) => exists i :: 0 <= i < |terms| && True(terms[i], v)
    case Not(inner) => !True(inner, v)
    case Implies(left, right) => True(left, v) ==> True(right, v)
    case If(test, left, right) => if True(test, v) then True(left, v) else True(right, v)
    case Compare(addends, op, bound) => Ordered(Total(addends, v.number), op, bound)
  }

  predicate AllTrue(terms: seq<Term>, v: Valuation) { forall i :: 0 <= i < |terms| ==> True(terms[i], v) }

  /** The solver's "unsatisfiable". */
  ghost predicate Unsatisfiable(terms: seq<Term>) { forall v: Valuation :: !AllTrue(terms, v) }

  // ---- the tables -------------------------------------------------------------------------

  /** The atom tables: what has number `n` is the `n`-th that was met. */
  datatype Tables = Tables(
    tools: seq<string>, directories: seq<P.Pattern>, roots: seq<P.Pattern>, areas: seq<Area>,
    commands: seq<(C.CommandPred, Option<Area>)>, paths: seq<(P.PathPred, Option<Area>)>,
    names: seq<string>, equals: seq<(string, Json)>)

  predicate Distinct<T(==)>(s: seq<T>) { forall i, j :: 0 <= i < j < |s| ==> s[i] != s[j] }

  predicate Clean(t: Tables) {
    Distinct(t.tools) && Distinct(t.directories) && Distinct(t.roots) && Distinct(t.areas) &&
    Distinct(t.commands) && Distinct(t.paths) && Distinct(t.names) && Distinct(t.equals)
  }

  predicate Larger(t: Tables, u: Tables) {
    t.tools <= u.tools && t.directories <= u.directories && t.roots <= u.roots && t.areas <= u.areas &&
    t.commands <= u.commands && t.paths <= u.paths && t.names <= u.names && t.equals <= u.equals
  }

  /** The built-in tools have an atom each. */
  predicate Opened(t: Tables) { SHELL_TOOLS + FILE_TOOLS <= t.tools }

  function Number<T(==)>(table: seq<T>, key: T): (n: nat)
    requires key in table
    ensures n < |table| && table[n] == key
  {
    if table[0] == key then 0 else 1 + Number(table[1..], key)
  }

  lemma {:induction false} NumberStays<T>(table: seq<T>, more: seq<T>, key: T)
    requires key in table && table <= more
    ensures key in more && Number(more, key) == Number(table, key)
    decreases table
  {
    assert more[..|table|] == table;
    assert more[0] == table[0];
    assert forall x :: x in table ==> x in more by {
      forall x | x in table ensures x in more {
        var i :| 0 <= i < |table| && table[i] == x;
        assert more[i] == x;
      }
    }
    if table[0] != key { NumberStays(table[1..], more[1..], key); }
  }

  /** `_atom` */
  method Numbered<T(==)>(table: seq<T>, key: T) returns (more: seq<T>, number: nat)
    requires Distinct(table)
    ensures Distinct(more) && table <= more && key in more && number == Number(more, key)
    ensures more == if key in table then table else table + [key]
  {
    more := if key in table then table else table + [key];
    number := Number(more, key);
  }

  // ---- the encoding -----------------------------------------------------------------------

  predicate ArgumentKnown(t: Tables, argument: ArgPred) {
    argument.name in t.names &&
    match argument
    case Matches(_, _) => true
    case In(name, values) => forall i :: 0 <= i < |values| ==> (name, values[i]) in t.equals
    case Against(name, op, value) =>
      !value.Endless? && (!value.Num? || op.Equal? || op.Unequal?) ==> (name, value) in t.equals
  }

  function EqualTerm(t: Tables, name: string, value: Json): Term
    requires (name, value) in t.equals
  {
    Var(EqualAtom(Number(t.equals, (name, value))))
  }

  /** `_arg` */
  function ArgumentTerm(t: Tables, argument: ArgPred): Term
    requires ArgumentKnown(t, argument)
  {
    match argument
    case Matches(name, pattern) => And([Var(Present(name)), Var(MatchAtom(name, pattern))])
    case In(name, values) => Or(seq(|values|, i requires 0 <= i < |values| => EqualTerm(t, name, values[i])))
    case Against(name, op, value) =>
      if value.Endless? then Var(EndlessAtom(argument))
      else if !value.Num? then
        var same := EqualTerm(t, name, value);
        if op.Equal? then same
        else if op.Unequal? then And([Var(Present(name)), Not(same)])
        else Or([])
      else
        var compared := Compare([Addend(1.0, name)], op, value.r);
        if op.Equal? then If(Var(Numeric(name)), compared, EqualTerm(t, name, value))
        else if op.Unequal? then
          If(Var(Numeric(name)), compared, And([Var(Present(name)), Not(EqualTerm(t, name, value))]))
        else And([Var(Numeric(name)), compared])
  }

  predicate NamesKnown(t: Tables, addends: seq<Addend>) {
    forall i :: 0 <= i < |addends| ==> addends[i].name in t.names
  }

  /** `_expr` */
  function SumTerm(sum: SumPred): Term {
    var numeric := seq(|sum.addends|, i requires 0 <= i < |sum.addends| => Var(Numeric(sum.addends[i].name)));
    And(numeric + [Compare(sum.addends, sum.op, sum.bound)])
  }

  predicate Known(t: Tables, pred: Predicate, scope: Option<Area>) {
    match pred
    case OnCommand(command) => (command, scope) in t.commands
    case OnPath(path) => (path, scope) in t.paths
    case OnArgument(argument) => ArgumentKnown(t, argument)
    case OnSum(sum) => NamesKnown(t, sum.addends)
    case All(of) => forall i :: 0 <= i < |of| ==> Known(t, of[i], scope)
    case Any(of) => forall i :: 0 <= i < |of| ==> Known(t, of[i], scope)
    case Negated(inner) => Known(t, inner, scope)
    case _ => true
  }

  function Kinds(reasons: seq<string>): seq<Term> {
    var kinds := if reasons == [] then DYNAMIC_KINDS else reasons;
    seq(|kinds|, i requires 0 <= i < |kinds| => Var(KindAtom(kinds[i])))
  }

  /** `_Model.predicate`, once every atom has its number. */
  function Encoded(t: Tables, pred: Predicate, scope: Option<Area>): Term
    requires Known(t, pred, scope)
  {
    match pred
    case OnCommand(command) => Var(CommandAtom(Number(t.commands, (command, scope))))
    case OnPath(path) => Var(PathAtom(Number(t.paths, (path, scope))))
    case Dynamic(reasons) => Or(Kinds(reasons))
    case OnArgument(argument) => ArgumentTerm(t, argument)
    case OnSum(sum) => SumTerm(sum)
    case Says(key) => Var(SaysAtom(key))
    case Past(key) => Var(PastAtom(key, scope))
    case All(of) => And(seq(|of|, i requires 0 <= i < |of| => Encoded(t, of[i], scope)))
    case Any(of) => Or(seq(|of|, i requires 0 <= i < |of| => Encoded(t, of[i], scope)))
    case Negated(inner) => Not(Encoded(t, inner, scope))
  }

  /** Directories that are combined with exceptions or repositories are one atom. */
  predicate Combined(area: Area) { area.excluded != [] || (area.under != [] && area.roots != []) }

  predicate EachIn<T(==)>(keys: seq<T>, table: seq<T>) { forall i :: 0 <= i < |keys| ==> keys[i] in table }

  predicate ScopeKnown(t: Tables, tools: seq<string>, area: Area) {
    EachIn(tools, t.tools) && EachIn(area.under, t.directories) && EachIn(area.roots, t.roots) &&
    (Combined(area) ==> area in t.areas)
  }

  function ToolTerms(t: Tables, tools: seq<string>): seq<Term>
    requires EachIn(tools, t.tools)
  {
    seq(|tools|, i requires 0 <= i < |tools| => Var(ToolAtom(Number(t.tools, tools[i]))))
  }

  function DirectoryTerms(t: Tables, under: seq<P.Pattern>): seq<Term>
    requires EachIn(under, t.directories)
  {
    seq(|under|, i requires 0 <= i < |under| => Var(DirectoryAtom(Number(t.directories, under[i]))))
  }

  function RootTerms(t: Tables, roots: seq<P.Pattern>): seq<Term>
    requires EachIn(roots, t.roots)
  {
    seq(|roots|, i requires 0 <= i < |roots| => Var(RootAtom(Number(t.roots, roots[i]))))
  }

  function AreaTerms(t: Tables, area: Area): seq<Term>
    requires ScopeKnown(t, [], area)
  {
    if Combined(area) then [Var(AreaAtom(Number(t.areas, area)))]
    else if area.under != [] then [Or(DirectoryTerms(t, area.under))]
    else if area.roots != [] then [Or(RootTerms(t, area.roots))]
    else []
  }

  /** `_Model.scope` */
  function ScopeTerm(t: Tables, tools: seq<string>, area: Area): Term
    requires ScopeKnown(t, tools, area)
  {
    And((if tools == [] then [] else [Or(ToolTerms(t, tools))]) + AreaTerms(t, area))
  }

  predicate RuleKnown(t: Tables, rule: Rule) {
    ScopeKnown(t, rule.tools, rule.area) && Known(t, rule.when, ViewOf(rule.area))
  }

  /** `_Case`: where a rule applies, when it fires there, and both together. */
  datatype Case = Case(scope: Term, fires: Term, applies: Term)

  function FiresTerm(t: Tables, rule: Rule): Term
    requires RuleKnown(t, rule)
  {
    var holds := Encoded(t, rule.when, ViewOf(rule.area));
    if rule.obligation then Not(holds) else holds
  }

  function CaseOf(t: Tables, rule: Rule): Case
    requires RuleKnown(t, rule)
  {
    var scope, fires := ScopeTerm(t, rule.tools, rule.area), FiresTerm(t, rule);
    Case(scope, fires, And([scope, fires]))
  }

  // ---- terms stay as they are when more atoms are numbered -----------------------------------

  lemma ArgumentStays(t: Tables, u: Tables, argument: ArgPred)
    requires ArgumentKnown(t, argument) && Larger(t, u)
    ensures ArgumentKnown(u, argument) && ArgumentTerm(u, argument) == ArgumentTerm(t, argument)
  {
    NumberStays(t.names, u.names, argument.name);
    match argument
    case Matches(_, _) =>
    case In(name, values) =>
      forall i | 0 <= i < |values|
        ensures (name, values[i]) in u.equals && EqualTerm(u, name, values[i]) == EqualTerm(t, name, values[i])
      {
        NumberStays(t.equals, u.equals, (name, values[i]));
      }
    case Against(name, op, value) =>
      if (name, value) in t.equals { NumberStays(t.equals, u.equals, (name, value)); }
  }

  /** Atoms that are added later change no term. */
  lemma {:induction false} EncodedStays(t: Tables, u: Tables, pred: Predicate, scope: Option<Area>)
    requires Known(t, pred, scope) && Larger(t, u)
    ensures Known(u, pred, scope) && Encoded(u, pred, scope) == Encoded(t, pred, scope)
    decreases pred
  {
    match pred
    case OnCommand(command) => NumberStays(t.commands, u.commands, (command, scope));
    case OnPath(path) => NumberStays(t.paths, u.paths, (path, scope));
    case OnArgument(argument) => ArgumentStays(t, u, argument);
    case OnSum(sum) =>
      forall i | 0 <= i < |sum.addends| ensures sum.addends[i].name in u.names {
        NumberStays(t.names, u.names, sum.addends[i].name);
      }
    case All(of) => forall i | 0 <= i < |of| { EncodedStays(t, u, of[i], scope); }
    case Any(of) => forall i | 0 <= i < |of| { EncodedStays(t, u, of[i], scope); }
    case Negated(inner) => EncodedStays(t, u, inner, scope);
    case _ =>
  }

  lemma EachStays<T>(keys: seq<T>, table: seq<T>, more: seq<T>)
    requires EachIn(keys, table) && table <= more
    ensures EachIn(keys, more)
    ensures forall i :: 0 <= i < |keys| ==> Number(more, keys[i]) == Number(table, keys[i])
  {
    forall i | 0 <= i < |keys| ensures keys[i] in more && Number(more, keys[i]) == Number(table, keys[i]) {
      NumberStays(table, more, keys[i]);
    }
  }

  lemma ScopeStays(t: Tables, u: Tables, tools: seq<string>, area: Area)
    requires ScopeKnown(t, tools, area) && Larger(t, u)
    ensures ScopeKnown(u, tools, area) && ScopeTerm(u, tools, area) == ScopeTerm(t, tools, area)
  {
    EachStays(tools, t.tools, u.tools);
    EachStays(area.under, t.directories, u.directories);
    EachStays(area.roots, t.roots, u.roots);
    if Combined(area) { NumberStays(t.areas, u.areas, area); }
    assert ToolTerms(u, tools) == ToolTerms(t, tools);
    assert DirectoryTerms(u, area.under) == DirectoryTerms(t, area.under);
    assert RootTerms(u, area.roots) == RootTerms(t, area.roots);
  }

  /** So the terms of a rule are still its terms when all other rules were encoded. */
  lemma CaseStays(t: Tables, u: Tables, rule: Rule)
    requires RuleKnown(t, rule) && Larger(t, u)
    ensures RuleKnown(u, rule) && CaseOf(u, rule) == CaseOf(t, rule)
  {
    ScopeStays(t, u, rule.tools, rule.area);
    EncodedStays(t, u, rule.when, ViewOf(rule.area));
  }
}
