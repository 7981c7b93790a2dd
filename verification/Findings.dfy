/**
  What lint reports is so: every call is a valuation of the atoms under which the axioms hold,
  and the terms of rules say what the gate computes (ember_armor/ledger/lint.py against
  ember_armor/ledger/engine.py).
 */
module Findings {
  import opened Prelude
  import opened Arguments
  import opened Views
  import opened Lint
  import opened LintModel
  import Globs
  import C = CommandRules
  import P = PathRules

  // ---- a call as a valuation -------------------------------------------------------------------

  function DirectoryScope(pattern: P.Pattern): Option<Area> { Some(Area([pattern], [], [])) }

  function RepositoryScope(pattern: P.Pattern): Option<Area> { Some(Area([], [], [pattern])) }

  predicate Sees(w: World, call: Call, scope: Option<Area>) { View(w, call, scope).Some? }

  predicate CommandSeen(w: World, call: Call, pred: C.CommandPred, scope: Option<Area>) {
    Sees(w, call, scope) && CommandHolds(w, pred, View(w, call, scope).value)
  }

  predicate PathSeen(w: World, call: Call, pred: P.PathPred, scope: Option<Area>) {
    Sees(w, call, scope) && PathHolds(w, pred, View(w, call, scope).value)
  }

  predicate ArgumentIs(call: Call, name: string, value: Json) {
    call.arguments.at(name).Some? && Same(call.arguments.at(name).value, value)
  }

  predicate Valued(w: World, t: Tables, call: Call, atom: Atom) {
    match atom
    case ToolAtom(n) => n < |t.tools| && w.texts.fnmatch(call.tool, t.tools[n])
    case Another =>
      w.carriers != [] && CarriesShell(w, call.tool) && (call.tool !in t.tools || Wildcarded(call.tool))
    case DirectoryAtom(n) => n < |t.directories| && Sees(w, call, DirectoryScope(t.directories[n]))
    case RootAtom(n) => n < |t.roots| && Sees(w, call, RepositoryScope(t.roots[n]))
    case AreaAtom(n) => n < |t.areas| && Sees(w, call, Some(t.areas[n]))
    case CommandAtom(n) => n < |t.commands| && CommandSeen(w, call, t.commands[n].0, t.commands[n].1)
    case PathAtom(n) => n < |t.paths| && PathSeen(w, call, t.paths[n].0, t.paths[n].1)
    case KindAtom(kind) => kind in call.dynamic
    case EqualAtom(n) => n < |t.equals| && ArgumentIs(call, t.equals[n].0, t.equals[n].1)
    case Present(name) => call.arguments.at(name).Some?
    case Numeric(name) => Argument(call.arguments, name).Some?
    case MatchAtom(name, pattern) => ArgHolds(call.arguments, Matches(name, pattern))
    case EndlessAtom(argument) => ArgHolds(call.arguments, argument)
    case SaysAtom(key) => call.says(key)
    case PastAtom(key, scope) => Sees(w, call, scope) && w.past(key, scope, View(w, call, scope).value)
  }

  function Induced(w: World, t: Tables, call: Call): Valuation {
    Valuation(atom => Valued(w, t, call, atom), Numbers(call.arguments))
  }

  lemma AtomTrue(w: World, t: Tables, call: Call, atom: Atom)
    ensures True(Var(atom), Induced(w, t, call)) == Valued(w, t, call, atom)
  {
  }

  lemma EqualTrue(w: World, t: Tables, call: Call, name: string, value: Json)
    requires (name, value) in t.equals
    ensures True(EqualTerm(t, name, value), Induced(w, t, call)) == ArgumentIs(call, name, value)
  {
    AtomTrue(w, t, call, EqualAtom(Number(t.equals, (name, value))));
  }

  // ---- the terms of predicates ---------------------------------------------------------------

  /** The parsers mark a call with kinds of this list only. */
  predicate KnownKinds(call: Call) { forall i :: 0 <= i < |call.dynamic| ==> call.dynamic[i] in DYNAMIC_KINDS }

  /** `dynamic_shell` and its atoms agree exactly when the call is marked with no kind, or
      with one that lint knows or the rule names. */
  lemma DynamicAgreesExactly(w: World, t: Tables, reasons: seq<string>, call: Call)
    ensures (True(Or(Kinds(reasons)), Induced(w, t, call)) <==> DynamicHolds(reasons, call.dynamic)) <==>
            (reasons == [] && call.dynamic != [] ==>
              exists i :: 0 <= i < |call.dynamic| && call.dynamic[i] in DYNAMIC_KINDS)
  {
    var v, kinds := Induced(w, t, call), Kinds(reasons);
    var names := if reasons == [] then DYNAMIC_KINDS else reasons;
    forall i | 0 <= i < |names| ensures True(kinds[i], v) == (names[i] in call.dynamic) {
      AtomTrue(w, t, call, KindAtom(names[i]));
    }
    hide Induced, Valued, Kinds;
    if True(Or(kinds), v) {
      var i :| 0 <= i < |kinds| && True(kinds[i], v);
      var j :| 0 <= j < |call.dynamic| && call.dynamic[j] == names[i];
    }
    if exists i :: 0 <= i < |call.dynamic| && call.dynamic[i] in names {
      var i :| 0 <= i < |call.dynamic| && call.dynamic[i] in names;
      var j :| 0 <= j < |names| && names[j] == call.dynamic[i];
      assert True(kinds[j], v);
    }
  }

  lemma ComparedAlone(v: Valuation, name: string, op: Op, bound: real)
    ensures True(Compare([Addend(1.0, name)], op, bound), v) == Ordered(v.number(name), op, bound)
  {
    var addends := [Addend(1.0, name)];
    assert Init(addends) == [] && Total([], v.number) == 0.0;
    assert Total(addends, v.number) == v.number(name);
  }

  /** On the valuation a call induces, the term of an argument predicate says what the gate computes. */
  lemma ArgumentAgrees(w: World, t: Tables, argument: ArgPred, call: Call)
    requires ArgumentKnown(t, argument)
    ensures True(ArgumentTerm(t, argument), Induced(w, t, call)) == ArgHolds(call.arguments, argument)
  {
    var v := Induced(w, t, call);
    match argument
    case Matches(name, pattern) =>
      AtomTrue(w, t, call, Present(name));
      AtomTrue(w, t, call, MatchAtom(name, pattern));
      TwoTrue(Var(Present(name)), Var(MatchAtom(name, pattern)), v);
    case In(name, values) =>
      forall i | 0 <= i < |values|
        ensures True(EqualTerm(t, name, values[i]), v) == ArgumentIs(call, name, values[i])
      {
        EqualTrue(w, t, call, name, values[i]);
      }
      InAgrees(t, name, values, v, call);
    case Against(name, op, value) =>
      if value.Endless? { AtomTrue(w, t, call, EndlessAtom(argument)); } else { AgainstAgrees(w, t, argument, call); }
  }

  lemma InAgrees(t: Tables, name: string, values: seq<Json>, v: Valuation, call: Call)
    requires ArgumentKnown(t, In(name, values))
    requires forall i :: 0 <= i < |values| ==>
               True(EqualTerm(t, name, values[i]), v) == ArgumentIs(call, name, values[i])
    ensures True(ArgumentTerm(t, In(name, values)), v) == ArgHolds(call.arguments, In(name, values))
  {
    hide EqualTerm, Same;
    var terms := seq(|values|, i requires 0 <= i < |values| => EqualTerm(t, name, values[i]));
    if True(Or(terms), v) {
      var i :| 0 <= i < |terms| && True(terms[i], v);
      assert ArgumentIs(call, name, values[i]);
    }
    if ArgHolds(call.arguments, In(name, values)) {
      var i :| 0 <= i < |values| && Same(call.arguments.at(name).value, values[i]);
      assert ArgumentIs(call, name, values[i]) && True(terms[i], v);
    }
  }

  lemma AgainstAgrees(w: World, t: Tables, argument: ArgPred, call: Call)
    requires argument.Against? && !argument.value.Endless? && ArgumentKnown(t, argument)
    ensures True(ArgumentTerm(t, argument), Induced(w, t, call)) == ArgHolds(call.arguments, argument)
  {
    hide View, CommandHolds, PathHolds, Total, EqualTerm, Number;
    var v, name, op, value := Induced(w, t, call), argument.name, argument.op, argument.value;
    var present, numeric := Var(Present(name)), Var(Numeric(name));
    AtomTrue(w, t, call, Present(name));
    AtomTrue(w, t, call, Numeric(name));
    NumberTrue(w, t, call, name);
    hide Induced, Valued;
    assert True(present, v) == call.arguments.at(name).Some?;
    assert True(numeric, v) == Argument(call.arguments, name).Some?;
    if (name, value) in t.equals {
      var same := EqualTerm(t, name, value);
      EqualTrue(w, t, call, name, value);
      TwoTrue(present, Not(same), v);
    }
    if value.Num? {
      ComparedAlone(v, name, op, value.r);
      TwoTrue(numeric, Compare([Addend(1.0, name)], op, value.r), v);
    }
  }

  lemma NumberTrue(w: World, t: Tables, call: Call, name: string)
    ensures Valued(w, t, call, Present(name)) == call.arguments.at(name).Some?
    ensures Valued(w, t, call, Numeric(name)) == Argument(call.arguments, name).Some?
    ensures Argument(call.arguments, name).Some? ==>
              Induced(w, t, call).number(name) == Argument(call.arguments, name).value
  {
  }

  lemma TwoTrue(a: Term, b: Term, v: Valuation)
    ensures True(And([a, b]), v) == (True(a, v) && True(b, v))
  {
    assert [a, b][0] == a && [a, b][1] == b;
  }

  lemma SumAgrees(w: World, t: Tables, sum: SumPred, call: Call)
    ensures True(SumTerm(sum), Induced(w, t, call)) == SumHolds(call.arguments, sum)
  {
    var v, a, terms, n := Induced(w, t, call), call.arguments, SumTerm(sum).terms, |sum.addends|;
    assert v.number == Numbers(a);
    assert terms[n] == Compare(sum.addends, sum.op, sum.bound);
    forall i | 0 <= i < n ensures True(terms[i], v) == Argument(a, sum.addends[i].name).Some? {
      AtomTrue(w, t, call, Numeric(sum.addends[i].name));
      NumberTrue(w, t, call, sum.addends[i].name);
      hide Induced, Valued;
      assert terms[i] == Var(Numeric(sum.addends[i].name));
    }
    hide Induced, Valued, Total, Argument;
    if True(SumTerm(sum), v) {
      forall i | 0 <= i < n ensures Argument(a, sum.addends[i].name).Some? { assert True(terms[i], v); }
      assert True(terms[n], v);
    }
  }

  lemma CommandTrue(w: World, t: Tables, call: Call, command: C.CommandPred, scope: Option<Area>)
    requires (command, scope) in t.commands
    ensures True(Var(CommandAtom(Number(t.commands, (command, scope)))), Induced(w, t, call)) ==
            CommandSeen(w, call, command, scope)
  {
    AtomTrue(w, t, call, CommandAtom(Number(t.commands, (command, scope))));
  }

  lemma PathTrue(w: World, t: Tables, call: Call, path: P.PathPred, scope: Option<Area>)
    requires (path, scope) in t.paths
    ensures True(Var(PathAtom(Number(t.paths, (path, scope)))), Induced(w, t, call)) == PathSeen(w, call, path, scope)
  {
    AtomTrue(w, t, call, PathAtom(Number(t.paths, (path, scope))));
  }

  lemma AskedTrue(w: World, t: Tables, call: Call, key: string, scope: Option<Area>)
    requires Sees(w, call, scope)
    ensures True(Var(SaysAtom(key)), Induced(w, t, call)) == call.says(key)
    ensures True(Var(PastAtom(key, scope)), Induced(w, t, call)) == w.past(key, scope, View(w, call, scope).value)
  {
    AtomTrue(w, t, call, SaysAtom(key));
    AtomTrue(w, t, call, PastAtom(key, scope));
  }

  predicate Compound(pred: Predicate) { pred.All? || pred.Any? || pred.Negated? }

  lemma LeafAgrees(w: World, t: Tables, pred: Predicate, scope: Option<Area>, call: Call)
    requires Known(t, pred, scope) && KnownKinds(call) && Sees(w, call, scope) && !Compound(pred)
    ensures True(Encoded(t, pred, scope), Induced(w, t, call)) ==
            Lint.Holds(w, pred, scope, View(w, call, scope).value)
  {
    var part := View(w, call, scope).value;
    assert part.dynamic == call.dynamic && part.arguments == call.arguments && part.says == call.says by {
      ViewWithin(w, call, scope);
    }
    hide View, Valued, Induced, ArgumentTerm, SumTerm, ArgHolds, SumHolds, DynamicHolds, Kinds, CommandHolds, PathHolds;
    hide True;
    match pred
    case OnCommand(command) => CommandTrue(w, t, call, command, scope);
    case OnPath(path) => PathTrue(w, t, call, path, scope);
    case Dynamic(reasons) => KindsAgree(w, t, reasons, call);
    case OnArgument(argument) => ArgumentAgrees(w, t, argument, call);
    case OnSum(sum) => SumAgrees(w, t, sum, call);
    case Says(key) => AskedTrue(w, t, call, key, scope);
    case Past(key) => AskedTrue(w, t, call, key, scope);
  }

  lemma KindsAgree(w: World, t: Tables, reasons: seq<string>, call: Call)
    requires KnownKinds(call)
    ensures True(Or(Kinds(reasons)), Induced(w, t, call)) == DynamicHolds(reasons, call.dynamic)
  {
    hide Induced, Kinds, DynamicHolds, True;
    DynamicAgreesExactly(w, t, reasons, call);
    assert call.dynamic != [] ==> call.dynamic[0] in DYNAMIC_KINDS;
  }

  /** On the valuation a call induces, the term of a predicate has the value the gate computes
      on what the rule sees. */
  lemma {:induction false} EncodingAgrees(w: World, t: Tables, pred: Predicate, scope: Option<Area>, call: Call)
    requires Known(t, pred, scope) && KnownKinds(call) && Sees(w, call, scope)
    ensures True(Encoded(t, pred, scope), Induced(w, t, call)) ==
            Lint.Holds(w, pred, scope, View(w, call, scope).value)
    decreases pred
  {
    hide View, Valued, Induced, ArgumentTerm, SumTerm, ArgHolds, SumHolds, DynamicHolds, Kinds, CommandHolds, PathHolds;
    var v, part := Induced(w, t, call), View(w, call, scope).value;
    match pred
    case All(of) =>
      var term := Encoded(t, pred, scope);
      forall i | 0 <= i < |of| ensures True(term.terms[i], v) == Lint.Holds(w, of[i], scope, part) {
        EncodingAgrees(w, t, of[i], scope, call);
      }
    case Any(of) =>
      var term := Encoded(t, pred, scope);
      forall i | 0 <= i < |of| ensures True(term.terms[i], v) == Lint.Holds(w, of[i], scope, part) {
        EncodingAgrees(w, t, of[i], scope, call);
      }
    case Negated(inner) => EncodingAgrees(w, t, inner, scope, call);
    case _ => LeafAgrees(w, t, pred, scope, call);
  }

  // ---- the terms of scopes ---------------------------------------------------------------------

  /** Something of a shell call lies in the area. */
  ghost predicate Somewhere(w: World, call: Call, area: Area) {
    (exists c :: c in call.commands && Inside(w, Directory(call, c.where), area) == Some(true)) ||
    (exists p :: p in call.paths && Inside(w, Directory(call, p.where), area) == Some(true))
  }

  lemma ShellSees(w: World, call: Call, area: Area)
    requires call.commands != []
    ensures Sees(w, call, Some(area)) <==> Somewhere(w, call, area)
  {
    hide Inside, Directory;
    var commands, paths := InsideOnes(w, call, call.commands, area), InsideOnes(w, call, call.paths, area);
    if Sees(w, call, Some(area)) {
      if commands != [] {
        InsideOnesAre(w, call, call.commands, area, commands[0]);
      } else {
        InsideOnesAre(w, call, call.paths, area, paths[0]);
      }
    }
    if c :| c in call.commands && Inside(w, Directory(call, c.where), area) == Some(true) {
      InsideOnesAre(w, call, call.commands, area, c);
    }
    if p :| p in call.paths && Inside(w, Directory(call, p.where), area) == Some(true) {
      InsideOnesAre(w, call, call.paths, area, p);
    }
  }

  /** A choice among directories: what lies under them lies under one of them. */
  lemma UnderEach(w: World, d: Option<string>, under: seq<P.Pattern>)
    requires under != []
    ensures Inside(w, d, Area(under, [], [])) == Some(true) <==>
            exists i :: 0 <= i < |under| && Inside(w, d, Area([under[i]], [], [])) == Some(true)
  {
    hide Globs.IsUnder;
    if d.Some? {
      forall i | 0 <= i < |under|
        ensures UnderAny(w, d.value, [under[i]]) <==> Globs.IsUnder(w.classes, d.value, under[i].text)
      {
        assert [under[i]][0] == under[i];
      }
    }
  }

  lemma FileSees(w: World, call: Call, area: Area)
    requires call.commands == [] && area.roots == [] && area.under != []
    ensures Sees(w, call, Some(area)) <==> Inside(w, MadeIn(call), area) == Some(true)
  {
  }

  lemma SomeDirectory(w: World, call: Call, under: seq<P.Pattern>)
    requires under != []
    ensures Sees(w, call, Some(Area(under, [], []))) <==>
            exists i :: 0 <= i < |under| && Sees(w, call, DirectoryScope(under[i]))
  {
    var all := Area(under, [], []);
    forall d: Option<string>
      ensures Inside(w, d, all) == Some(true) <==>
              exists i :: 0 <= i < |under| && Inside(w, d, Area([under[i]], [], [])) == Some(true)
    {
      UnderEach(w, d, under);
    }
    if call.commands != [] {
      ShellSees(w, call, all);
      forall i | 0 <= i < |under|
        ensures Sees(w, call, DirectoryScope(under[i])) <==> Somewhere(w, call, Area([under[i]], [], []))
      {
        ShellSees(w, call, Area([under[i]], [], []));
      }
    } else {
      FileSees(w, call, all);
      forall i | 0 <= i < |under|
        ensures Sees(w, call, DirectoryScope(under[i])) <==>
                Inside(w, MadeIn(call), Area([under[i]], [], [])) == Some(true)
      {
        FileSees(w, call, Area([under[i]], [], []));
      }
    }
    hide Sees, Inside, Directory;
  }

  lemma RootedEach(w: World, path: string, roots: seq<P.Pattern>)
    ensures Rooted(w, path, Area([], [], roots)) == Some(true) <==>
            exists i :: 0 <= i < |roots| && Rooted(w, path, Area([], [], [roots[i]])) == Some(true)
  {
    hide Globs.MatchesGlob;
    if w.root(path).RootAt? {
      var d := w.root(path).directory;
      forall i | 0 <= i < |roots|
        ensures NamesRoot(w, d, [roots[i]]) <==> Globs.MatchesGlob(w.classes, d, roots[i].text)
      {
        assert [roots[i]][0] == roots[i];
      }
    }
  }

  lemma InsideRoots(w: World, d: Option<string>, roots: seq<P.Pattern>)
    requires roots != []
    ensures Inside(w, d, Area([], [], roots)) ==
            if d.None? then None else Rooted(w, d.value, Area([], [], roots))
  {
  }

  /** What a call without commands shows of repositories. */
  lemma FileSeesRoots(w: World, call: Call, roots: seq<P.Pattern>)
    requires call.commands == [] && roots != []
    ensures Sees(w, call, Some(Area([], [], roots))) <==>
            if call.paths == [] then call.located && Rooted(w, call.cwd, Area([], [], roots)) == Some(true)
            else exists p :: p in call.paths && Rooted(w, p.it.path, Area([], [], roots)) == Some(true)
  {
    hide Rooted;
    var area := Area([], [], roots);
    assert !Places(area) && forall d :: Fits(w, d, area);
    if call.paths != [] {
      var found := RootedOnes(w, call.paths, area);
      if found != [] { RootedOnesAre(w, call.paths, area, found[0]); }
      if p :| p in call.paths && Rooted(w, p.it.path, area) == Some(true) { RootedOnesAre(w, call.paths, area, p); }
    }
  }

  lemma SomeRoot(w: World, call: Call, roots: seq<P.Pattern>)
    requires roots != []
    ensures Sees(w, call, Some(Area([], [], roots))) <==>
            exists i :: 0 <= i < |roots| && Sees(w, call, RepositoryScope(roots[i]))
  {
    var all := Area([], [], roots);
    forall path: string
      ensures Rooted(w, path, all) == Some(true) <==>
              exists i :: 0 <= i < |roots| && Rooted(w, path, Area([], [], [roots[i]])) == Some(true)
    {
      RootedEach(w, path, roots);
    }
    if call.commands != [] {
      forall d: Option<string>
        ensures Inside(w, d, all) == Some(true) <==>
                exists i :: 0 <= i < |roots| && Inside(w, d, Area([], [], [roots[i]])) == Some(true)
      {
        InsideRoots(w, d, roots);
        forall i | 0 <= i < |roots|
          ensures Inside(w, d, Area([], [], [roots[i]])) ==
                  if d.None? then None else Rooted(w, d.value, Area([], [], [roots[i]]))
        {
          InsideRoots(w, d, [roots[i]]);
        }
      }
      ShellSees(w, call, all);
      forall i | 0 <= i < |roots|
        ensures Sees(w, call, RepositoryScope(roots[i])) <==> Somewhere(w, call, Area([], [], [roots[i]]))
      {
        ShellSees(w, call, Area([], [], [roots[i]]));
      }
    } else {
      FileSeesRoots(w, call, roots);
      forall i | 0 <= i < |roots|
        ensures Sees(w, call, RepositoryScope(roots[i])) <==>
                if call.paths == [] then call.located && Rooted(w, call.cwd, Area([], [], [roots[i]])) == Some(true)
                else exists p :: p in call.paths && Rooted(w, p.it.path, Area([], [], [roots[i]])) == Some(true)
      {
        FileSeesRoots(w, call, [roots[i]]);
      }
    }
    hide Sees, Inside, Directory, Rooted;
  }

  lemma ToolTrue(w: World, t: Tables, call: Call, name: string)
    requires name in t.tools
    ensures True(Var(ToolAtom(Number(t.tools, name))), Induced(w, t, call)) == w.texts.fnmatch(call.tool, name)
  {
    AtomTrue(w, t, call, ToolAtom(Number(t.tools, name)));
  }

  lemma ToolsAgree(w: World, t: Tables, tools: seq<string>, call: Call)
    requires EachIn(tools, t.tools) && tools != []
    ensures True(Or(ToolTerms(t, tools)), Induced(w, t, call)) == ForTool(w, tools, call.tool)
  {
    var terms, v := ToolTerms(t, tools), Induced(w, t, call);
    forall i | 0 <= i < |tools| ensures True(terms[i], v) == w.texts.fnmatch(call.tool, tools[i]) {
      ToolTrue(w, t, call, tools[i]);
    }
    hide Induced, ToolTerms;
    assert forall i :: 0 <= i < |tools| && True(terms[i], v) ==> True(Or(terms), v);
  }

  lemma DirectoryTrue(w: World, t: Tables, call: Call, pattern: P.Pattern)
    requires pattern in t.directories
    ensures True(Var(DirectoryAtom(Number(t.directories, pattern))), Induced(w, t, call)) ==
            Sees(w, call, DirectoryScope(pattern))
  {
    AtomTrue(w, t, call, DirectoryAtom(Number(t.directories, pattern)));
  }

  lemma RootTrue(w: World, t: Tables, call: Call, pattern: P.Pattern)
    requires pattern in t.roots
    ensures True(Var(RootAtom(Number(t.roots, pattern))), Induced(w, t, call)) ==
            Sees(w, call, RepositoryScope(pattern))
  {
    AtomTrue(w, t, call, RootAtom(Number(t.roots, pattern)));
  }

  lemma DirectoriesAgree(w: World, t: Tables, under: seq<P.Pattern>, call: Call)
    requires EachIn(under, t.directories) && under != []
    ensures True(Or(DirectoryTerms(t, under)), Induced(w, t, call)) == Sees(w, call, Some(Area(under, [], [])))
  {
    var terms, v := DirectoryTerms(t, under), Induced(w, t, call);
    forall i | 0 <= i < |under| ensures True(terms[i], v) == Sees(w, call, DirectoryScope(under[i])) {
      DirectoryTrue(w, t, call, under[i]);
    }
    SomeDirectory(w, call, under);
    hide Induced, DirectoryTerms, Sees;
    assert forall i :: 0 <= i < |under| && True(terms[i], v) ==> True(Or(terms), v);
  }

  lemma RootsAgree(w: World, t: Tables, roots: seq<P.Pattern>, call: Call)
    requires EachIn(roots, t.roots) && roots != []
    ensures True(Or(RootTerms(t, roots)), Induced(w, t, call)) == Sees(w, call, Some(Area([], [], roots)))
  {
    var terms, v := RootTerms(t, roots), Induced(w, t, call);
    forall i | 0 <= i < |roots| ensures True(terms[i], v) == Sees(w, call, RepositoryScope(roots[i])) {
      RootTrue(w, t, call, roots[i]);
    }
    SomeRoot(w, call, roots);
    hide Induced, RootTerms, Sees;
    assert forall i :: 0 <= i < |roots| && True(terms[i], v) ==> True(Or(terms), v);
  }

  lemma AreaTrue(w: World, t: Tables, call: Call, area: Area)
    requires area in t.areas
    ensures True(Var(AreaAtom(Number(t.areas, area))), Induced(w, t, call)) == Sees(w, call, Some(area))
  {
    AtomTrue(w, t, call, AreaAtom(Number(t.areas, area)));
  }

  lemma AreaAgrees(w: World, t: Tables, area: Area, call: Call)
    requires ScopeKnown(t, [], area)
    ensures AllTrue(AreaTerms(t, area), Induced(w, t, call)) == Sees(w, call, ViewOf(area))
  {
    var v := Induced(w, t, call);
    NothingToHold(v);
    if Combined(area) {
      AreaTrue(w, t, call, area);
      OneTrue(Var(AreaAtom(Number(t.areas, area))), v);
    } else if area.under != [] {
      DirectoriesAgree(w, t, area.under, call);
      OneTrue(Or(DirectoryTerms(t, area.under)), v);
    } else if area.roots != [] {
      RootsAgree(w, t, area.roots, call);
      OneTrue(Or(RootTerms(t, area.roots)), v);
    } else {
      SeesAll(w, call);
    }
    hide Induced, Sees, DirectoryTerms, RootTerms, True;
  }

  lemma TrueJoin(a: seq<Term>, b: seq<Term>, v: Valuation)
    ensures AllTrue(a + b, v) <==> AllTrue(a, v) && AllTrue(b, v)
  {
    if AllTrue(a + b, v) {
      forall i | 0 <= i < |a| ensures True(a[i], v) { assert (a + b)[i] == a[i]; }
      forall i | 0 <= i < |b| ensures True(b[i], v) { assert (a + b)[|a| + i] == b[i]; }
    }
  }

  lemma AndTrue(terms: seq<Term>, v: Valuation) ensures True(And(terms), v) == AllTrue(terms, v) {}

  lemma OneTrue(term: Term, v: Valuation)
    ensures AllTrue([term], v) == True(term, v)
  {
    assert [term][0] == term;
  }

  lemma NothingToHold(v: Valuation) ensures AllTrue([], v) {}

  /** The term of a scope is true of exactly the calls it covers. */
  lemma ScopeAgrees(w: World, t: Tables, tools: seq<string>, area: Area, call: Call)
    requires ScopeKnown(t, tools, area)
    ensures True(ScopeTerm(t, tools, area), Induced(w, t, call)) == Covers(w, tools, area, call)
  {
    var v := Induced(w, t, call);
    var named := if tools == [] then [] else [Or(ToolTerms(t, tools))];
    AreaAgrees(w, t, area, call);
    if tools != [] {
      ToolsAgree(w, t, tools, call);
      OneTrue(Or(ToolTerms(t, tools)), v);
    } else {
      NothingToHold(v);
    }
    TrueJoin(named, AreaTerms(t, area), v);
    AndTrue(named + AreaTerms(t, area), v);
    hide Induced, AllTrue, True, ToolTerms, AreaTerms, View;
  }

  /** The terms of a rule: where it applies, when it fires there, and when it fires. */
  lemma FiresAgrees(w: World, t: Tables, rule: Rule, call: Call)
    requires RuleKnown(t, rule) && KnownKinds(call)
    ensures var c, v := CaseOf(t, rule), Induced(w, t, call);
            True(c.scope, v) == Covers(w, rule.tools, rule.area, call) &&
            (Covers(w, rule.tools, rule.area, call) ==> True(c.fires, v) == Fires(w, rule, call)) &&
            True(c.applies, v) == Fires(w, rule, call)
  {
    var c, v := CaseOf(t, rule), Induced(w, t, call);
    ScopeAgrees(w, t, rule.tools, rule.area, call);
    TwoTrue(c.scope, c.fires, v);
    if Covers(w, rule.tools, rule.area, call) { EncodingAgrees(w, t, rule.when, ViewOf(rule.area), call); }
    hide Induced, Encoded, ScopeTerm, View, Lint.Holds;
  }

  // ---- the axioms hold for every call -------------------------------------------------------------

  /** A name without wildcards matches itself only, and stars match everything. */
  ghost predicate NamesMatch(texts: C.Texts) {
    forall name, pattern ::
      (!Wildcarded(pattern) ==> (texts.fnmatch(name, pattern) <==> name == pattern)) &&
      (Stars(pattern) ==> texts.fnmatch(name, pattern))
  }

  /** What lint concludes about two patterns or predicates of the tables can be believed. */
  ghost predicate Believable(w: World, t: Tables) {
    var k := w.classes;
    (forall i, j :: 0 <= i < |t.areas| && 0 <= j < |t.areas| ==>
      ScopesBelievable(k, Some(t.areas[i]), Some(t.areas[j]))) &&
    (forall i, j :: 0 <= i < |t.directories| && 0 <= j < |t.directories| ==>
      DirectoriesBelievable(k, t.directories[i], t.directories[j])) &&
    (forall i, j :: 0 <= i < |t.commands| && 0 <= j < |t.commands| ==>
      CommandsBelievable(w, t.commands[i], t.commands[j])) &&
    (forall i, j :: 0 <= i < |t.paths| && 0 <= j < |t.paths| ==> PathsBelievable(w, t.paths[i], t.paths[j]))
  }

  ghost predicate ScopesBelievable(k: Globs.Classes, a: Option<Area>, b: Option<Area>) {
    SeesLess(k, a, b) ==> Comparable(k, a, b)
  }

  ghost predicate DirectoriesBelievable(k: Globs.Classes, a: P.Pattern, b: P.Pattern) {
    P.DirectoryInside(k, a, b) ==> P.Comparable(k, a, b)
  }

  ghost predicate CommandsBelievable(w: World, a: (C.CommandPred, Option<Area>), b: (C.CommandPred, Option<Area>)) {
    SameCommands(w, a.0, b.0) ==> ScopesBelievable(w.classes, a.1, b.1)
  }

  /** Where lint takes one path predicate to imply another in a wider scope, nothing escapes. */
  ghost predicate PathsBelievable(w: World, a: (P.PathPred, Option<Area>), b: (P.PathPred, Option<Area>)) {
    SamePaths(w, a.0, b.0) && SeesLess(w.classes, a.1, b.1) ==>
      if a.1 == b.1 then a.0 == b.0 || P.Believable(w.classes, a.0, b.0)
      else Comparable(w.classes, a.1, b.1) && !Escapes(w.classes, a.0, b.0)
  }

  /** Predicates that cannot be spared can be believed in any two scopes that can be compared. */
  lemma UnsparedIsBelievable(w: World, a: (P.PathPred, Option<Area>), b: (P.PathPred, Option<Area>))
    requires a.0 == b.0 || P.Believable(w.classes, a.0, b.0)
    requires Comparable(w.classes, a.1, b.1) && !CanBeSpared(w.classes, b.0)
    ensures PathsBelievable(w, a, b)
  {
    hide P.PathImplies, P.Believable, Comparable, SeesLess, Escapes, CanBeSpared;
    if SamePaths(w, a.0, b.0) { ImpliedNeverEscapes(w.classes, a.0, b.0); }
  }

  /** Only tools that carry shell commands have them, and paths come from those and the file tools. */
  predicate Carried(w: World, call: Call) {
    (call.commands != [] || call.dynamic != [] ==> CarriesShell(w, call.tool)) &&
    (call.paths != [] ==> CarriesShell(w, call.tool) || call.tool in FILE_TOOLS)
  }

  /** A tool of the tables that carries shell commands matches the call's tool. */
  predicate Named(w: World, t: Tables, call: Call) {
    exists i :: 0 <= i < |t.tools| && CarriesShell(w, t.tools[i]) && w.texts.fnmatch(call.tool, t.tools[i])
  }

  /** A shell tool is spelled as the built-in list or some rule has it, unless the user names tools. */
  predicate Spelled(w: World, t: Tables, call: Call) {
    w.carriers == [] && CarriesShell(w, call.tool) ==> Named(w, t, call)
  }

  /** The calls the theorems speak of. */
  predicate Admissible(w: World, t: Tables, call: Call) {
    KnownKinds(call) && Plain(call) && Carried(w, call) && Spelled(w, t, call)
  }

  lemma LeadsTrue(yes: bool, a: Atom, b: Atom, v: Valuation)
    requires yes && v.truth(a) ==> v.truth(b)
    ensures AllTrue(Leads(yes, a, b), v)
  {
    assert yes ==> True(Implies(Var(a), Var(b)), v);
  }

  lemma ExcludesTrue(yes: bool, a: Atom, b: Atom, v: Valuation)
    requires yes ==> !(v.truth(a) && v.truth(b))
    ensures AllTrue(Excludes(yes, a, b), v)
  {
    TwoTrue(Var(a), Var(b), v);
    assert yes ==> True(Not(And([Var(a), Var(b)])), v);
  }

  lemma ValueTrue(w: World, t: Tables, call: Call, atom: Atom)
    ensures Induced(w, t, call).truth(atom) == Valued(w, t, call, atom)
  {
  }

  lemma AreasFollow(w: World, t: Tables, call: Call, i: nat, j: nat)
    requires Believable(w, t) && Plain(call) && i < |t.areas| && j < |t.areas|
    ensures SeesLess(w.classes, Some(t.areas[i]), Some(t.areas[j])) && Sees(w, call, Some(t.areas[i])) ==>
              Sees(w, call, Some(t.areas[j]))
  {
    assert ScopesBelievable(w.classes, Some(t.areas[i]), Some(t.areas[j]));
    hide SeesLess, Comparable, Plain, Believable;
    if SeesLess(w.classes, Some(t.areas[i]), Some(t.areas[j])) && Sees(w, call, Some(t.areas[i])) {
      PlainParts(call);
      NarrowSeesLess(w, call, Some(t.areas[i]), Some(t.areas[j]));
    }
  }

  lemma PlainParts(call: Call) requires Plain(call) ensures PlainPlaces(call) && PlainPaths(call) {}

  lemma DirectoriesFollow(w: World, t: Tables, call: Call, i: nat, j: nat)
    requires Believable(w, t) && Plain(call) && i < |t.directories| && j < |t.directories|
    requires P.DirectoryInside(w.classes, t.directories[i], t.directories[j])
    requires Sees(w, call, DirectoryScope(t.directories[i]))
    ensures Sees(w, call, DirectoryScope(t.directories[j]))
  {
    var (a, b) := (t.directories[i], t.directories[j]);
    assert DirectoriesBelievable(w.classes, a, b);
    hide P.Comparable, P.DirectoryInside, PlainPlaces, PlainPaths, Believable;
    assert [b][0] == b;
    assert P.InsideOne(w.classes, [a][0], [b]) && P.RightlyInside(w.classes, a, [b]);
    assert SeesLess(w.classes, DirectoryScope(a), DirectoryScope(b));
    NarrowSeesLess(w, call, DirectoryScope(a), DirectoryScope(b));
  }

  lemma CommandsFollow(w: World, call: Call, a: (C.CommandPred, Option<Area>), b: (C.CommandPred, Option<Area>))
    requires Comparable(w.classes, a.1, b.1) && PlainPlaces(call)
    requires SameCommands(w, a.0, b.0) && SeesLess(w.classes, a.1, b.1) && CommandSeen(w, call, a.0, a.1)
    ensures CommandSeen(w, call, b.0, b.1)
  {
    hide C.CommandImplies, C.CommandMatches, View, SeesLess, Comparable, PlainPlaces;
    NarrowSeesLess(w, call, a.1, b.1);
    var part, whole := View(w, call, a.1).value, View(w, call, b.1).value;
    CommandCarries(w, a.0, part, whole);
    if a.0 != b.0 {
      var n :| 0 <= n < |whole.commands| && whole.commands[n].it.argv != [] &&
               C.CommandMatches(w.texts, whole.commands[n].it, a.0, false);
      C.CommandImpliesIsSound(w.texts, a.0, b.0, whole.commands[n].it, false);
    }
  }

  lemma PathsFollow(w: World, call: Call, a: (P.PathPred, Option<Area>), b: (P.PathPred, Option<Area>))
    requires PathsBelievable(w, a, b) && Plain(call)
    requires SamePaths(w, a.0, b.0) && SeesLess(w.classes, a.1, b.1) && PathSeen(w, call, a.0, a.1)
    ensures PathSeen(w, call, b.0, b.1)
  {
    hide P.PathImplies, P.PathMatches, P.Believable, P.Literal, SeesLess, Comparable, View, Escapes, Plain;
    PlainParts(call);
    PlainView(w, call, a.1);
    var part := View(w, call, a.1).value;
    if a.1 == b.1 {
      if a.0 != b.0 { PathImplied(w, a.0, b.0, part); }
    } else {
      NarrowSeesLess(w, call, a.1, b.1);
      PlainView(w, call, b.1);
      assert P.Literal(View(w, call, b.1).value.cwd) by { PlainHome(call); }
      PathCarries(w, a.0, b.0, part, View(w, call, b.1).value);
    }
  }

  lemma PlainHome(call: Call) requires Plain(call) ensures P.Literal(call.cwd) {}

  lemma PathImplied(w: World, a: P.PathPred, b: P.PathPred, part: Call)
    requires P.PathImplies(w.classes, a, b) && P.Believable(w.classes, a, b) && PlainPaths(part)
    requires PathHolds(w, a, part)
    ensures PathHolds(w, b, part)
  {
    hide P.PathImplies, P.PathMatches, P.Believable, P.Literal;
    var facts := Facts(part);
    var n :| 0 <= n < |facts.paths| && P.PathMatches(w.classes, a, facts, facts.paths[n]);
    P.PathImpliesIsSound(w.classes, a, b, facts, facts.paths[n]);
  }

  lemma ToolsFollow(w: World, t: Tables, call: Call, i: nat, j: nat)
    requires NamesMatch(w.texts) && i < |t.tools| && j < |t.tools|
    ensures AllTrue(PairAxiom(w, t, Tools, i, j), Induced(w, t, call))
  {
    var v, a, b := Induced(w, t, call), t.tools[i], t.tools[j];
    NothingToHold(v);
    if !Wildcarded(a) {
      ValueTrue(w, t, call, ToolAtom(i));
      ValueTrue(w, t, call, ToolAtom(j));
      hide Induced;
      assert v.truth(ToolAtom(i)) ==> call.tool == a;
      if w.texts.fnmatch(a, b) { LeadsTrue(true, ToolAtom(i), ToolAtom(j), v); }
      else { ExcludesTrue(true, ToolAtom(i), ToolAtom(j), v); }
    }
  }

  lemma AreaPair(w: World, t: Tables, call: Call, i: nat, j: nat)
    requires Believable(w, t) && Plain(call) && i < |t.areas| && j < |t.areas|
    ensures AllTrue(PairAxiom(w, t, Areas, i, j), Induced(w, t, call))
  {
    ValueTrue(w, t, call, AreaAtom(i));
    ValueTrue(w, t, call, AreaAtom(j));
    AreasFollow(w, t, call, i, j);
    hide Induced, Sees, SeesLess, Believable, Plain;
    var yes := SeesLess(w.classes, Some(t.areas[i]), Some(t.areas[j]));
    LeadsTrue(yes, AreaAtom(i), AreaAtom(j), Induced(w, t, call));
  }

  lemma ConstantPair(w: World, t: Tables, call: Call, i: nat, j: nat)
    requires i < |t.equals| && j < |t.equals|
    ensures AllTrue(PairAxiom(w, t, Constants, i, j), Induced(w, t, call))
  {
    ValueTrue(w, t, call, EqualAtom(i));
    ValueTrue(w, t, call, EqualAtom(j));
    hide Induced;
    var (a, b) := (t.equals[i], t.equals[j]);
    ExcludesTrue(a.0 == b.0 && !Same(a.1, b.1), EqualAtom(i), EqualAtom(j), Induced(w, t, call));
  }

  lemma CommandPair(w: World, t: Tables, call: Call, i: nat, j: nat)
    requires Believable(w, t) && Plain(call) && i < |t.commands| && j < |t.commands|
    ensures AllTrue(PairAxiom(w, t, Commands, i, j), Induced(w, t, call))
  {
    var (a, b) := (t.commands[i], t.commands[j]);
    var yes := SameCommands(w, a.0, b.0) && SeesLess(w.classes, a.1, b.1);
    assert CommandsBelievable(w, a, b);
    assert yes ==> Comparable(w.classes, a.1, b.1);
    assert PairAxiom(w, t, Commands, i, j) == Leads(yes, CommandAtom(i), CommandAtom(j));
    PlainParts(call);
    CommandValue(w, t, call, i);
    CommandValue(w, t, call, j);
    hide *;
    if yes && CommandSeen(w, call, a.0, a.1) { CommandsFollow(w, call, a, b); }
    LeadsTrue(yes, CommandAtom(i), CommandAtom(j), Induced(w, t, call));
  }

  lemma CommandValue(w: World, t: Tables, call: Call, i: nat)
    requires i < |t.commands|
    ensures Induced(w, t, call).truth(CommandAtom(i)) == CommandSeen(w, call, t.commands[i].0, t.commands[i].1)
  {
    hide CommandSeen;
  }

  lemma PathPair(w: World, t: Tables, call: Call, i: nat, j: nat)
    requires Believable(w, t) && Plain(call) && i < |t.paths| && j < |t.paths|
    ensures AllTrue(PairAxiom(w, t, Paths, i, j), Induced(w, t, call))
  {
    var (a, b) := (t.paths[i], t.paths[j]);
    var yes := SamePaths(w, a.0, b.0) && SeesLess(w.classes, a.1, b.1);
    assert PathsBelievable(w, a, b);
    assert PairAxiom(w, t, Paths, i, j) == Leads(yes, PathAtom(i), PathAtom(j));
    PathValue(w, t, call, i);
    PathValue(w, t, call, j);
    hide *;
    if yes && PathSeen(w, call, a.0, a.1) { PathsFollow(w, call, a, b); }
    LeadsTrue(yes, PathAtom(i), PathAtom(j), Induced(w, t, call));
  }

  lemma PathValue(w: World, t: Tables, call: Call, i: nat)
    requires i < |t.paths|
    ensures Induced(w, t, call).truth(PathAtom(i)) == PathSeen(w, call, t.paths[i].0, t.paths[i].1)
  {
    hide PathSeen;
  }

  lemma DirectoryPair(w: World, t: Tables, call: Call, i: nat, j: nat)
    requires Believable(w, t) && Plain(call) && i < |t.directories| && j < |t.directories|
    ensures AllTrue(PairAxiom(w, t, Directories, i, j), Induced(w, t, call))
  {
    var yes := P.DirectoryInside(w.classes, t.directories[i], t.directories[j]);
    ValueTrue(w, t, call, DirectoryAtom(i));
    ValueTrue(w, t, call, DirectoryAtom(j));
    hide Induced, Sees, Believable, Plain, P.DirectoryInside;
    if yes && Sees(w, call, DirectoryScope(t.directories[i])) { DirectoriesFollow(w, t, call, i, j); }
    LeadsTrue(yes, DirectoryAtom(i), DirectoryAtom(j), Induced(w, t, call));
  }

  lemma PairTrue(w: World, t: Tables, side: Pair, call: Call, i: nat, j: nat)
    requires NamesMatch(w.texts) && Believable(w, t) && Plain(call) && i < Count(t, side) && j < Count(t, side)
    ensures AllTrue(PairAxiom(w, t, side, i, j), Induced(w, t, call))
  {
    hide PairAxiom, AllTrue, Induced, Believable, Plain, NamesMatch;
    match side
    case Areas => AreaPair(w, t, call, i, j);
    case Tools => ToolsFollow(w, t, call, i, j);
    case Constants => ConstantPair(w, t, call, i, j);
    case Commands => CommandPair(w, t, call, i, j);
    case Paths => PathPair(w, t, call, i, j);
    case Directories => DirectoryPair(w, t, call, i, j);
  }

  lemma {:induction false} PairRowTrue(w: World, t: Tables, side: Pair, call: Call, i: nat, n: nat)
    requires NamesMatch(w.texts) && Believable(w, t) && Plain(call) && i < Count(t, side) && n <= Count(t, side)
    ensures AllTrue(PairRow(w, t, side, i, n), Induced(w, t, call))
  {
    hide PairAxiom, AllTrue, Induced, Believable, Plain, NamesMatch;
    var v := Induced(w, t, call);
    NothingToHold(v);
    if n > 0 {
      PairRowTrue(w, t, side, call, i, n - 1);
      if i != n - 1 { PairTrue(w, t, side, call, i, n - 1); }
      TrueJoin(PairRow(w, t, side, i, n - 1), if i == n - 1 then [] else PairAxiom(w, t, side, i, n - 1), v);
    }
  }

  lemma {:induction false} PairRowsTrue(w: World, t: Tables, side: Pair, call: Call, n: nat)
    requires NamesMatch(w.texts) && Believable(w, t) && Plain(call) && n <= Count(t, side)
    ensures AllTrue(PairRows(w, t, side, n), Induced(w, t, call))
  {
    hide PairRow, AllTrue, Induced, Believable, Plain, NamesMatch;
    var v := Induced(w, t, call);
    NothingToHold(v);
    if n > 0 {
      PairRowsTrue(w, t, side, call, n - 1);
      PairRowTrue(w, t, side, call, n - 1, Count(t, side));
      TrueJoin(PairRows(w, t, side, n - 1), PairRow(w, t, side, n - 1, Count(t, side)), v);
    }
  }

  // ---- single axioms ------------------------------------------------------------------------

  lemma {:induction false} CarrierThere(w: World, tools: seq<string>, i: nat)
    requires i < |tools| && CarriesShell(w, tools[i])
    ensures Var(ToolAtom(i)) in CarrierTerms(w, tools)
    decreases tools
  {
    hide CarriesShell;
    if i < |tools| - 1 { CarrierThere(w, Init(tools), i); }
  }

  lemma MemberTrue(terms: seq<Term>, term: Term, v: Valuation)
    requires term in terms && True(term, v)
    ensures True(Or(terms), v)
  {
    var i :| 0 <= i < |terms| && terms[i] == term;
  }

  lemma InFront(a: seq<string>, b: seq<string>, table: seq<string>, name: string)
    requires a + b <= table
    ensures name in a ==> name in table
    ensures name in b ==> exists i :: 0 <= i < |b| && b[i] == name && table[|a| + i] == name
  {
    var known := a + b;
    assert table[..|known|] == known;
    if name in a {
      var i :| 0 <= i < |a| && a[i] == name;
      assert table[i] == known[i] == name;
    }
    if name in b {
      var i :| 0 <= i < |b| && b[i] == name;
      assert table[|a| + i] == known[|a| + i] == name;
    }
  }

  lemma ShellNames(name: string) requires name in SHELL_TOOLS ensures !Wildcarded(name) {}

  lemma FileNames(name: string) requires name in FILE_TOOLS ensures !Wildcarded(name) {}

  lemma BuiltInNames(name: string)
    requires name in SHELL_TOOLS || name in FILE_TOOLS
    ensures !Wildcarded(name)
  {
    hide Wildcarded;
    if name in SHELL_TOOLS { ShellNames(name); } else { FileNames(name); }
  }

  lemma FileToolTrue(w: World, t: Tables, call: Call, tools: seq<string>)
    requires NamesMatch(w.texts) && SHELL_TOOLS + tools <= t.tools && call.tool in tools && !Wildcarded(call.tool)
    ensures True(Or(seq(|tools|, i requires 0 <= i < |tools| => Var(ToolAtom(|SHELL_TOOLS| + i)))), Induced(w, t, call))
  {
    InFront(SHELL_TOOLS, tools, t.tools, call.tool);
    var i :| 0 <= i < |tools| && tools[i] == call.tool && t.tools[|SHELL_TOOLS| + i] == call.tool;
    ValueTrue(w, t, call, ToolAtom(|SHELL_TOOLS| + i));
    var terms := seq(|tools|, i requires 0 <= i < |tools| => Var(ToolAtom(|SHELL_TOOLS| + i)));
    hide Induced;
    assert True(terms[i], Induced(w, t, call));
  }

  lemma NamedTrue(w: World, t: Tables, call: Call, i: nat)
    requires i < |t.tools| && CarriesShell(w, t.tools[i]) && w.texts.fnmatch(call.tool, t.tools[i])
    ensures True(ShellTerm(w, t), Induced(w, t, call))
  {
    var v, terms := Induced(w, t, call), CarrierTerms(w, t.tools) + [Var(Another)];
    CarrierThere(w, t.tools, i);
    ValueTrue(w, t, call, ToolAtom(i));
    hide Induced, CarrierTerms, CarriesShell;
    MemberTrue(terms, Var(ToolAtom(i)), v);
  }

  /** A call of a shell tool makes the shell term true. */
  lemma ShellTrue(w: World, t: Tables, call: Call)
    requires NamesMatch(w.texts) && Spelled(w, t, call) && CarriesShell(w, call.tool)
    ensures True(ShellTerm(w, t), Induced(w, t, call))
  {
    if Named(w, t, call) {
      var i :| 0 <= i < |t.tools| && CarriesShell(w, t.tools[i]) && w.texts.fnmatch(call.tool, t.tools[i]);
      NamedTrue(w, t, call, i);
    } else {
      ValueTrue(w, t, call, Another);
      assert call.tool !in t.tools || Wildcarded(call.tool) by { NotNamed(w, t, call); }
      hide Induced, CarrierTerms, CarriesShell;
      MemberTrue(CarrierTerms(w, t.tools) + [Var(Another)], Var(Another), Induced(w, t, call));
    }
  }

  lemma NotNamed(w: World, t: Tables, call: Call)
    requires NamesMatch(w.texts) && CarriesShell(w, call.tool) && !Named(w, t, call)
    ensures call.tool !in t.tools || Wildcarded(call.tool)
  {
    hide CarriesShell;
    if call.tool in t.tools {
      var n := Number(t.tools, call.tool);
      assert CarriesShell(w, t.tools[n]);
    }
  }

  /** The built-in shell tools, spelled as they are, are named. */
  lemma BuiltInIsSpelled(w: World, t: Tables, call: Call)
    requires NamesMatch(w.texts) && Opened(t) && call.tool in SHELL_TOOLS
    ensures Spelled(w, t, call)
  {
    hide CarriesShell, Wildcarded;
    InFront(SHELL_TOOLS, FILE_TOOLS, t.tools, call.tool);
    BuiltInNames(call.tool);
    if CarriesShell(w, call.tool) && !Named(w, t, call) { NotNamed(w, t, call); }
  }

  lemma OrMore(a: Term, more: seq<Term>, v: Valuation)
    ensures True(Or([a] + more), v) == (True(a, v) || True(Or(more), v))
  {
    var all := [a] + more;
    assert all[0] == a && forall i :: 0 <= i < |more| ==> all[i + 1] == more[i];
    if i :| 0 <= i < |more| && True(more[i], v) { assert True(all[i + 1], v); }
  }

  lemma FileTrue(w: World, t: Tables, call: Call)
    requires NamesMatch(w.texts) && Opened(t) && Spelled(w, t, call)
    requires CarriesShell(w, call.tool) || call.tool in FILE_TOOLS
    ensures True(FileTerm(w, t), Induced(w, t, call))
  {
    var v := Induced(w, t, call);
    hide Induced, ShellTerm, CarriesShell, True, NamesMatch, Wildcarded;
    OrMore(ShellTerm(w, t), seq(|FILE_TOOLS|, i requires 0 <= i < |FILE_TOOLS| => Var(ToolAtom(|SHELL_TOOLS| + i))), v);
    if CarriesShell(w, call.tool) {
      ShellTrue(w, t, call);
    } else {
      BuiltInNames(call.tool);
      FileToolTrue(w, t, call, FILE_TOOLS);
    }
  }

  lemma ImpliesTrue(a: Atom, term: Term, v: Valuation)
    requires v.truth(a) ==> True(term, v)
    ensures AllTrue([Implies(Var(a), term)], v)
  {
    OneTrue(Implies(Var(a), term), v);
  }

  /** What a combined area shows lies in one of its directories and in one of its repositories. */
  lemma PartsFollow(w: World, call: Call, area: Area)
    requires Sees(w, call, Some(area)) && PlainPlaces(call)
    ensures area.under != [] ==> Sees(w, call, Some(Area(area.under, [], [])))
    ensures area.roots != [] ==> Sees(w, call, Some(Area([], [], area.roots)))
  {
    hide PlainPlaces, View, NamesRoot, UnderAny, P.Literal;
    if area.under != [] {
      NothingExcluded(w);
      AreaKeeps(w, call, area, Area(area.under, [], []));
    }
    if area.roots != [] {
      NothingExcluded(w);
      AreaKeeps(w, call, area, Area([], [], area.roots));
    }
  }

  lemma NothingExcluded(w: World) ensures forall d :: !UnderAny(w, d, []) {}

  lemma PartsTrue(w: World, t: Tables, call: Call, i: nat)
    requires Split(t) && i < |t.areas| && PlainPlaces(call)
    ensures AllTrue(PartTerms(t, i), Induced(w, t, call))
  {
    var v, area := Induced(w, t, call), t.areas[i];
    ValueTrue(w, t, call, AreaAtom(i));
    NothingToHold(v);
    if Sees(w, call, Some(area)) { PartsFollow(w, call, area); }
    var first := if area.under == [] then [] else [Implies(Var(AreaAtom(i)), Or(DirectoryTerms(t, area.under)))];
    var second := if area.roots == [] then [] else [Implies(Var(AreaAtom(i)), Or(RootTerms(t, area.roots)))];
    if area.under != [] { DirectoriesAgree(w, t, area.under, call); }
    if area.roots != [] { RootsAgree(w, t, area.roots, call); }
    hide Induced, Sees, DirectoryTerms, RootTerms, PlainPlaces;
    if area.under != [] { ImpliesTrue(AreaAtom(i), Or(DirectoryTerms(t, area.under)), v); }
    if area.roots != [] { ImpliesTrue(AreaAtom(i), Or(RootTerms(t, area.roots)), v); }
    TrueJoin(first, second, v);
  }

  lemma EqualityTrue(w: World, t: Tables, call: Call, i: nat)
    requires i < |t.equals|
    ensures AllTrue(EqualityTerms(t, i), Induced(w, t, call))
  {
    var v, name, constant := Induced(w, t, call), t.equals[i].0, t.equals[i].1;
    ValueTrue(w, t, call, EqualAtom(i));
    ValueTrue(w, t, call, Present(name));
    ValueTrue(w, t, call, Numeric(name));
    NumberTrue(w, t, call, name);
    hide Induced, Valued, Total;
    var both := And([Var(EqualAtom(i)), Var(Numeric(name))]);
    TwoTrue(Var(EqualAtom(i)), Var(Numeric(name)), v);
    var first := [Implies(Var(EqualAtom(i)), Var(Present(name)))];
    EqualValued(w, t, call, i);
    ImpliesTrue(EqualAtom(i), Var(Present(name)), v);
    NothingToHold(v);
    if constant.Num? {
      var compared := Compare([Addend(1.0, name)], Equal, constant.r);
      ComparedAlone(v, name, Equal, constant.r);
      OneTrue(Implies(both, compared), v);
      TrueJoin(first, [Implies(both, compared)], v);
    } else {
      TrueJoin(first, [], v);
    }
  }

  lemma EqualValued(w: World, t: Tables, call: Call, i: nat)
    requires i < |t.equals|
    ensures var (name, constant) := t.equals[i];
            Valued(w, t, call, EqualAtom(i)) ==>
              call.arguments.at(name).Some? &&
              (constant.Num? && Argument(call.arguments, name).Some? ==>
                Argument(call.arguments, name).value == constant.r)
  {
  }

  lemma NamedToolTrue(w: World, t: Tables, call: Call, i: nat)
    requires NamesMatch(w.texts) && Opened(t) && Split(t) && i < |t.tools|
    ensures AllTrue(SingleAxiom(w, t, NamedTools, i), Induced(w, t, call))
  {
    ValueTrue(w, t, call, ToolAtom(i));
    ValueTrue(w, t, call, Another);
    hide Induced;
    ExcludesTrue(!Wildcarded(t.tools[i]), Another, ToolAtom(i), Induced(w, t, call));
  }

  lemma SingleTrue(w: World, t: Tables, side: Single, call: Call, i: nat)
    requires NamesMatch(w.texts) && Opened(t) && Split(t) && Admissible(w, t, call) && i < Size(t, side)
    ensures AllTrue(SingleAxiom(w, t, side, i), Induced(w, t, call))
  {
    var v := Induced(w, t, call);
    NothingToHold(v);
    PlainParts(call);
    match side
    case Parts => PartsTrue(w, t, call, i);
    case AnyTools =>
      ValueTrue(w, t, call, ToolAtom(i));
      hide Induced;
      if Stars(t.tools[i]) { OneTrue(Var(ToolAtom(i)), v); }
    case NamedTools => NamedToolTrue(w, t, call, i);
    case CommandCarriers => CommandCarried(w, t, call, i);
    case KindCarriers => KindCarried(w, t, call, i);
    case PathCarriers => PathCarried(w, t, call, i);
    case Equalities => EqualityTrue(w, t, call, i);
    case NumericNames =>
      ValueTrue(w, t, call, Numeric(t.names[i]));
      ValueTrue(w, t, call, Present(t.names[i]));
      NumberTrue(w, t, call, t.names[i]);
      hide Induced, Valued;
      LeadsTrue(true, Numeric(t.names[i]), Present(t.names[i]), v);
  }

  lemma CommandCarried(w: World, t: Tables, call: Call, i: nat)
    requires NamesMatch(w.texts) && Opened(t) && Admissible(w, t, call) && i < |t.commands|
    ensures AllTrue([Implies(Var(CommandAtom(i)), ShellTerm(w, t))], Induced(w, t, call))
  {
    ValueTrue(w, t, call, CommandAtom(i));
    if CommandSeen(w, call, t.commands[i].0, t.commands[i].1) {
      ViewWithin(w, call, t.commands[i].1);
      var part := View(w, call, t.commands[i].1).value;
      hide View;
      var n :| 0 <= n < |part.commands| && part.commands[n].it.argv != [];
      assert part.commands[n] in call.commands;
      ShellTrue(w, t, call);
    }
    hide Induced, ShellTerm;
    ImpliesTrue(CommandAtom(i), ShellTerm(w, t), Induced(w, t, call));
  }

  lemma KindCarried(w: World, t: Tables, call: Call, i: nat)
    requires NamesMatch(w.texts) && Opened(t) && Admissible(w, t, call) && i < |DYNAMIC_KINDS|
    ensures AllTrue([Implies(Var(KindAtom(DYNAMIC_KINDS[i])), ShellTerm(w, t))], Induced(w, t, call))
  {
    ValueTrue(w, t, call, KindAtom(DYNAMIC_KINDS[i]));
    if DYNAMIC_KINDS[i] in call.dynamic { ShellTrue(w, t, call); }
    hide Induced, ShellTerm;
    ImpliesTrue(KindAtom(DYNAMIC_KINDS[i]), ShellTerm(w, t), Induced(w, t, call));
  }

  lemma PathCarried(w: World, t: Tables, call: Call, i: nat)
    requires NamesMatch(w.texts) && Opened(t) && Admissible(w, t, call) && i < |t.paths|
    ensures AllTrue([Implies(Var(PathAtom(i)), FileTerm(w, t))], Induced(w, t, call))
  {
    ValueTrue(w, t, call, PathAtom(i));
    if PathSeen(w, call, t.paths[i].0, t.paths[i].1) {
      ViewWithin(w, call, t.paths[i].1);
      var part := View(w, call, t.paths[i].1).value;
      hide View, P.PathMatches;
      assert |Facts(part).paths| > 0;
      assert part.paths[0] in call.paths;
      FileTrue(w, t, call);
    }
    hide Induced, FileTerm;
    ImpliesTrue(PathAtom(i), FileTerm(w, t), Induced(w, t, call));
  }

  lemma {:induction false} SingleRowsTrue(w: World, t: Tables, side: Single, call: Call, n: nat)
    requires NamesMatch(w.texts) && Opened(t) && Split(t) && Admissible(w, t, call) && n <= Size(t, side)
    ensures AllTrue(SingleRows(w, t, side, n), Induced(w, t, call))
  {
    hide SingleAxiom, AllTrue, Induced, Admissible, NamesMatch, Opened, Split;
    var v := Induced(w, t, call);
    NothingToHold(v);
    if n > 0 {
      SingleRowsTrue(w, t, side, call, n - 1);
      SingleTrue(w, t, side, call, n - 1);
      TrueJoin(SingleRows(w, t, side, n - 1), SingleAxiom(w, t, side, n - 1), v);
    }
  }

  // ---- all axioms -----------------------------------------------------------------------------

  lemma SinglesTrue(w: World, t: Tables, side: Single, call: Call)
    requires NamesMatch(w.texts) && Opened(t) && Split(t) && Admissible(w, t, call)
    ensures AllTrue(Singles(w, t, side), Induced(w, t, call))
  {
    hide AllTrue, Induced, Admissible, NamesMatch, Opened, Split, SingleRows;
    SingleRowsTrue(w, t, side, call, Size(t, side));
  }

  lemma PairsTrue(w: World, t: Tables, side: Pair, call: Call)
    requires NamesMatch(w.texts) && Believable(w, t) && Plain(call)
    ensures AllTrue(Pairs(w, t, side), Induced(w, t, call))
  {
    hide AllTrue, Induced, Believable, NamesMatch, PairRows, Plain;
    PairRowsTrue(w, t, side, call, Count(t, side));
  }

  lemma UnnamedTrue(w: World, t: Tables, call: Call)
    ensures AllTrue(Unnamed(w), Induced(w, t, call))
  {
    ValueTrue(w, t, call, Another);
    NothingToHold(Induced(w, t, call));
    if w.carriers == [] { OneTrue(Not(Var(Another)), Induced(w, t, call)); }
  }

  /** The world and the tables the theorems speak of. */
  ghost predicate Trusted(w: World, t: Tables) { NamesMatch(w.texts) && Opened(t) && Split(t) && Believable(w, t) }

  /** Every call satisfies the axioms. */
  lemma AxiomsTrue(w: World, t: Tables, call: Call)
    requires Trusted(w, t) && Admissible(w, t, call)
    ensures AllTrue(AllAxioms(w, t), Induced(w, t, call))
  {
    hide AllTrue, Induced, Believable, NamesMatch, Opened, Split, Pairs, Singles, Unnamed, Plain;
    var v := Induced(w, t, call);
    forall side: Single ensures AllTrue(Singles(w, t, side), v) { SinglesTrue(w, t, side, call); }
    forall side: Pair ensures AllTrue(Pairs(w, t, side), v) { PairsTrue(w, t, side, call); }
    UnnamedTrue(w, t, call);
    forall a, b | AllTrue(a, v) && AllTrue(b, v) ensures AllTrue(a + b, v) { TrueJoin(a, b, v); }
  }

  // ---- findings -----------------------------------------------------------------------------------

  /** `_impossible`: no call satisfies the conditions. */
  ghost predicate Impossible(w: World, t: Tables, conditions: seq<Term>)
    requires Opened(t) && Split(t)
  {
    Unsatisfiable(AllAxioms(w, t) + conditions)
  }

  /** Conditions the solver refutes do not all hold of any call. */
  lemma ImpossibleForCalls(w: World, t: Tables, conditions: seq<Term>, call: Call)
    requires Trusted(w, t) && Admissible(w, t, call) && Impossible(w, t, conditions)
    ensures !AllTrue(conditions, Induced(w, t, call))
  {
    AxiomsTrue(w, t, call);
    TrueJoin(AllAxioms(w, t), conditions, Induced(w, t, call));
  }

  lemma PairHolds(a: Term, b: Term, v: Valuation)
    ensures AllTrue([a, b], v) == (True(a, v) && True(b, v))
  {
    assert [a, b][0] == a && [a, b][1] == b;
  }

  /** `_impossible(case.applies)` */
  ghost predicate Dead(w: World, t: Tables, rule: Rule)
    requires Opened(t) && Split(t) && RuleKnown(t, rule)
  {
    Impossible(w, t, [CaseOf(t, rule).applies])
  }

  ghost predicate Blanket(w: World, t: Tables, rule: Rule)
    requires Opened(t) && Split(t) && RuleKnown(t, rule)
  {
    Impossible(w, t, [CaseOf(t, rule).scope, Not(CaseOf(t, rule).fires)])
  }

  /** `_covers(a, b)` */
  ghost predicate CoversRule(w: World, t: Tables, a: Rule, b: Rule)
    requires Opened(t) && Split(t) && RuleKnown(t, a) && RuleKnown(t, b)
  {
    Impossible(w, t, [CaseOf(t, b).applies, Not(CaseOf(t, a).applies)])
  }

  /** A rule reported as dead fires on no call. */
  lemma DeadRulesNeverFire(w: World, t: Tables, rule: Rule, call: Call)
    requires Trusted(w, t) && Admissible(w, t, call) && RuleKnown(t, rule)
    requires Dead(w, t, rule)
    ensures !Fires(w, rule, call)
  {
    hide AllTrue, Induced, Believable, NamesMatch, Impossible, RuleKnown, CaseOf, Fires, Plain;
    FiresAgrees(w, t, rule, call);
    OneTrue(CaseOf(t, rule).applies, Induced(w, t, call));
    ImpossibleForCalls(w, t, [CaseOf(t, rule).applies], call);
  }

  /** A rule reported as blanket fires on every call in its scope. */
  lemma BlanketRulesAlwaysFire(w: World, t: Tables, rule: Rule, call: Call)
    requires Trusted(w, t) && Admissible(w, t, call) && RuleKnown(t, rule)
    requires Blanket(w, t, rule)
    ensures Covers(w, rule.tools, rule.area, call) ==> Fires(w, rule, call)
  {
    hide AllTrue, Induced, Believable, NamesMatch, Impossible, RuleKnown, CaseOf, Fires, Covers, Plain;
    FiresAgrees(w, t, rule, call);
    PairHolds(CaseOf(t, rule).scope, Not(CaseOf(t, rule).fires), Induced(w, t, call));
    ImpossibleForCalls(w, t, [CaseOf(t, rule).scope, Not(CaseOf(t, rule).fires)], call);
  }

  /** `_covers`: when `a` covers `b`, it fires on every call `b` fires on. */
  lemma CoveringRulesFireToo(w: World, t: Tables, a: Rule, b: Rule, call: Call)
    requires Trusted(w, t) && Admissible(w, t, call) && RuleKnown(t, a) && RuleKnown(t, b)
    requires CoversRule(w, t, a, b)
    ensures Fires(w, b, call) ==> Fires(w, a, call)
  {
    hide AllTrue, Induced, Believable, NamesMatch, Impossible, RuleKnown, CaseOf, Fires, Plain;
    FiresAgrees(w, t, a, call);
    FiresAgrees(w, t, b, call);
    PairHolds(CaseOf(t, b).applies, Not(CaseOf(t, a).applies), Induced(w, t, call));
    ImpossibleForCalls(w, t, [CaseOf(t, b).applies, Not(CaseOf(t, a).applies)], call);
  }
}
