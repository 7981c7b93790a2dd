/**
  Directory scopes of rules: the part of a call a scoped rule is judged on (`_view`, `_inside`,
  `_placed` and `_rooted` in ember_armor/ledger/engine.py), and when lint takes one scope to
  see nothing another does not (`_sees_less` in ember_armor/ledger/lint.py).
 */
module Views {
  import opened Prelude
  import opened Arguments
  import Globs
  import C = CommandRules
  import P = PathRules

  // ---- calls ---------------------------------------------------------------------------

  /** The directory something is done in: the call's own, one the gate could not work out, or this one. */
  datatype Where = Home | Lost | At(directory: string)

  datatype Placed<T> = Placed(where: Where, it: T)

  /** What is extracted from one call.  `says` holds what is asked of its text and variables. */
  datatype Call = Call(
    tool: string, commands: seq<Placed<C.Command>>, paths: seq<Placed<P.PathFact>>,
    cwd: string, located: bool, dynamic: seq<string>, arguments: Arguments, says: string -> bool)

  /** A directory scope; without any pattern it is no scope at all. */
  datatype Area = Area(under: seq<P.Pattern>, excluded: seq<P.Pattern>, roots: seq<P.Pattern>)

  /** `_view` of lint.py: `None` sees the whole call. */
  function ViewOf(area: Area): Option<Area> { if area == Area([], [], []) then None else Some(area) }

  /** What the repository lookup says of a path. */
  datatype Root = NoRoot | Unsure | RootAt(directory: string)

  /**
    What judging asks of the rest of the gate; `past` is what a rule finds among earlier calls,
    and `carriers` names the user's own tools that carry shell commands.
   */
  datatype World = World(
    texts: C.Texts, classes: Globs.Classes, root: string -> Root,
    past: (string, Option<Area>, Call) -> bool, carriers: seq<string>)

  function MadeIn(call: Call): Option<string> { if call.located then Some(call.cwd) else None }

  function Directory(call: Call, where: Where): Option<string> {
    match where
    case Home => MadeIn(call)
    case Lost => None
    case At(directory) => Some(directory)
  }

  // ---- the engine ------------------------------------------------------------------------

  predicate UnderAny(w: World, path: string, patterns: seq<P.Pattern>) {
    exists i :: 0 <= i < |patterns| && Globs.IsUnder(w.classes, path, patterns[i].text)
  }

  /** `_placed` */
  predicate Fits(w: World, directory: string, area: Area) {
    (area.under != [] ==> UnderAny(w, directory, area.under)) && !UnderAny(w, directory, area.excluded)
  }

  predicate NamesRoot(w: World, directory: string, roots: seq<P.Pattern>) {
    exists i :: 0 <= i < |roots| && Globs.MatchesGlob(w.classes, directory, roots[i].text)
  }

  /** `_rooted`; `None` when it cannot be known. */
  function Rooted(w: World, path: string, area: Area): Option<bool> {
    match w.root(path)
    case NoRoot => Some(false)
    case Unsure => None
    case RootAt(directory) => Some(NamesRoot(w, directory, area.roots))
  }

  /** `_inside` */
  function Inside(w: World, directory: Option<string>, area: Area): Option<bool> {
    if directory.None? then None
    else if !Fits(w, directory.value, area) then Some(false)
    else if area.roots == [] then Some(true)
    else Rooted(w, directory.value, area)
  }

  function InsideOnes<T>(w: World, call: Call, items: seq<Placed<T>>, area: Area): seq<Placed<T>> {
    if items == [] then []
    else
      InsideOnes(w, call, Init(items), area) +
      if Inside(w, Directory(call, Last(items).where), area) == Some(true) then [Last(items)] else []
  }

  function RootedOnes(w: World, paths: seq<Placed<P.PathFact>>, area: Area): seq<Placed<P.PathFact>> {
    if paths == [] then []
    else
      RootedOnes(w, Init(paths), area) +
      if Rooted(w, Last(paths).it.path, area) == Some(true) then [Last(paths)] else []
  }

  predicate Places(area: Area) { area.under != [] || area.excluded != [] }

  function Part(call: Call, commands: seq<Placed<C.Command>>, paths: seq<Placed<P.PathFact>>): Option<Call> {
    if commands == [] && paths == [] then None else Some(call.(commands := commands, paths := paths))
  }

  /** `_view`: the part of a call that lies in an area. */
  function View(w: World, call: Call, scope: Option<Area>): Option<Call> {
    if scope.None? then Some(call)
    else
      var area, here := scope.value, MadeIn(call);
      if call.commands != [] then
        Part(call, InsideOnes(w, call, call.commands, area), InsideOnes(w, call, call.paths, area))
      else if here.None? && Places(area) then None
      else if here.Some? && !Fits(w, here.value, area) then None
      else if area.roots == [] then Some(call)
      else if call.paths == [] then
        if here.Some? && Rooted(w, here.value, area) == Some(true) then Some(call) else None
      else Part(call, [], RootedOnes(w, call.paths, area))
  }

  lemma {:induction false} InsideOnesAre<T>(w: World, call: Call, items: seq<Placed<T>>, area: Area, item: Placed<T>)
    ensures item in InsideOnes(w, call, items, area) <==>
            item in items && Inside(w, Directory(call, item.where), area) == Some(true)
    decreases items
  {
    hide Inside, Directory;
    if items != [] {
      InsideOnesAre(w, call, Init(items), area, item);
      assert items == Init(items) + [Last(items)];
    }
  }

  lemma {:induction false} RootedOnesAre(
    w: World, paths: seq<Placed<P.PathFact>>, area: Area, path: Placed<P.PathFact>)
    ensures path in RootedOnes(w, paths, area) <==> path in paths && Rooted(w, path.it.path, area) == Some(true)
    decreases paths
  {
    hide Rooted;
    if paths != [] {
      RootedOnesAre(w, Init(paths), area, path);
      assert paths == Init(paths) + [Last(paths)];
    }
  }

  // ---- predicates on a part of a call ---------------------------------------------------------

  predicate CommandHolds(w: World, pred: C.CommandPred, call: Call) {
    exists i :: 0 <= i < |call.commands| && call.commands[i].it.argv != [] &&
                C.CommandMatches(w.texts, call.commands[i].it, pred, false)
  }

  function Bare<T>(items: seq<Placed<T>>): seq<T> {
    seq(|items|, i requires 0 <= i < |items| => items[i].it)
  }

  function Facts(call: Call): P.Facts { P.Facts(Bare(call.paths), call.cwd) }

  predicate PathHolds(w: World, pred: P.PathPred, call: Call) { P.PathHolds(w.classes, pred, Facts(call)) }

  // ---- lint ----------------------------------------------------------------------------------

  predicate EachInside(k: Globs.Classes, inner: seq<P.Pattern>, outer: seq<P.Pattern>) {
    forall i :: 0 <= i < |inner| ==> P.InsideOne(k, inner[i], outer)
  }

  /** `_sees_less`: a rule with scope `narrow` sees nothing `wide` does not. */
  predicate SeesLess(k: Globs.Classes, narrow: Option<Area>, wide: Option<Area>) {
    wide.None? || narrow == wide ||
    (narrow.Some? &&
     var (a, b) := (narrow.value, wide.value);
     (b.under != [] ==> a.under != [] && EachInside(k, a.under, b.under)) &&
     EachInside(k, b.excluded, a.excluded) &&
     (b.roots != [] ==> a.roots != [] && forall i :: 0 <= i < |a.roots| ==> P.Listed(a.roots[i], b.roots)))
  }

  // ---- what a narrower scope sees ---------------------------------------------------------------

  /** Directories the theorems speak of: plain ones. */
  predicate PlainPlaces(call: Call) {
    P.Literal(call.cwd) &&
    (forall i :: 0 <= i < |call.commands| && call.commands[i].where.At? ==>
       P.Literal(call.commands[i].where.directory)) &&
    (forall i :: 0 <= i < |call.paths| && call.paths[i].where.At? ==> P.Literal(call.paths[i].where.directory))
  }

  /** Where `SeesLess` rests on comparing two patterns, the comparison can be believed. */
  ghost predicate Comparable(k: Globs.Classes, narrow: Option<Area>, wide: Option<Area>) {
    narrow.Some? && wide.Some? ==>
      (forall p :: p in narrow.value.under ==> P.RightlyInside(k, p, wide.value.under)) &&
      (forall p :: p in wide.value.excluded ==> P.RightlyInside(k, p, narrow.value.excluded))
  }

  /** What lies in area `a` lies in area `b`. */
  ghost predicate Narrower(w: World, a: Area, b: Area) {
    (Places(b) ==> Places(a)) && (b.roots != [] ==> a.roots != []) &&
    (forall d :: P.Literal(d) && Fits(w, d, a) ==> Fits(w, d, b)) &&
    (forall d :: b.roots != [] && NamesRoot(w, d, a.roots) ==> NamesRoot(w, d, b.roots))
  }

  lemma UnderCarries(w: World, d: string, inner: seq<P.Pattern>, outer: seq<P.Pattern>)
    requires P.Literal(d) && EachInside(w.classes, inner, outer) && UnderAny(w, d, inner)
    requires forall p :: p in inner ==> P.RightlyInside(w.classes, p, outer)
    ensures UnderAny(w, d, outer)
  {
    hide P.RightlyInside, Globs.IsUnder, P.Literal, P.InsideOne;
    var i :| 0 <= i < |inner| && Globs.IsUnder(w.classes, d, inner[i].text);
    assert inner[i] in inner;
    P.InsideOneUnder(w.classes, inner[i], outer, d);
  }

  lemma SeesLessIsNarrower(w: World, a: Area, b: Area)
    requires SeesLess(w.classes, Some(a), Some(b)) && Comparable(w.classes, Some(a), Some(b))
    ensures Narrower(w, a, b)
  {
    hide P.RightlyInside, P.InsideOne, P.Literal, Globs.IsUnder, Globs.MatchesGlob;
    if a != b {
      forall d | P.Literal(d) && Fits(w, d, a) ensures Fits(w, d, b) {
        if b.under != [] { UnderCarries(w, d, a.under, b.under); }
        if UnderAny(w, d, b.excluded) { UnderCarries(w, d, b.excluded, a.excluded); }
      }
      forall d | b.roots != [] && NamesRoot(w, d, a.roots) ensures NamesRoot(w, d, b.roots) {
        var i :| 0 <= i < |a.roots| && Globs.MatchesGlob(w.classes, d, a.roots[i].text);
        assert P.Listed(a.roots[i], b.roots);
      }
      if b.excluded != [] { InsideSomething(w, b.excluded[0], a.excluded); }
    }
  }

  lemma InsideSomething(w: World, p: P.Pattern, outer: seq<P.Pattern>)
    requires P.InsideOne(w.classes, p, outer)
    ensures outer != []
  {
  }

  /** A part of a call that holds what another part holds. */
  ghost predicate Within(part: Call, whole: Call) {
    part == whole.(commands := part.commands, paths := part.paths) &&
    (forall x :: x in part.commands ==> x in whole.commands) && (forall x :: x in part.paths ==> x in whole.paths)
  }

  lemma DirectoryPlain(call: Call, where: Where)
    requires PlainPlaces(call)
    requires (exists c :: c in call.commands && c.where == where) || (exists p :: p in call.paths && p.where == where)
    ensures Directory(call, where).Some? ==> P.Literal(Directory(call, where).value)
  {
    if where.At? {
      if c :| c in call.commands && c.where == where {
        var i :| 0 <= i < |call.commands| && call.commands[i] == c;
      } else {
        var p :| p in call.paths && p.where == where;
        var i :| 0 <= i < |call.paths| && call.paths[i] == p;
      }
    }
  }

  lemma InsideCarries(w: World, d: Option<string>, a: Area, b: Area)
    requires Narrower(w, a, b) && (d.Some? ==> P.Literal(d.value)) && Inside(w, d, a) == Some(true)
    ensures Inside(w, d, b) == Some(true)
  {
    hide Fits, NamesRoot, P.Literal;
  }

  lemma RootCarries(w: World, path: string, a: Area, b: Area)
    requires Narrower(w, a, b) && b.roots != [] && Rooted(w, path, a) == Some(true)
    ensures Rooted(w, path, b) == Some(true)
  {
    hide Fits, NamesRoot, P.Literal;
  }

  lemma ShellPart(w: World, call: Call, a: Area, b: Area)
    requires Narrower(w, a, b) && PlainPlaces(call)
    ensures forall x :: x in InsideOnes(w, call, call.commands, a) ==> x in InsideOnes(w, call, call.commands, b)
    ensures forall x :: x in InsideOnes(w, call, call.paths, a) ==> x in InsideOnes(w, call, call.paths, b)
  {
    hide Narrower, Inside, Directory, PlainPlaces;
    forall x | x in InsideOnes(w, call, call.commands, a) ensures x in InsideOnes(w, call, call.commands, b) {
      InsideOnesAre(w, call, call.commands, a, x);
      InsideOnesAre(w, call, call.commands, b, x);
      DirectoryPlain(call, x.where);
      InsideCarries(w, Directory(call, x.where), a, b);
    }
    forall x | x in InsideOnes(w, call, call.paths, a) ensures x in InsideOnes(w, call, call.paths, b) {
      InsideOnesAre(w, call, call.paths, a, x);
      InsideOnesAre(w, call, call.paths, b, x);
      DirectoryPlain(call, x.where);
      InsideCarries(w, Directory(call, x.where), a, b);
    }
  }

  /** What a call shows in one area it shows in a wider one. */
  lemma AreaKeeps(w: World, call: Call, a: Area, b: Area)
    requires Narrower(w, a, b) && PlainPlaces(call) && View(w, call, Some(a)).Some?
    ensures View(w, call, Some(b)).Some?
    ensures Within(View(w, call, Some(a)).value, View(w, call, Some(b)).value)
  {
    if call.commands != [] {
      ShellPart(w, call, a, b);
      var commands, paths := InsideOnes(w, call, call.commands, a), InsideOnes(w, call, call.paths, a);
      if commands != [] { assert commands[0] in InsideOnes(w, call, call.commands, b); }
      if paths != [] { assert paths[0] in InsideOnes(w, call, call.paths, b); }
      hide Narrower, InsideOnes, PlainPlaces;
    } else {
      hide InsideOnes, Rooted, P.Literal, Fits, NamesRoot;
      assert MadeIn(call).Some? ==> P.Literal(MadeIn(call).value);
      forall x | b.roots != [] && x in RootedOnes(w, call.paths, a) ensures x in RootedOnes(w, call.paths, b) {
        RootedOnesAre(w, call.paths, a, x);
        RootedOnesAre(w, call.paths, b, x);
        RootCarries(w, x.it.path, a, b);
      }
      forall x | x in RootedOnes(w, call.paths, a) ensures x in call.paths { RootedOnesAre(w, call.paths, a, x); }
      if b.roots != [] {
        if call.paths == [] {
          RootCarries(w, call.cwd, a, b);
        } else {
          assert RootedOnes(w, call.paths, a)[0] in RootedOnes(w, call.paths, b);
        }
      }
    }
  }

  lemma ViewWithin(w: World, call: Call, scope: Option<Area>)
    requires View(w, call, scope).Some?
    ensures Within(View(w, call, scope).value, call)
  {
    if scope.Some? {
      var area := scope.value;
      forall x | x in InsideOnes(w, call, call.commands, area) ensures x in call.commands {
        InsideOnesAre(w, call, call.commands, area, x);
      }
      forall x | x in InsideOnes(w, call, call.paths, area) ensures x in call.paths {
        InsideOnesAre(w, call, call.paths, area, x);
      }
      forall x | x in RootedOnes(w, call.paths, area) ensures x in call.paths {
        RootedOnesAre(w, call.paths, area, x);
      }
      hide InsideOnes, RootedOnes, Fits, Rooted;
    }
  }

  /**
    `_sees_less` is right: for every call, whatever a rule with the narrow scope sees, a rule
    with the wide one sees, too.
   */
  lemma NarrowSeesLess(w: World, call: Call, narrow: Option<Area>, wide: Option<Area>)
    requires SeesLess(w.classes, narrow, wide) && Comparable(w.classes, narrow, wide) && PlainPlaces(call)
    requires View(w, call, narrow).Some?
    ensures View(w, call, wide).Some? && Within(View(w, call, narrow).value, View(w, call, wide).value)
  {
    hide View, Narrower, PlainPlaces;
    if wide.None? {
      assert View(w, call, None) == Some(call) by { SeesAll(w, call); }
      ViewWithin(w, call, narrow);
    } else if narrow != wide {
      SeesLessIsNarrower(w, narrow.value, wide.value);
      AreaKeeps(w, call, narrow.value, wide.value);
    }
  }

  lemma SeesAll(w: World, call: Call) ensures View(w, call, None) == Some(call) {}

  // ---- what carries from one part to a larger one ------------------------------------------------

  lemma CommandCarries(w: World, pred: C.CommandPred, part: Call, whole: Call)
    requires Within(part, whole) && CommandHolds(w, pred, part)
    ensures CommandHolds(w, pred, whole)
  {
    hide C.CommandMatches;
    var i :| 0 <= i < |part.commands| && part.commands[i].it.argv != [] &&
             C.CommandMatches(w.texts, part.commands[i].it, pred, false);
    assert part.commands[i] in whole.commands;
    var j :| 0 <= j < |whole.commands| && whole.commands[j] == part.commands[i];
  }

  /** The path meets every field that looks at it alone. */
  predicate Meets(k: Globs.Classes, pred: P.PathPred, cwd: string, fact: P.PathFact) {
    P.PathMatches(k, pred.(sparedBeside := []), P.Facts([], cwd), fact)
  }

  lemma MatchesApart(k: Globs.Classes, pred: P.PathPred, facts: P.Facts, fact: P.PathFact)
    ensures P.PathMatches(k, pred, facts, fact) <==>
            Meets(k, pred, facts.cwd, fact) && !P.SparedBeside(facts, fact, pred.sparedBeside)
  {
    var alone := pred.(sparedBeside := []);
    assert !P.SparedBeside(P.Facts([], facts.cwd), fact, []);
    hide P.SparedBeside, Globs.IsUnder, P.UnderOne, P.Within, Globs.MatchesGlob, P.MayMatch;
  }

  /** A path that `a` means is there, and all paths that `b` means are spared beside others. */
  ghost predicate AllSpared(k: Globs.Classes, a: P.PathPred, b: P.PathPred, facts: P.Facts) {
    (exists f :: f in facts.paths && Meets(k, a, facts.cwd, f)) &&
    (forall f :: f in facts.paths ==> P.Literal(f.path)) &&
    (forall f :: f in facts.paths && Meets(k, b, facts.cwd, f) ==> P.SparedBeside(facts, f, b.sparedBeside))
  }

  /** Some call shows a path that `a` means, and spares all that `b` means. */
  ghost predicate Escapes(k: Globs.Classes, a: P.PathPred, b: P.PathPred) {
    exists facts: P.Facts :: P.Literal(facts.cwd) && AllSpared(k, a, b, facts)
  }

  /** Some call shows paths that the predicate means, and touches siblings that spare them all. */
  ghost predicate CanBeSpared(k: Globs.Classes, pred: P.PathPred) { Escapes(k, pred, pred) }

  predicate PlainPaths(call: Call) {
    forall i :: 0 <= i < |call.paths| ==> P.Literal(call.paths[i].it.path)
  }

  lemma BareOnes(call: Call, p: Placed<P.PathFact>)
    requires p in call.paths
    ensures p.it in Facts(call).paths
  {
    var i :| 0 <= i < |call.paths| && call.paths[i] == p;
    assert Facts(call).paths[i] == p.it;
  }

  lemma BareFrom(call: Call, f: P.PathFact)
    requires f in Facts(call).paths
    ensures exists p :: p in call.paths && p.it == f
  {
    var i :| 0 <= i < |call.paths| && Facts(call).paths[i] == f;
    assert call.paths[i] in call.paths;
  }

  /** Nothing of a part escapes the predicate on the whole. */
  lemma PathCarries(w: World, a: P.PathPred, b: P.PathPred, part: Call, whole: Call)
    requires Within(part, whole) && PathHolds(w, a, part) && PlainPaths(whole) && P.Literal(whole.cwd)
    requires !Escapes(w.classes, a, b)
    ensures PathHolds(w, b, whole)
  {
    hide P.PathMatches, P.SparedBeside, P.Literal, Meets;
    var few, all := Facts(part), Facts(whole);
    var i :| 0 <= i < |few.paths| && P.PathMatches(w.classes, a, few, few.paths[i]);
    var f := few.paths[i];
    assert f in few.paths;
    MatchesApart(w.classes, a, few, f);
    BareFrom(part, f);
    var p :| p in part.paths && p.it == f;
    BareOnes(whole, p);
    assert PathHolds(w, b, whole) || AllSpared(w.classes, a, b, all) by {
      if !PathHolds(w, b, whole) {
        forall g | g in all.paths && Meets(w.classes, b, all.cwd, g)
          ensures P.SparedBeside(all, g, b.sparedBeside)
        {
          var j :| 0 <= j < |all.paths| && all.paths[j] == g;
          MatchesApart(w.classes, b, all, g);
        }
      }
    }
  }

  /** What implies a predicate that cannot be spared does not escape it. */
  lemma ImpliedNeverEscapes(k: Globs.Classes, a: P.PathPred, b: P.PathPred)
    requires a == b || (P.PathImplies(k, a, b) && P.Believable(k, a, b))
    requires !CanBeSpared(k, b)
    ensures !Escapes(k, a, b)
  {
    hide P.SparedBeside, P.Literal;
    forall facts: P.Facts | P.Literal(facts.cwd) ensures !AllSpared(k, a, b, facts) {
      forall f | f in facts.paths && P.Literal(f.path) && Meets(k, a, facts.cwd, f) ensures Meets(k, b, facts.cwd, f) {
        if a != b { MeetsToo(k, a, b, facts.cwd, f); }
      }
      hide Meets;
      assert !AllSpared(k, b, b, facts);
    }
  }

  lemma MeetsToo(k: Globs.Classes, a: P.PathPred, b: P.PathPred, cwd: string, fact: P.PathFact)
    requires P.PathImplies(k, a, b) && P.Believable(k, a, b) && P.Literal(fact.path) && Meets(k, a, cwd, fact)
    ensures Meets(k, b, cwd, fact)
  {
    var (x, y) := (a.(sparedBeside := []), b.(sparedBeside := []));
    assert P.PathImplies(k, x, y) && P.Believable(k, x, y);
    hide P.PathMatches, P.PathImplies, P.Believable;
    P.PathImpliesIsSound(k, x, y, P.Facts([], cwd), fact);
  }

  // ---- and only then ------------------------------------------------------------------------

  /** Every call a rule can be judged on, with plain directories and paths. */
  predicate Plain(call: Call) { PlainPlaces(call) && PlainPaths(call) }

  /** Where `a` holds in a narrower scope, `b` holds in a wider one. */
  ghost predicate Carries(w: World, a: P.PathPred, b: P.PathPred) {
    forall call: Call, narrow: Option<Area>, wide: Option<Area> ::
      Plain(call) && SeesLess(w.classes, narrow, wide) && Comparable(w.classes, narrow, wide) &&
      View(w, call, narrow).Some? && PathHolds(w, a, View(w, call, narrow).value) ==>
      View(w, call, wide).Some? && PathHolds(w, b, View(w, call, wide).value)
  }

  const NEAR: string := "/n"
  const FAR: string := "/w"
  const NEARBY := Area([P.Pattern(NEAR, true)], [], [])

  function Spread(all: seq<P.PathFact>, n: nat): seq<Placed<P.PathFact>> {
    seq(|all|, i requires 0 <= i < |all| => Placed(At(if i == n then NEAR else FAR), all[i]))
  }

  const TOUCH := C.Command(["rm"], C.Bash, "", [])

  /** A call of two commands, of which the first does one of some things in a directory of its own. */
  function SpreadCall(facts: P.Facts, n: nat): Call {
    Call("Bash", [Placed(At(NEAR), TOUCH), Placed(At(FAR), TOUCH)], Spread(facts.paths, n), facts.cwd, true, [],
         Arguments(_ => None, _ => None, (_, _) => false, (_, _) => false), _ => false)
  }

  lemma NearAndFar(k: Globs.Classes)
    ensures P.Literal(NEAR) && P.Literal(FAR) && Globs.IsUnder(k, NEAR, NEAR) && !Globs.IsUnder(k, FAR, NEAR)
  {
    P.UnderLiteral(k, NEAR, NEAR);
    P.UnderLiteral(k, FAR, NEAR);
    assert NEAR[1] != FAR[1];
  }

  lemma NearInside(w: World, call: Call)
    ensures Inside(w, Directory(call, At(NEAR)), NEARBY) == Some(true)
    ensures Inside(w, Directory(call, At(FAR)), NEARBY) == Some(false)
  {
    NearAndFar(w.classes);
    hide Globs.IsUnder;
    assert NEARBY.under[0].text == NEAR;
  }

  lemma {:induction false} OnlyNear(w: World, call: Call, all: seq<P.PathFact>, n: nat, m: nat)
    requires n < |all| && m <= |all|
    ensures InsideOnes(w, call, Spread(all, n)[..m], NEARBY) == if n < m then [Placed(At(NEAR), all[n])] else []
    decreases m
  {
    hide Inside, Directory;
    if m > 0 {
      OnlyNear(w, call, all, n, m - 1);
      NearInside(w, call);
      OneMore(w, call, Spread(all, n), m);
    }
  }

  lemma OneMore(w: World, call: Call, placed: seq<Placed<P.PathFact>>, m: nat)
    requires 0 < m <= |placed|
    ensures InsideOnes(w, call, placed[..m], NEARBY) ==
            InsideOnes(w, call, placed[..m - 1], NEARBY) +
            if Inside(w, Directory(call, placed[m - 1].where), NEARBY) == Some(true) then [placed[m - 1]] else []
  {
    hide Inside, Directory;
    assert Init(placed[..m]) == placed[..m - 1] && Last(placed[..m]) == placed[m - 1];
  }

  lemma SpreadView(w: World, facts: P.Facts, n: nat)
    requires n < |facts.paths|
    ensures var call := SpreadCall(facts, n);
            View(w, call, Some(NEARBY)) ==
            Some(call.(commands := [Placed(At(NEAR), TOUCH)], paths := [Placed(At(NEAR), facts.paths[n])]))
  {
    var call := SpreadCall(facts, n);
    OnlyNear(w, call, facts.paths, n, |facts.paths|);
    assert Spread(facts.paths, n)[..|facts.paths|] == Spread(facts.paths, n);
    NearInside(w, call);
    hide Inside, Directory;
    var near := Placed(At(NEAR), TOUCH);
    assert Init(call.commands) == [near] && Init([near]) == [];
    assert InsideOnes(w, call, [near], NEARBY) == [near];
    assert InsideOnes(w, call, call.commands, NEARBY) == [near];
  }

  lemma AloneIsNotSpared(k: Globs.Classes, pred: P.PathPred, cwd: string, fact: P.PathFact)
    requires Meets(k, pred, cwd, fact)
    ensures P.PathHolds(k, pred, P.Facts([fact], cwd))
  {
    var facts := P.Facts([fact], cwd);
    MatchesApart(k, pred, facts, fact);
    assert !P.SparedBeside(facts, fact, pred.sparedBeside);
    hide P.PathMatches;
    assert facts.paths[0] == fact;
  }

  lemma SpreadIsSpared(w: World, a: P.PathPred, b: P.PathPred, facts: P.Facts, n: nat)
    requires AllSpared(w.classes, a, b, facts)
    ensures !PathHolds(w, b, SpreadCall(facts, n))
  {
    hide P.PathMatches, P.SparedBeside, Meets, P.Literal;
    var call := SpreadCall(facts, n);
    assert Facts(call).paths == facts.paths;
    forall i | 0 <= i < |facts.paths| ensures !P.PathMatches(w.classes, b, Facts(call), facts.paths[i]) {
      MatchesApart(w.classes, b, facts, facts.paths[i]);
      assert facts.paths[i] in facts.paths;
      assert Facts(call) == facts;
    }
  }

  lemma SpreadHolds(w: World, pred: P.PathPred, facts: P.Facts, n: nat)
    requires n < |facts.paths| && Meets(w.classes, pred, facts.cwd, facts.paths[n])
    ensures var part := View(w, SpreadCall(facts, n), Some(NEARBY));
            part.Some? && PathHolds(w, pred, part.value)
  {
    SpreadView(w, facts, n);
    AloneIsNotSpared(w.classes, pred, facts.cwd, facts.paths[n]);
    hide View, Meets, P.PathHolds;
    var part := View(w, SpreadCall(facts, n), Some(NEARBY)).value;
    assert Facts(part).paths == [facts.paths[n]];
  }

  lemma SpreadPlain(w: World, facts: P.Facts, n: nat)
    requires P.Literal(facts.cwd) && forall f :: f in facts.paths ==> P.Literal(f.path)
    ensures Plain(SpreadCall(facts, n))
  {
    NearAndFar(w.classes);
    hide P.Literal;
    assert forall i :: 0 <= i < |facts.paths| ==> facts.paths[i] in facts.paths;
  }

  /** A call on which `a` holds in one directory, and `b` not of the whole call. */
  lemma SparedCall(w: World, a: P.PathPred, b: P.PathPred) returns (call: Call)
    requires Escapes(w.classes, a, b)
    ensures Plain(call) && call.tool == "Bash" && call.dynamic == []
    ensures View(w, call, Some(NEARBY)).Some? && PathHolds(w, a, View(w, call, Some(NEARBY)).value)
    ensures View(w, call, None) == Some(call) && !PathHolds(w, b, call)
  {
    var facts: P.Facts :| P.Literal(facts.cwd) && AllSpared(w.classes, a, b, facts);
    var f :| f in facts.paths && Meets(w.classes, a, facts.cwd, f);
    var n :| 0 <= n < |facts.paths| && facts.paths[n] == f;
    call := SpreadCall(facts, n);
    SpreadHolds(w, a, facts, n);
    SpreadIsSpared(w, a, b, facts, n);
    SpreadPlain(w, facts, n);
    SeesAll(w, call);
  }

  /**
    Lint takes the atom of a path predicate in a narrow scope to imply the atom of the same
    predicate, or of an implied one, in a wider one.  That is right for all calls and scopes
    exactly if no call can touch a path the first means together with siblings that spare all
    the second means: the wide rule sees the sibling, and the narrow one need not.
   */
  lemma PathsCarryExactly(w: World, a: P.PathPred, b: P.PathPred)
    ensures Carries(w, a, b) <==> !Escapes(w.classes, a, b)
  {
    if !Escapes(w.classes, a, b) {
      forall call: Call, narrow: Option<Area>, wide: Option<Area> |
        Plain(call) && SeesLess(w.classes, narrow, wide) && Comparable(w.classes, narrow, wide) &&
        View(w, call, narrow).Some? && PathHolds(w, a, View(w, call, narrow).value)
        ensures View(w, call, wide).Some? && PathHolds(w, b, View(w, call, wide).value)
      {
        NarrowSeesLess(w, call, narrow, wide);
        PlainView(w, call, wide);
        PathCarries(w, a, b, View(w, call, narrow).value, View(w, call, wide).value);
      }
    } else {
      var call := SparedCall(w, a, b);
      hide View, Plain, PathHolds, Escapes;
      assert SeesLess(w.classes, Some(NEARBY), None) && Comparable(w.classes, Some(NEARBY), None);
    }
  }

  lemma PlainView(w: World, call: Call, scope: Option<Area>)
    requires Plain(call) && View(w, call, scope).Some?
    ensures PlainPaths(View(w, call, scope).value) && View(w, call, scope).value.cwd == call.cwd
  {
    ViewWithin(w, call, scope);
    hide View;
    var part := View(w, call, scope).value;
    forall i | 0 <= i < |part.paths| ensures P.Literal(part.paths[i].it.path) {
      assert part.paths[i] in call.paths;
      var j :| 0 <= j < |call.paths| && call.paths[j] == part.paths[i];
    }
  }

  /** A predicate without siblings to spare beside always carries over. */
  lemma NoSiblingsNeverSpared(k: Globs.Classes, pred: P.PathPred)
    requires forall i :: 0 <= i < |pred.sparedBeside| ==> pred.sparedBeside[i].1 == []
    ensures !CanBeSpared(k, pred)
  {
    forall facts: P.Facts, f: P.PathFact ensures !P.SparedBeside(facts, f, pred.sparedBeside) {
      forall name: string ensures P.Siblings(pred.sparedBeside, name) == [] {
        P.SiblingsListed(pred.sparedBeside, name);
      }
    }
    hide P.SparedBeside, Meets;
  }

  /** `bin` is spared beside `obj`, as in the built-in rules; only recursive deletions are meant. */
  const BINS := P.PathPred(Some(P.Delete), [], [], [], [], [], Some(true), [("bin", ["obj"])])

  /** `rm -r /p/bin` and `rm /p/obj` in one call. */
  const BOTH := P.Facts([P.PathFact("/p/bin", P.Delete, true), P.PathFact("/p/obj", P.Delete, false)], "/q")

  lemma {:induction false} SplitName(name: string, rest: string)
    requires '/' !in name
    ensures P.Split(name + "/" + rest) == [name] + P.Split(rest)
    decreases name
  {
    var s := name + "/" + rest;
    if name == "" {
      assert s[1..] == rest;
    } else {
      SplitName(name[1..], rest);
      assert s[1..] == name[1..] + "/" + rest && [name[0]] + name[1..] == name;
    }
  }

  lemma {:induction false} SplitLast(name: string)
    requires '/' !in name
    ensures P.Split(name) == [name]
    decreases name
  {
    if name != "" {
      SplitLast(name[1..]);
      assert [name[0]] + name[1..] == name;
    }
  }

  lemma SplitBin()
    ensures P.Split("/p/bin") == ["", "p", "bin"] && P.Split("/q") == ["", "q"]
  {
    SplitName("", "p/bin");
    SplitName("p", "bin");
    SplitLast("bin");
    SplitName("", "q");
    SplitLast("q");
    assert "" + "/" + "p/bin" == "/p/bin" && "p" + "/" + "bin" == "p/bin" && "" + "/" + "q" == "/q";
  }

  lemma SharedBin()
    ensures P.Shared(["", "p", "bin"], ["", "q"]) == 1 && P.Join(["", "p", "bin"][..2]) == "/p"
  {
    assert ["", "p", "bin"][1..] == ["p", "bin"] && ["", "q"][1..] == ["q"] && P.Shared(["p", "bin"], ["q"]) == 0;
    assert ["", "p", "bin"][..2] == ["", "p"] && ["", "p"][1..] == ["p"] && P.Join(["p"]) == "p";
  }

  lemma ObjTouched()
    ensures P.SparedAt(BOTH, BOTH.paths[0], ["obj"], "/p")
  {
    assert Globs.Trimmed("/p/obj") == "/p/obj" && "/p" + "/" + "obj" == "/p/obj";
    assert BOTH.paths[1].path == "/p/obj";
    assert P.AlsoTouched(BOTH, BOTH.paths[0], "/p" + "/" + ["obj"][0]);
  }

  lemma BinBesideObj()
    ensures P.SparedBeside(BOTH, BOTH.paths[0], BINS.sparedBeside)
  {
    SplitBin();
    SharedBin();
    ObjTouched();
    hide P.Split, P.Shared, P.Join, P.SparedAt;
    assert P.Siblings(BINS.sparedBeside, "bin") == ["obj"];
    assert ["", "p", "bin"][2] == "bin";
  }

  lemma BinMeant(k: Globs.Classes)
    ensures Meets(k, BINS, "/q", BOTH.paths[0]) && !Meets(k, BINS, "/q", BOTH.paths[1])
  {
    assert !P.SparedBeside(P.Facts([], "/q"), BOTH.paths[0], []);
    hide P.SparedBeside, P.Split;
  }

  lemma OneOfTwoSpared(k: Globs.Classes, pred: P.PathPred, a: P.PathFact, b: P.PathFact, cwd: string)
    requires P.Literal(cwd) && P.Literal(a.path) && P.Literal(b.path)
    requires Meets(k, pred, cwd, a) && !Meets(k, pred, cwd, b)
    requires P.SparedBeside(P.Facts([a, b], cwd), a, pred.sparedBeside)
    ensures CanBeSpared(k, pred)
  {
    hide P.SparedBeside, Meets, P.Literal;
    var facts := P.Facts([a, b], cwd);
    assert a in facts.paths;
    assert AllSpared(k, pred, pred, facts);
  }

  lemma PlainBoth() ensures P.Literal("/q") && P.Literal("/p/bin") && P.Literal("/p/obj") {}

  /** So lint believes an implication that is wrong for the siblings the built-in rules name. */
  lemma BinsCanBeSpared(k: Globs.Classes)
    ensures CanBeSpared(k, BINS)
  {
    hide P.SparedBeside, Meets, P.Literal, CanBeSpared;
    BinBesideObj();
    BinMeant(k);
    PlainBoth();
    OneOfTwoSpared(k, BINS, BOTH.paths[0], BOTH.paths[1], BOTH.cwd);
  }
}
