/**
  Directory scopes taken apart (`_placed`, `_inside` and `_view` in ember_armor/ledger/engine.py):
  what a scope with several directories, exceptions and repositories sees follows from the scopes
  with one of them.
 */
module ViewLaws {
  import opened Prelude
  import opened Views
  import Globs
  import C = CommandRules
  import P = PathRules

  function UnderOne(p: P.Pattern): Area { Area([p], [], []) }

  function OfOne(p: P.Pattern): Area { Area([], [], [p]) }

  /** One directory holds what lies under it, and a repository what has that root. */
  lemma OnePattern(w: World, d: string, p: P.Pattern)
    ensures Inside(w, Some(d), UnderOne(p)) == Some(Globs.IsUnder(w.classes, d, p.text))
    ensures Inside(w, Some(d), OfOne(p)) ==
            match w.root(d)
            case NoRoot => Some(false)
            case Unsure => None
            case RootAt(root) => Some(Globs.MatchesGlob(w.classes, root, p.text))
    ensures Inside(w, None, UnderOne(p)) == Inside(w, None, OfOne(p)) == None
  {
    assert [p][0] == p;
    assert !UnderAny(w, d, []);
  }

  predicate InsideOne(w: World, d: string, patterns: seq<P.Pattern>) {
    exists p :: p in patterns && Inside(w, Some(d), UnderOne(p)) == Some(true)
  }

  lemma UnderOnes(w: World, d: string, patterns: seq<P.Pattern>)
    ensures UnderAny(w, d, patterns) <==> InsideOne(w, d, patterns)
  {
    forall p: P.Pattern ensures Inside(w, Some(d), UnderOne(p)) == Some(Globs.IsUnder(w.classes, d, p.text)) {
      OnePattern(w, d, p);
    }
    hide Inside;
    if i :| 0 <= i < |patterns| && Globs.IsUnder(w.classes, d, patterns[i].text) { assert patterns[i] in patterns; }
  }

  lemma RootOnes(w: World, d: string, roots: seq<P.Pattern>)
    ensures !w.root(d).Unsure? ==>
              (Rooted(w, d, Area([], [], roots)) == Some(true) <==>
                 exists p :: p in roots && Inside(w, Some(d), OfOne(p)) == Some(true))
  {
    forall p: P.Pattern
      ensures Inside(w, Some(d), OfOne(p)) == Some(true) <==>
              w.root(d).RootAt? && Globs.MatchesGlob(w.classes, w.root(d).directory, p.text)
    {
      OnePattern(w, d, p);
    }
    hide Inside;
    if w.root(d).RootAt? {
      if i :| 0 <= i < |roots| && Globs.MatchesGlob(w.classes, w.root(d).directory, roots[i].text) {
        assert roots[i] in roots;
      }
    }
  }

  /**
    A directory is inside a scope exactly if it is under one of its directories, under none of
    its exceptions, and in one of its repositories; and when only the repository cannot be
    known, neither can this.
   */
  lemma InsideExactly(w: World, d: string, area: Area)
    ensures var placed := (area.under == [] || InsideOne(w, d, area.under)) && !InsideOne(w, d, area.excluded);
            Inside(w, Some(d), area) ==
            if !placed then Some(false)
            else if area.roots == [] then Some(true)
            else if w.root(d).Unsure? then None
            else Some(exists p :: p in area.roots && Inside(w, Some(d), OfOne(p)) == Some(true))
  {
    UnderOnes(w, d, area.under);
    UnderOnes(w, d, area.excluded);
    RootOnes(w, d, area.roots);
    hide UnderAny, InsideOne, Globs.IsUnder, Globs.MatchesGlob, NamesRoot;
    assert Rooted(w, d, area) == Rooted(w, d, Area([], [], area.roots));
  }

  /** What a scope sees of a call of a shell: every command and path that is inside, in order, and no other. */
  lemma ShellViewExactly(w: World, call: Call, area: Area, n: nat)
    requires call.commands != [] && n < |call.commands|
    ensures View(w, call, Some(area)).Some? ==> View(w, call, Some(area)).value.tool == call.tool
    ensures Inside(w, Directory(call, call.commands[n].where), area) == Some(true) <==>
            View(w, call, Some(area)).Some? && call.commands[n] in View(w, call, Some(area)).value.commands
    ensures forall m :: 0 <= m < |call.paths| ==>
              (Inside(w, Directory(call, call.paths[m].where), area) == Some(true) <==>
                 View(w, call, Some(area)).Some? && call.paths[m] in View(w, call, Some(area)).value.paths)
  {
    InsideOnesAre(w, call, call.commands, area, call.commands[n]);
    hide Inside, Directory;
    forall m | 0 <= m < |call.paths| {
      InsideOnesAre(w, call, call.paths, area, call.paths[m]);
    }
  }

  /**
    A call of a file tool is seen by where it is made: as a whole when its directory is inside, or
    unknown and no place is asked for; of repositories, its paths that lie in one, or without any
    path its directory.
   */
  lemma FileViewExactly(w: World, call: Call, area: Area)
    requires call.commands == [] && area.roots != []
    ensures var places := area.(roots := []);
            View(w, call, Some(places)) ==
              (if !call.located then if places == Area([], [], []) then Some(call) else None
               else if Inside(w, Some(call.cwd), places) == Some(true) then Some(call)
               else None) &&
            (View(w, call, Some(places)).None? ==> View(w, call, Some(area)).None?) &&
            (View(w, call, Some(places)).Some? && call.paths == [] ==>
               (View(w, call, Some(area)) == Some(call) <==>
                  call.located && Inside(w, Some(call.cwd), Area([], [], area.roots)) == Some(true)))
    ensures View(w, call, Some(area.(roots := []))).Some? ==>
              forall p :: p in call.paths ==>
                (Inside(w, Some(p.it.path), Area([], [], area.roots)) == Some(true) <==>
                   View(w, call, Some(area)).Some? && p in View(w, call, Some(area)).value.paths)
  {
    assert !UnderAny(w, call.cwd, []);
    forall p
      ensures p in RootedOnes(w, call.paths, area) <==>
              p in call.paths && Inside(w, Some(p.it.path), Area([], [], area.roots)) == Some(true)
    {
      RootedOnesAre(w, call.paths, area, p);
      assert !UnderAny(w, p.it.path, []);
    }
    hide UnderAny, NamesRoot, RootedOnes;
  }
}
