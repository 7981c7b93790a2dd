/**
  The two descriptions of `_view` (ember_armor/ledger/engine.py) are one: what `Evaluation` says
  of named directories, with scopes as numbers, is what `Views` says of patterns.
 */
module ViewsAgree {
  import opened Prelude
  import opened Views
  import E = Evaluation
  import P = PathRules
  import C = CommandRules

  function Name(where: Where): string {
    match where
    case Home => ""
    case Lost => E.UNKNOWN
    case At(directory) => directory
  }

  function CommandItem(c: Placed<C.Command>): E.Item { E.Item(Name(c.where), "") }

  function PathItem(p: Placed<P.PathFact>): E.Item { E.Item(Name(p.where), p.it.path) }

  function Items<T>(placed: seq<Placed<T>>, item: Placed<T> -> E.Item): seq<E.Item> {
    if placed == [] then [] else Items(Init(placed), item) + [item(Last(placed))]
  }

  function Commands(call: Call): seq<E.Item> { Items(call.commands, c => CommandItem(c)) }

  function Paths(call: Call): seq<E.Item> { Items(call.paths, p => PathItem(p)) }

  /** A call by the names of its directories. */
  function Plainly(call: Call): E.Call {
    E.Call(Commands(call), Paths(call), if call.located then call.cwd else E.UNKNOWN)
  }

  function ScopeOf(area: Area): E.Scope { E.Scope(0, Places(area), area.roots != []) }

  /** The answers the other description asks for. */
  function WorldOf(w: World, area: Area): E.World {
    E.World(_ => true, (_, d) => Fits(w, d, area), (_, path) => Rooted(w, path, area),
            (_, _) => None, (_, _, _, _) => None)
  }

  lemma InsideAgrees(w: World, call: Call, area: Area, where: Where)
    requires P.Literal(call.cwd) && (where.At? ==> P.Literal(where.directory))
    ensures E.Inside(E.Here(E.Item(Name(where), ""), Plainly(call)), ScopeOf(area), WorldOf(w, area))
         == Inside(w, Directory(call, where), area)
  {
    hide Fits, Rooted, Items;
    assert !P.Literal("") && !P.Literal(E.UNKNOWN);
  }

  lemma {:induction false} InsideOnesAgree<T>(
    w: World, call: Call, area: Area, items: seq<Placed<T>>, item: Placed<T> -> E.Item, verdict: Option<bool>)
    requires P.Literal(call.cwd) && verdict == Some(true)
    requires forall i :: 0 <= i < |items| && items[i].where.At? ==> P.Literal(items[i].where.directory)
    requires forall x: Placed<T> :: item(x).cwd == Name(x.where)
    ensures E.Those(Items(items, item), Plainly(call), ScopeOf(area), WorldOf(w, area), false, verdict)
         == Items(InsideOnes(w, call, items, area), item)
    decreases items
  {
    hide Inside, E.Inside, Directory, P.Literal, Plainly, E.Here;
    if items != [] {
      InsideOnesAgree(w, call, area, Init(items), item, verdict);
      var last := Last(items);
      InsideAgrees(w, call, area, last.where);
      SameHere(item(last), Plainly(call), Name(last.where));
      assert Init(Items(items, item)) == Items(Init(items), item) && Last(Items(items, item)) == item(last);
      ItemsMore(InsideOnes(w, call, Init(items), area), last, item);
      assert InsideOnes(w, call, Init(items), area) + [] == InsideOnes(w, call, Init(items), area);
    }
  }

  lemma SameHere(item: E.Item, call: E.Call, name: string)
    requires item.cwd == name
    ensures E.Here(item, call) == E.Here(E.Item(name, ""), call)
  {
  }

  lemma ItemsMore<T>(items: seq<Placed<T>>, last: Placed<T>, item: Placed<T> -> E.Item)
    ensures Items(items + [last], item) == Items(items, item) + [item(last)]
  {
    assert Init(items + [last]) == items;
  }

  lemma {:induction false} RootedOnesAgree(
    w: World, call: Call, area: Area, paths: seq<Placed<P.PathFact>>, verdict: Option<bool>)
    requires forall i :: 0 <= i < |paths| ==> P.Literal(paths[i].it.path)
    requires verdict == Some(true)
    ensures E.Those(Items(paths, p => PathItem(p)), Plainly(call), ScopeOf(area), WorldOf(w, area), true, verdict)
         == Items(RootedOnes(w, paths, area), p => PathItem(p))
    decreases paths
  {
    hide Rooted, Plainly;
    if paths != [] {
      RootedOnesAgree(w, call, area, Init(paths), verdict);
      var last := Last(paths);
      assert last.it.path != E.UNKNOWN by { assert !P.Literal(E.UNKNOWN); }
      hide P.Literal;
      var all := Items(paths, p => PathItem(p));
      assert Init(all) == Items(Init(paths), p => PathItem(p)) && Last(all) == PathItem(last);
      ItemsMore(RootedOnes(w, Init(paths), area), last, p => PathItem(p));
      assert RootedOnes(w, Init(paths), area) + [] == RootedOnes(w, Init(paths), area);
    }
  }

  lemma {:induction false} ItemsNone<T>(items: seq<Placed<T>>, item: Placed<T> -> E.Item)
    ensures |Items(items, item)| == |items|
    decreases items
  {
    if items != [] { ItemsNone(Init(items), item); }
  }

  lemma ShellViews(w: World, call: Call, area: Area)
    requires Plain(call) && call.commands != []
    ensures var commands, paths := InsideOnes(w, call, call.commands, area), InsideOnes(w, call, call.paths, area);
            E.View(Plainly(call), Some(ScopeOf(area)), WorldOf(w, area)).0 ==
            E.Part(Plainly(call), Items(commands, c => CommandItem(c)), Items(paths, p => PathItem(p)))
  {
    assert P.Literal(call.cwd);
    ItemsNone(call.commands, c => CommandItem(c));
    hide P.Literal, InsideOnes, E.Those, Items, Inside, Fits, Rooted;
    InsideOnesAgree(w, call, area, call.commands, c => CommandItem(c), Some(true));
    InsideOnesAgree(w, call, area, call.paths, p => PathItem(p), Some(true));
  }

  lemma PartsAgree(call: Call, commands: seq<Placed<C.Command>>, paths: seq<Placed<P.PathFact>>)
    ensures E.Part(Plainly(call), Items(commands, c => CommandItem(c)), Items(paths, p => PathItem(p))) ==
            var part := Part(call, commands, paths);
            if part.None? then None else Some(Plainly(part.value))
  {
    ItemsNone(commands, c => CommandItem(c));
    ItemsNone(paths, p => PathItem(p));
    hide Items;
  }

  lemma FileViews(w: World, call: Call, area: Area)
    requires Plain(call) && call.commands == []
    ensures var part := View(w, call, Some(area));
            E.View(Plainly(call), Some(ScopeOf(area)), WorldOf(w, area)).0 ==
            if part.None? then None else Some(Plainly(part.value))
  {
    var paths := RootedOnes(w, call.paths, area);
    ItemsNone(call.paths, p => PathItem(p));
    assert call.cwd != E.UNKNOWN by { assert !P.Literal(E.UNKNOWN); }
    RootedOnesAgree(w, call, area, call.paths, Some(true));
    assert Items<C.Command>([], c => CommandItem(c)) == [];
    PartsAgree(call, [], paths);
    hide RootedOnes, E.Those, Rooted, Fits, P.Literal, Items, E.Part, Part;
    assert Commands(call) == [];
  }

  /** The part of a call in an area is the same in both descriptions. */
  lemma ViewsAreOne(w: World, call: Call, area: Area)
    requires Plain(call)
    ensures var part := View(w, call, Some(area));
            E.View(Plainly(call), Some(ScopeOf(area)), WorldOf(w, area)).0 ==
            if part.None? then None else Some(Plainly(part.value))
  {
    hide Plain, Plainly, E.View, InsideOnes, E.Part, Part;
    if call.commands != [] {
      ShellViews(w, call, area);
      PartsAgree(call, InsideOnes(w, call, call.commands, area), InsideOnes(w, call, call.paths, area));
    } else {
      FileViews(w, call, area);
    }
  }
}
