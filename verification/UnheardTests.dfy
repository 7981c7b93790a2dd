/**
  Tests the parser does not hear: a `[[ ... ]]` inside a group or a subshell marks a frame
  that is gone when the `&&` behind it is read (`Guards.note` and `Guards.link`,
  ember_armor/ledger/shell/core.py).
 */
module UnheardTests {
  import opened Prelude
  import opened Paths
  import opened DirStacks
  import opened Moves
  import opened Scopes
  import opened Analysis
  import opened Soundness
  import opened Ranges
  import opened Lists
  import opened AndOr
  import opened RealLists

  /** The same text; only how its plain items end may differ. */
  predicate SameText(x: Item, y: Item)
    decreases x
  {
    match x
    case Plain(commands, test, _) => y.Plain? && y.commands == commands && y.test == test
    case Group(tag, inner) => y.Group? && y.tag == tag && SameBody(inner, y.inner)
    case Sub(inner) => y.Sub? && SameBody(inner, y.inner)
  }

  predicate SameBody(x: Body, y: Body)
    decreases x
  {
    SameText(x.first, y.first) && SameRest(x.rest, y.rest)
  }

  predicate SameRest(x: Rest, y: Rest)
    decreases x
  {
    if x.Nothing? then y.Nothing?
    else y.More? && y.link == x.link && SameText(x.item, y.item) && SameRest(x.rest, y.rest)
  }

  lemma {:induction false} TextDecides(x: Item, y: Item)
    requires SameText(x, y)
    ensures Commands(y) == Commands(x) && Heard(y) == Heard(x) && Told(y) == Told(x)
    ensures forall status :: MayEnd(y, status) == MayEnd(x, status)
    decreases x
  {
    if !x.Plain? {
      var a, b := x.inner, y.inner;
      TextDecides(a.first, b.first);
      RestTextDecides(a.rest, b.rest, a.first, b.first);
      forall status ensures MayEnd(y, status) == MayEnd(x, status) {
        assert RestMayEnd(b.rest, true, status) == RestMayEnd(a.rest, true, status);
        assert RestMayEnd(b.rest, false, status) == RestMayEnd(a.rest, false, status);
        assert BodyMayEnd(b, status) == BodyMayEnd(a, status);
        assert MayEnd(x, status) == BodyMayEnd(a, status) && MayEnd(y, status) == BodyMayEnd(b, status);
      }
    }
  }

  lemma {:induction false} RestTextDecides(x: Rest, y: Rest, before: Item, other: Item)
    requires SameRest(x, y) && SameText(before, other) && Told(before) == Told(other)
    ensures RestCommands(y) == RestCommands(x) && HeardRest(other, y) == HeardRest(before, x)
    ensures forall from, status :: RestMayEnd(y, from, status) == RestMayEnd(x, from, status)
    decreases x
  {
    if x.More? {
      TextDecides(x.item, y.item);
      RestTextDecides(x.rest, y.rest, x.item, y.item);
      forall from, status ensures RestMayEnd(y, from, status) == RestMayEnd(x, from, status) {
        assert RestMayEnd(y.rest, true, status) == RestMayEnd(x.rest, true, status);
        assert RestMayEnd(y.rest, false, status) == RestMayEnd(x.rest, false, status);
        assert RestMayEnd(y.rest, from, status) == RestMayEnd(x.rest, from, status);
      }
    }
  }

  /** An outcome in which the item ends this way. */
  lemma {:induction false} Ending(x: Item, status: bool) returns (y: Item)
    requires MayEnd(x, status)
    ensures SameText(x, y) && Possible(y) && EndsWell(y) == status
    decreases x, 1
  {
    match x
    case Plain(commands, test, _) => y := Item.Plain(commands, test, status);
    case Group(tag, inner) => var body := BodyEnding(inner, status); y := Group(tag, body);
    case Sub(inner) => var body := BodyEnding(inner, status); y := Sub(body);
  }

  lemma {:induction false} BodyEnding(x: Body, status: bool) returns (y: Body)
    requires BodyMayEnd(x, status)
    ensures SameBody(x, y) && PossibleBody(y) && BodyEndsWell(y) == status
    decreases x, 1
  {
    var first := MayEnd(x.first, true) && RestMayEnd(x.rest, true, status);
    var item := Ending(x.first, first);
    var rest := RestEnding(x.rest, first, status);
    y := Body(item, rest);
  }

  lemma {:induction false} RestEnding(x: Rest, before: bool, status: bool) returns (y: Rest)
    requires RestMayEnd(x, before, status)
    ensures SameRest(x, y) && PossibleRest(y) && RestEndsWell(y, before) == status
    decreases x, 1
  {
    if x.Nothing? {
      y := x;
    } else {
      var item, rest;
      if GoesOn(x.link, before) {
        var well := MayEnd(x.item, true) && RestMayEnd(x.rest, true, status);
        item := Ending(x.item, well);
        rest := RestEnding(x.rest, well, status);
      } else {
        item := AnyOutcome(x.item);
        rest := RestEnding(x.rest, before, status);
      }
      y := More(x.link, item, rest);
    }
  }

  lemma {:induction false} AnyOutcome(x: Item) returns (y: Item)
    ensures SameText(x, y) && Possible(y)
    decreases x, 0
  {
    match x
    case Plain(commands, test, _) => y := Item.Plain(commands, test, true);
    case Group(tag, inner) => var body := AnyBody(inner); y := Group(tag, body);
    case Sub(inner) => var body := AnyBody(inner); y := Sub(body);
  }

  lemma {:induction false} AnyBody(x: Body) returns (y: Body)
    ensures SameBody(x, y) && PossibleBody(y)
    decreases x, 0
  {
    var item := AnyOutcome(x.first);
    var rest := AnyRest(x.rest);
    y := Body(item, rest);
  }

  lemma {:induction false} AnyRest(x: Rest) returns (y: Rest)
    ensures SameRest(x, y) && PossibleRest(y)
    decreases x, 0
  {
    if x.Nothing? {
      y := x;
    } else {
      var item := AnyOutcome(x.item);
      var rest := AnyRest(x.rest);
      y := More(x.link, item, rest);
    }
  }

  /** `x && y` */
  function Both(x: Item, y: Item): Body { Body(x, More(Some(AndThen), y, Nothing)) }

  ghost predicate Explainable(log: Log, body: Body) {
    exists choices :: Explains(log, ParseList(log, BodyEvents(body)), [], choices, [], BodyRan(body, true))
  }

  /** Behind an item that is not told, `&&` opens no range. */
  lemma UntoldOpensNothing(log: Log, x: Item, y: Item)
    requires Numbered(log) && Heard(x) && Possible(x) && !x.Plain? && !CanFail(Commands(x)) && y.Plain?
    ensures var after := ParseList(log, BodyEvents(Both(x, y)));
            Outside(after, |log.parsed.scopes|, Now(log) + |Commands(x)|)
  {
    hide ParseList, RecordAll, Heard, Possible, Ran, CanFail;
    var f := NewFrame(log, "", None);
    assert Recent(log, Tick(log)) == [];
    assert Explains(log, Tick(log), [] + f.open, [], [] + [], []);
    var choices := ItemExplained(log, Tick(log), f, [], [], [], [], [], x);
    var (l, g) := ReadItem(Tick(log), f, x);
    assert Read(l, g.seen) == Commands(x);
    ListRead(log, Both(x, y));
    LinksNothing(l, g);
    var h := g.(seen := Now(l));
    var (m, k) := ReadItem(l, h, y);
    assert ReadRest(m, k, Nothing) == (m, k);
    assert ReadRest(l, g, More(Some(AndThen), y, Nothing)) == (m, k);
    RecordsNone(Reads(l, y.commands));
    assert ParseList(log, BodyEvents(Both(x, y))).parsed.scopes == l.parsed.scopes;
    var recent := Recent(log, l);
    forall n | |log.parsed.scopes| <= n < |l.parsed.scopes|
      ensures !Holds(l.parsed.scopes[n], Now(log) + |Commands(x)|)
    {
      assert recent[n - |log.parsed.scopes|] == l.parsed.scopes[n];
    }
  }

  lemma LinksNothing(l: Log, g: Frame)
    requires g.open == [] && !g.plain && !CanFail(Read(l, g.seen))
    ensures Link(l, g, AndThen) == (l, g.(seen := Now(l)))
  {
  }

  /**
    `x && y`, with commands behind the `&&`: the recorded ranges explain every outcome of `x`
    exactly if `x` is told.  Otherwise some outcome skips `y`, although it is in no range.
   */
  lemma UnheardTestMisleadsExactly(log: Log, x: Item, y: Item)
    requires Numbered(log) && Heard(x) && y.Plain? && y.commands != [] && Possible(y)
    ensures Told(x) <==> forall z: Item :: SameText(x, z) && Possible(z) ==> Explainable(log, Both(z, y))
  {
    hide ParseList, BodyEvents, Explains, MayEnd, CanFail;
    if Told(x) {
      forall z: Item | SameText(x, z) && Possible(z) ensures Explainable(log, Both(z, y)) {
        TextDecides(x, z);
        BothHeard(z, y);
        var choices := ListExplained(log, Both(z, y));
      }
    } else {
      var z := Ending(x, false);
      TextDecides(x, z);
      Misled(log, z, y);
    }
  }

  lemma SkipsSecond(x: Item, y: Item)
    requires !EndsWell(x) && y.Plain? && y.commands != []
    ensures BodyRan(Both(x, y), true) == Ran(x, true) + Repeat(false, |y.commands|)
  {
    var rest := Both(x, y).rest;
    assert RestRan(rest, true, false) == Ran(y, false) + RestRan(rest.rest, true, false);
    assert Ran(y, false) + [] == Ran(y, false);
  }

  lemma BothHeard(x: Item, y: Item)
    requires Heard(x) && Told(x) && y.Plain?
    ensures HeardBody(Both(x, y)) && (Possible(x) && Possible(y) ==> PossibleBody(Both(x, y)))
  {
    hide Told;
    var rest := Both(x, y).rest;
    assert HeardRest(y, rest.rest) && (Possible(y) ==> PossibleRest(rest.rest) && PossibleRest(rest));
    assert HeardRest(x, rest);
  }

  lemma Misled(log: Log, x: Item, y: Item)
    requires Numbered(log) && Heard(x) && Possible(x) && !x.Plain? && !CanFail(Commands(x)) && !EndsWell(x)
    requires y.Plain? && y.commands != []
    ensures !Explainable(log, Both(x, y))
  {
    UntoldOpensNothing(log, x, y);
    var after, ran := ParseList(log, BodyEvents(Both(x, y))), BodyRan(Both(x, y), true);
    var j := |Commands(x)|;
    SkipsSecond(x, y);
    hide ParseList, BodyEvents, Explains, BodyRan;
    if choices :| Explains(log, after, [], choices, [], ran) {
      OutsideRuns(log, after, choices, ran, j);
    }
  }

  // ---- a list that is labelled wrong ---------------------------------------------------------

  const GO_Y: Command := Move(Cd, [Word.Path(To(false, [Name("y")]))], false)
  const MAKE: Command := Run([], Some([]), false)

  /** `( [[ ... ]] ) && cd y; make`, when the test fails. */
  const UNHEARD: Body :=
    Body(Sub(Body(Item.Plain([], true, false), Nothing)),
         More(Some(AndThen), Item.Plain([GO_Y], false, true), More(None, Item.Plain([MAKE], false, true), Nothing)))

  const UNHEARD_PARSE := Parsed([GO_Y, MAKE], [(0, 0)], map[], {}, map[])

  lemma UnheardParse()
    ensures ParseList(EMPTY, BodyEvents(UNHEARD)).parsed == UNHEARD_PARSE
  {
    hide ParseList, BodyEvents;
    ListRead(EMPTY, UNHEARD);
    var f, first := NewFrame(EMPTY, "", None), UNHEARD.first;
    var nf := NewFrame(Tick(Tick(EMPTY)), "", None);
    var l0 := Tick(Tick(Tick(EMPTY)));
    assert ReadBody(l0, nf, first.inner) == (Reads(l0, []), nf.(plain := true)) by {
      assert ReadItem(l0, nf, first.inner.first) == (Reads(l0, []), nf.(plain := true));
    }
    assert Reads(l0, []) == l0 && RecordAll(l0, []) == l0;
    var l1 := AddScope(l0, Opened(Tick(EMPTY)));
    assert ReadItem(Tick(EMPTY), f, first) == (l1, f);
    assert Read(l1, f.seen) == [];
    LinksNothing(l1, f);
    var l2, f2 := Reads(l1, [GO_Y]), f.(seen := 0);
    assert Behind(l1, f, Some(AndThen)) == (l1, f2);
    var f3 := Reset(l2, f2);
    assert Behind(l2, f2, None) == (l2, f3) by { RecordsNone(l2); }
    var l3 := Reads(l2, [MAKE]);
    var last := UNHEARD.rest.rest;
    assert ReadRest(l3, f3, Nothing) == (l3, f3);
    assert ReadRest(l2, f2, last) == (l3, f3) by { assert ReadItem(l2, f3, last.item) == (l3, f3); }
    assert ReadRest(l1, f, UNHEARD.rest) == (l3, f3) by { assert ReadItem(l1, f2, UNHEARD.rest.item) == (l2, f2); }
    RecordsNone(l3);
    assert l3.parsed.commands == [] + [GO_Y] + [MAKE] == [GO_Y, MAKE];
  }

  lemma UnheardRuns()
    ensures PossibleBody(UNHEARD) && !Told(UNHEARD.first) && BodyRan(UNHEARD, true) == [false, true]
  {
    var first, second := UNHEARD.first, UNHEARD.rest;
    var third := second.rest;
    assert PossibleRest(third.rest) && PossibleRest(third) && PossibleRest(second);
    assert PossibleBody(first.inner) && PossibleRest(Nothing);
    assert BodyEndsWell(first.inner) == false && EndsWell(first) == false;
    assert MayEnd(first.inner.first, false) && RestMayEnd(Nothing, false, false) && BodyMayEnd(first.inner, false);
    assert Commands(first) == BodyCommands(first.inner) == [];
    assert Ran(first, true) == [];
    assert Ran(second.item, false) == [false] && Ran(third.item, true) == [true];
    assert RestRan(third.rest, true, true) == [];
    assert RestRan(third, true, false) == [true];
    assert RestRan(second, true, false) == [false] + [true];
  }

  /** `make` runs where the list began, and is labelled with `y`. */
  lemma UnheardTestMislabels()
    ensures var c, root := ListCall(UNHEARD, None), Shell([], None, []);
            PossibleBody(UNHEARD) && !Told(UNHEARD.first) && Known(c) &&
            BodyRan(UNHEARD, true) == [false, true] && MayRunIn(MAKE, root.current, root.current) &&
            Happens(BodyCommands(UNHEARD), BodySubs(UNHEARD, 0), BodyRan(UNHEARD, true), None,
              [root, root], [root, root]) &&
            !LabelledWith(c, Some(root.current), TRIAL_STEPS, 1, root.current)
  {
    hide ParseList, BodyEvents, BodyCommands, BodySubs, BodyRan, Whole, Steps, Happens, Possible, Told, Owns;
    ListOwns(UNHEARD, None);
    UnheardParse();
    UnheardRuns();
    UnheardSubs();
    UnheardHappens(BodySubs(UNHEARD, 0));
    UnheardLabel(UNHEARD_PARSE);
  }

  lemma UnheardSubs()
    ensures BodySubs(UNHEARD, 0) == {(0, 0)}
  {
    var first, second := UNHEARD.first, UNHEARD.rest;
    assert BodyCommands(first.inner) == [] && BodySubs(first.inner, 0) == {};
    assert Subs(first, 0) == {(0, 0)} && Commands(first) == [];
    var third := second.rest;
    assert |Commands(second.item)| == |Commands(third.item)| == 1;
    PlainRestSubs(second.item, third, second, 0);
    PlainRestSubs(third.item, third.rest, third, 1);
  }

  lemma PlainRestSubs(item: Item, rest: Rest, all: Rest, at: nat)
    requires item.Plain? && all.More? && all.item == item && all.rest == rest && |Commands(item)| == 1
    ensures RestSubs(all, at) == RestSubs(rest, at + 1)
  {
  }

  lemma UnheardHappens(subs: set<Range>)
    requires subs == {(0, 0)}
    ensures var root := Shell([], None, []);
            Happens([GO_Y, MAKE], subs, [false, true], None, [root, root], [root, root])
    ensures MayRunIn(MAKE, [], [])
  {
    assert forall low: nat :: !EndsAt(subs, low, 1);
  }

  lemma UnheardLabel(p: Parsed)
    requires p == UNHEARD_PARSE
    ensures var c, root: Dir := Call(p, None), []; Known(c) && !LabelledWith(c, Some(root), TRIAL_STEPS, 1, root)
  {
    var c, root, y: Dir := Call(p, None), [], [Name("y")];
    assert Listed(p.scopes, 0, 1) == [] && Listed(p.scopes, 1, 1) == [];
    assert Opens(c, 0) == [] && Opens(c, 1) == [];
    NormalStays(root, y);
    assert root + y == y && Directory(To(false, y), Some(root)) == Some(y);
    var w := Place(Some(y), Some(root), []);
    assert Step(GO_Y, Beginning(Some(root)), None) == w;
    assert Analyse(c, 2, 0, 2, Step(MAKE, w, None), TRIAL_STEPS).labels == [];
    assert Analyse(c, 1, 0, 2, w, TRIAL_STEPS).labels == [w];
  }
}
