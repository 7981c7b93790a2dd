/**
  From the operators of a list to the labels of its commands: what a shell really does with
  and-or lists, groups and subshells is one of the runs of the recorded scopes, so the labels
  are right for it.
 */
module RealLists {
  import opened Prelude
  import opened Paths
  import opened DirStacks
  import opened Moves
  import opened Scopes
  import opened Analysis
  import opened Soundness
  import opened Ranges
  import opened Nesting
  import opened Lists
  import opened AndOr

  // ---- what happens -------------------------------------------------------------------------

  /** The commands of the subshells of an item that begins at `at`. */
  function Subs(item: Item, at: nat): set<Range>
    decreases item
  {
    match item
    case Plain(_, _, _) => {}
    case Group(_, inner) => BodySubs(inner, at)
    case Sub(inner) => BodySubs(inner, at) + {(at, at + |BodyCommands(inner)|)}
  }

  function BodySubs(body: Body, at: nat): set<Range>
    decreases body
  {
    Subs(body.first, at) + RestSubs(body.rest, at + |Commands(body.first)|)
  }

  function RestSubs(rest: Rest, at: nat): set<Range>
    decreases rest
  {
    if rest.Nothing? then {} else Subs(rest.item, at) + RestSubs(rest.rest, at + |Commands(rest.item)|)
  }

  predicate EndsAt(subs: set<Range>, low: nat, j: nat) { low < j && (low, j) in subs }

  /** Of the subshells that end before command `j`, the outermost begins at `low`. */
  ghost predicate Outermost(subs: set<Range>, low: nat, j: nat) {
    EndsAt(subs, low, j) && forall k: nat :: EndsAt(subs, k, j) ==> low <= k
  }

  /**
    The shell before and after each command: a command that does not run changes nothing, and
    the next one starts where it ended, or behind a subshell, where that was started.
   */
  ghost predicate Happens(commands: seq<Command>, subs: set<Range>, ran: seq<bool>, home: Option<Dir>,
                          from: seq<Shell>, to: seq<Shell>) {
    |ran| == |from| == |to| == |commands| &&
    (forall j :: 0 <= j < |ran| ==> if ran[j] then Steps(commands[j], home, from[j], to[j]) else to[j] == from[j]) &&
    (forall j, low: nat :: 0 < j < |ran| && Outermost(subs, low, j) ==> from[j] == from[low]) &&
    (forall j :: 0 < j < |ran| && (forall low: nat :: !EndsAt(subs, low, j)) ==> from[j] == to[j - 1])
  }

  // ---- the recorded scopes ---------------------------------------------------------------------

  /** Every scope may be left out or is a process of its own. */
  predicate Usual(p: Parsed) {
    p.kept == {} && p.entered == map[] && forall n :: n in p.guards ==> n < |p.scopes| && p.guards[n].Maybe?
  }

  /** The scopes that are processes of their own. */
  function Owns(p: Parsed): set<Range> { set n | 0 <= n < |p.scopes| && n !in p.guards :: p.scopes[n] }

  lemma OwnsMore(p: Parsed, r: Range, guards: map<nat, Guard>)
    requires forall n :: n in p.guards ==> n < |p.scopes|
    requires guards == p.guards || (|p.scopes| in guards && guards == p.guards[|p.scopes| := guards[|p.scopes|]])
    ensures Owns(p.(scopes := p.scopes + [r], guards := guards)) == Owns(p) + if guards == p.guards then {r} else {}
  {
    var q := p.(scopes := p.scopes + [r], guards := guards);
    forall x ensures x in Owns(q) <==> x in Owns(p) || (guards == p.guards && x == r) {
      if x in Owns(q) {
        var n :| 0 <= n < |q.scopes| && n !in q.guards && q.scopes[n] == x;
      }
      if x in Owns(p) {
        var n :| 0 <= n < |p.scopes| && n !in p.guards && p.scopes[n] == x;
        assert q.scopes[n] == x && n !in q.guards;
      }
      if guards == p.guards && x == r { assert q.scopes[|p.scopes|] == x; }
    }
  }

  lemma {:induction false} RecordAllOwns(log: Log, open: seq<Start>)
    requires Usual(log.parsed)
    ensures var l := RecordAll(log, open);
            Usual(l.parsed) && Owns(l.parsed) == Owns(log.parsed) && l.parsed.commands == log.parsed.commands
    decreases open
  {
    hide Owns;
    if open != [] {
      var next := Record(log, Last(open), Maybe);
      if next != log { OwnsMore(log.parsed, (Last(open).low, Now(log)), next.parsed.guards); }
      RecordAllOwns(next, Init(open));
    }
  }

  lemma BehindOwns(log: Log, f: Frame, link: Option<Operator>)
    requires Usual(log.parsed)
    ensures var l := Behind(log, f, link).0;
            Usual(l.parsed) && Owns(l.parsed) == Owns(log.parsed) && l.parsed.commands == log.parsed.commands
  {
    hide Owns, RecordAll;
    RecordAllOwns(log, f.open);
  }

  /** Exactly the subshells are recorded as processes of their own. */
  predicate OwnsSubs(log: Log, l: Log, commands: seq<Command>, subs: set<Range>) {
    Usual(l.parsed) && Owns(l.parsed) == Owns(log.parsed) + subs && l.parsed.commands == log.parsed.commands + commands
  }

  lemma {:induction false} ItemOwns(log: Log, f: Frame, item: Item)
    requires Usual(log.parsed)
    ensures OwnsSubs(log, ReadItem(log, f, item).0, Commands(item), Subs(item, Now(log)))
    decreases item
  {
    hide Owns, RecordAll, ReadBody;
    match item
    case Plain(commands, _, _) =>
      assert Owns(Reads(log, commands).parsed) == Owns(log.parsed) by { SameOwns(log, commands); }
    case Group(tag, inner) =>
      BodyOwns(Tick(log), NewFrame(log, tag, None), inner);
      var (l, h) := ReadBody(Tick(log), NewFrame(log, tag, None), inner);
      RecordAllOwns(l, h.open);
    case Sub(inner) =>
      var nf := NewFrame(Tick(log), "", None);
      BodyOwns(Tick(Tick(log)), nf, inner);
      var (l, h) := ReadBody(Tick(Tick(log)), nf, inner);
      RecordAllOwns(l, h.open);
      var m := RecordAll(l, h.open);
      OwnsMore(m.parsed, (Now(log), Now(m)), m.parsed.guards);
  }

  lemma SameOwns(log: Log, commands: seq<Command>) ensures Owns(Reads(log, commands).parsed) == Owns(log.parsed) {}

  lemma {:induction false} BodyOwns(log: Log, f: Frame, body: Body)
    requires Usual(log.parsed)
    ensures OwnsSubs(log, ReadBody(log, f, body).0, BodyCommands(body), BodySubs(body, Now(log)))
    decreases body
  {
    hide Owns, ReadItem, ReadRest, Commands, RestCommands, Subs, RestSubs;
    ItemOwns(log, f, body.first);
    var (l, g) := ReadItem(log, f, body.first);
    RestOwns(l, g, body.rest);
  }

  lemma {:induction false} RestOwns(log: Log, f: Frame, rest: Rest)
    requires Usual(log.parsed)
    ensures OwnsSubs(log, ReadRest(log, f, rest).0, RestCommands(rest), RestSubs(rest, Now(log)))
    decreases rest
  {
    hide Owns, ReadItem, Behind, Commands, Subs;
    if rest.More? {
      BehindOwns(log, f, rest.link);
      var (m, h) := Behind(log, f, rest.link);
      ItemOwns(m, h, rest.item);
      var (l, g) := ReadItem(m, h, rest.item);
      RestOwns(l, g, rest.rest);
    }
  }

  /** The parse of a list. */
  function ListCall(body: Body, home: Option<Dir>): Call { Call(ParseList(EMPTY, BodyEvents(body)).parsed, home) }

  lemma ListOwns(body: Body, home: Option<Dir>)
    ensures var c := ListCall(body, home);
            Known(c) && Usual(c.parsed) && Owns(c.parsed) == BodySubs(body, 0) &&
              c.parsed.commands == BodyCommands(body)
  {
    hide RecordAll, ReadBody, ParseList, BodySubs, BodyCommands, BodyEvents;
    EveryParseNests(BodyEvents(body));
    ListRead(EMPTY, body);
    var nf := NewFrame(EMPTY, "", None);
    BodyOwns(Tick(EMPTY), nf, body);
    var (l, h) := ReadBody(Tick(EMPTY), nf, body);
    RecordAllOwns(l, h.open);
    assert Owns(EMPTY.parsed) == {};
  }

  // ---- where the shell is behind a stretch -----------------------------------------------------------

  /** A command runs exactly if all scopes around it are entered; only `maybe` scopes are left out. */
  predicate Chosen(c: Call, chosen: seq<bool>, ran: seq<bool>) {
    |ran| == Size(c) && |chosen| == |c.parsed.scopes| &&
    (forall n: nat :: n < |chosen| && !chosen[n] ==> n in c.parsed.guards) &&
    forall j :: 0 <= j < |ran| ==>
      (ran[j] <==> forall n :: 0 <= n < |chosen| && Holds(c.parsed.scopes[n], j) ==> chosen[n])
  }

  /** Scope `n` is among those still to be entered at `i` behind the first `p`. */
  predicate Ahead(c: Call, i: nat, p: nat, n: nat) {
    exists q :: p <= q < |Opens(c, i)| && Opens(c, i)[q].1 == n
  }

  /** Every scope around `i` that a route has gone into is one that was entered. */
  predicate GoneInto(c: Call, chosen: seq<bool>, i: nat, p: nat) {
    |chosen| == |c.parsed.scopes| &&
    forall n: nat :: n < |chosen| && Holds(c.parsed.scopes[n], i) && !Ahead(c, i, p, n) ==> chosen[n]
  }

  lemma StartsAhead(c: Call, i: nat, n: nat)
    requires n < |c.parsed.scopes| && c.parsed.scopes[n].0 == i && Holds(c.parsed.scopes[n], i)
    ensures Ahead(c, i, 0, n)
  {
    OpeningFacts(c.parsed.scopes, i);
    assert (c.parsed.scopes[n].1, n) in Opens(c, i);
  }

  /** A scope that began before another one and reaches beyond it is not ahead of it. */
  lemma ReachesBeyond(c: Call, i: nat, p: nat, n: nat)
    requires Known(c) && p < |Opens(c, i)| && n < |c.parsed.scopes|
    requires c.parsed.scopes[n].0 < Opens(c, i)[p].0 < c.parsed.scopes[n].1
    ensures Holds(c.parsed.scopes[n], i) && !Ahead(c, i, p, n)
  {
    EntryFacts(c.parsed, i, p);
    Surrounds(c.parsed.scopes, n, Opens(c, i)[p].1);
    forall q | p <= q < |Opens(c, i)| ensures Opens(c, i)[q].1 != n {
      EntryFacts(c.parsed, i, q);
      OpeningFacts(c.parsed.scopes, i);
      assert p < q ==> Before(Opens(c, i)[p], Opens(c, i)[q]);
    }
  }

  lemma Surrounds(scopes: seq<Range>, n: nat, m: nat)
    requires PostOrder(scopes) && n < |scopes| && m < |scopes|
    requires scopes[n].0 < scopes[m].1 < scopes[n].1 && scopes[m].0 < scopes[m].1
    ensures scopes[n].0 <= scopes[m].0
  {
  }

  /** Behind a scope, and behind a command, the ranges gone into are still around. */
  lemma BehindScope(c: Call, chosen: seq<bool>, i: nat, p: nat)
    requires Known(c) && p < |Opens(c, i)| && GoneInto(c, chosen, i, p)
    ensures GoneInto(c, chosen, Opens(c, i)[p].0, 0)
  {
    EntryFacts(c.parsed, i, p);
    var e := Opens(c, i)[p];
    forall n: nat | n < |chosen| && Holds(c.parsed.scopes[n], e.0) ensures Ahead(c, e.0, 0, n) || chosen[n] {
      if c.parsed.scopes[n].0 == e.0 {
        StartsAhead(c, e.0, n);
      } else {
        ReachesBeyond(c, i, p, n);
      }
    }
  }

  lemma BehindCommand(c: Call, chosen: seq<bool>, i: nat, p: nat)
    requires Known(c) && p >= |Opens(c, i)| && GoneInto(c, chosen, i, p)
    ensures GoneInto(c, chosen, i + 1, 0)
  {
    forall n: nat | n < |chosen| && Holds(c.parsed.scopes[n], i + 1) ensures Ahead(c, i + 1, 0, n) || chosen[n] {
      if c.parsed.scopes[n].0 == i + 1 {
        StartsAhead(c, i + 1, n);
      } else {
        assert Holds(c.parsed.scopes[n], i) && !Ahead(c, i, p, n);
      }
    }
  }

  lemma IntoScope(c: Call, chosen: seq<bool>, i: nat, p: nat)
    requires Known(c) && p < |Opens(c, i)| && GoneInto(c, chosen, i, p)
    requires Opens(c, i)[p].1 < |chosen| && chosen[Opens(c, i)[p].1]
    ensures GoneInto(c, chosen, i, p + 1)
  {
    forall n: nat | n < |chosen| && Holds(c.parsed.scopes[n], i) && !Ahead(c, i, p + 1, n) ensures chosen[n] {
      if Ahead(c, i, p, n) {
        var q :| p <= q < |Opens(c, i)| && Opens(c, i)[q].1 == n;
        assert q == p;
      }
    }
  }

  /** A scope with commands that a stretch at `i` behind the first `p` scopes has still to open. */
  predicate Within(c: Call, i: nat, p: nat, n: nat) {
    n < |c.parsed.scopes| && i <= c.parsed.scopes[n].0 < c.parsed.scopes[n].1 &&
      (c.parsed.scopes[n].0 == i ==> Ahead(c, i, p, n))
  }

  /** The scopes that are open reach beyond the stretch. */
  ghost predicate Reaches(c: Call, i: nat, p: nat, h: nat) {
    forall n: nat :: n < |c.parsed.scopes| && Holds(c.parsed.scopes[n], i) && !Ahead(c, i, p, n) ==>
      c.parsed.scopes[n].1 >= h
  }

  /** The shell behind a stretch whose commands lead to `to`. */
  ghost function After(c: Call, to: seq<Shell>, i: nat, p: nat, h: nat, s: Shell): Shell
    requires Known(c) && h <= Size(c) && |to| == Size(c)
    decreases Size(c) - i, if p < |Opens(c, i)| then |Opens(c, i)| - p else 0
  {
    if i >= h then s
    else if p < |Opens(c, i)| then
      EntryFacts(c.parsed, i, p);
      var e := Opens(c, i)[p];
      After(c, to, e.0, 0, h, if IsOwn(c, e.1) then s else After(c, to, i, p + 1, e.0, s))
    else After(c, to, i + 1, 0, h, to[i])
  }

  /** A process of its own that the stretch opens, and that ends where it ends. */
  predicate OwnEnd(c: Call, i: nat, p: nat, h: nat, n: nat) {
    Within(c, i, p, n) && n !in c.parsed.guards && c.parsed.scopes[n].1 == h
  }

  /** Of those, the outermost begins at `low`; or there is none. */
  ghost predicate FirstEnd(c: Call, i: nat, p: nat, h: nat, low: nat) {
    (exists n: nat :: OwnEnd(c, i, p, h, n) && c.parsed.scopes[n].0 == low) &&
    forall n: nat :: OwnEnd(c, i, p, h, n) ==> low <= c.parsed.scopes[n].0
  }

  ghost predicate NoEnd(c: Call, i: nat, p: nat, h: nat) { forall n: nat :: !OwnEnd(c, i, p, h, n) }

  /** The shell behind a stretch, by the scopes that end there. */
  ghost predicate AfterIs(c: Call, from: seq<Shell>, to: seq<Shell>, i: nat, p: nat, h: nat, after: Shell)
    requires 0 < h <= |to| && |from| == |to|
  {
    (NoEnd(c, i, p, h) && after == to[h - 1]) ||
    exists low: nat :: low < h && FirstEnd(c, i, p, h, low) && after == from[low]
  }

  /** Of the scopes that open together, each ends within the one before. */
  lemma EndsInside(c: Call, i: nat, p: nat, q: nat)
    requires Known(c) && p <= q < |Opens(c, i)|
    ensures Opens(c, i)[q].0 <= Opens(c, i)[p].0
  {
    OpeningFacts(c.parsed.scopes, i);
    assert p < q ==> Before(Opens(c, i)[p], Opens(c, i)[q]);
  }

  /** What a stretch opens begins inside the scope that it enters first, or behind it. */
  lemma WithinScope(c: Call, i: nat, p: nat, n: nat)
    requires Known(c) && p < |Opens(c, i)| && Within(c, i, p, n)
    ensures var e := Opens(c, i)[p];
            i < e.0 && (c.parsed.scopes[n].0 < e.0 ==> c.parsed.scopes[n].1 <= e.0) &&
            (n == e.1 || c.parsed.scopes[n].0 >= e.0 || Within(c, i, p + 1, n)) &&
            (c.parsed.scopes[n].0 >= e.0 ==> Within(c, e.0, 0, n))
  {
    EntryFacts(c.parsed, i, p);
    var e := Opens(c, i)[p];
    if c.parsed.scopes[n].0 == i {
      var q :| p <= q < |Opens(c, i)| && Opens(c, i)[q].1 == n;
      EntryFacts(c.parsed, i, q);
      EndsInside(c, i, p, q);
    } else if c.parsed.scopes[n].0 < e.0 {
      Laminar(c.parsed.scopes, e.1, n);
    } else if c.parsed.scopes[n].0 == e.0 {
      StartsAhead(c, e.0, n);
    }
  }

  lemma BehindWithin(c: Call, i: nat, p: nat, n: nat)
    requires Known(c) && p < |Opens(c, i)| && Within(c, Opens(c, i)[p].0, 0, n)
    ensures Within(c, i, p, n)
  {
    EntryFacts(c.parsed, i, p);
  }

  lemma EntersWithin(c: Call, i: nat, p: nat, n: nat)
    requires Known(c) && p < |Opens(c, i)| && Within(c, i, p + 1, n)
    ensures Within(c, i, p, n) && n != Opens(c, i)[p].1
  {
    EntryFacts(c.parsed, i, p);
    OpeningFacts(c.parsed.scopes, i);
    if c.parsed.scopes[n].0 == i {
      var q :| p + 1 <= q < |Opens(c, i)| && Opens(c, i)[q].1 == n;
      EntryFacts(c.parsed, i, q);
      assert Before(Opens(c, i)[p], Opens(c, i)[q]);
    }
  }

  /** A stretch that goes on behind a scope ends with the scopes it opens there. */
  lemma SameEnds(c: Call, i: nat, p: nat, h: nat, n: nat)
    requires Known(c) && p < |Opens(c, i)| && Opens(c, i)[p].0 < h
    ensures OwnEnd(c, i, p, h, n) <==> OwnEnd(c, Opens(c, i)[p].0, 0, h, n)
  {
    if OwnEnd(c, i, p, h, n) { WithinScope(c, i, p, n); }
    if OwnEnd(c, Opens(c, i)[p].0, 0, h, n) { BehindWithin(c, i, p, n); }
  }

  lemma NextEnds(c: Call, i: nat, p: nat, h: nat, n: nat)
    requires Known(c) && p >= |Opens(c, i)|
    ensures OwnEnd(c, i, p, h, n) <==> OwnEnd(c, i + 1, 0, h, n)
  {
    if OwnEnd(c, i, p, h, n) && c.parsed.scopes[n].0 == i + 1 { StartsAhead(c, i + 1, n); }
  }

  /** Whatever ends where an entered scope ends was opened with it or inside it. */
  lemma OpenedHere(c: Call, i: nat, p: nat, h: nat, n: nat)
    requires Known(c) && p < |Opens(c, i)| && Opens(c, i)[p].0 < h && Reaches(c, i, p, h)
    requires n < |c.parsed.scopes| && c.parsed.scopes[n].0 < c.parsed.scopes[n].1 == Opens(c, i)[p].0
    ensures Within(c, i, p, n)
  {
    EntryFacts(c.parsed, i, p);
    if c.parsed.scopes[n].0 <= i {
      assert Holds(c.parsed.scopes[n], i) && Ahead(c, i, p, n);
      var q :| p <= q < |Opens(c, i)| && Opens(c, i)[q].1 == n;
      EntryFacts(c.parsed, i, q);
    }
  }

  lemma OwnsScope(c: Call, low: nat, high: nat)
    ensures (low, high) in Owns(c.parsed) <==>
            exists n: nat :: n < |c.parsed.scopes| && n !in c.parsed.guards && c.parsed.scopes[n] == (low, high)
  {
  }

  ghost predicate HappensIn(c: Call, ran: seq<bool>, from: seq<Shell>, to: seq<Shell>) {
    Known(c) && Usual(c.parsed) && Happens(c.parsed.commands, Owns(c.parsed), ran, c.home, from, to)
  }

  /** A subshell that ends with the first scope of a stretch begins inside it. */
  lemma EndsWithin(c: Call, i: nat, p: nat, h: nat, low: nat)
    requires Known(c) && Usual(c.parsed) && Reaches(c, i, p, h)
    requires p < |Opens(c, i)| && i < Opens(c, i)[p].0 < h <= Size(c)
    requires EndsAt(Owns(c.parsed), low, Opens(c, i)[p].0)
    ensures i <= low
    ensures var e := Opens(c, i)[p];
            IsOwn(c, e.1) || exists n: nat :: OwnEnd(c, i, p + 1, e.0, n) && c.parsed.scopes[n].0 == low
  {
    hide Opening, Owns;
    EntryFacts(c.parsed, i, p);
    var e := Opens(c, i)[p];
    OwnsScope(c, low, e.0);
    var n: nat :| n < |c.parsed.scopes| && n !in c.parsed.guards && c.parsed.scopes[n] == (low, e.0);
    OpenedHere(c, i, p, h, n);
    WithinScope(c, i, p, n);
    if !IsOwn(c, e.1) { assert OwnEnd(c, i, p + 1, e.0, n); }
  }

  /** Behind a scope the next command starts where the stretch goes on. */
  lemma Continues(c: Call, ran: seq<bool>, from: seq<Shell>, to: seq<Shell>, i: nat, p: nat, h: nat, mid: Shell)
    requires HappensIn(c, ran, from, to) && p < |Opens(c, i)| && Opens(c, i)[p].0 < h <= Size(c) && Reaches(c, i, p, h)
    requires i < Opens(c, i)[p].0 &&
             (!IsOwn(c, Opens(c, i)[p].1) ==> AfterIs(c, from, to, i, p + 1, Opens(c, i)[p].0, mid))
    ensures from[Opens(c, i)[p].0] == if IsOwn(c, Opens(c, i)[p].1) then from[i] else mid
  {
    hide Steps, Opening, Owns, Reaches;
    EntryFacts(c.parsed, i, p);
    var e, subs := Opens(c, i)[p], Owns(c.parsed);
    forall low: nat | EndsAt(subs, low, e.0)
      ensures i <= low && (IsOwn(c, e.1) || exists n: nat :: OwnEnd(c, i, p + 1, e.0, n) && c.parsed.scopes[n].0 == low)
    {
      EndsWithin(c, i, p, h, low);
    }
    if IsOwn(c, e.1) {
      OwnsScope(c, i, e.0);
      assert Outermost(subs, i, e.0);
    } else if low: nat :| low < e.0 && FirstEnd(c, i, p + 1, e.0, low) && mid == from[low] {
      var n: nat :| OwnEnd(c, i, p + 1, e.0, n) && c.parsed.scopes[n].0 == low;
      OwnsScope(c, low, e.0);
      assert Outermost(subs, low, e.0);
    } else {
      assert forall low: nat :: !EndsAt(subs, low, e.0);
    }
  }

  /** Behind a command the next one starts where it ended. */
  lemma StepsOn(c: Call, ran: seq<bool>, from: seq<Shell>, to: seq<Shell>, i: nat, p: nat, h: nat)
    requires HappensIn(c, ran, from, to) && p >= |Opens(c, i)| && i + 1 < h <= Size(c) && Reaches(c, i, p, h)
    ensures from[i + 1] == to[i]
  {
    hide Steps, Opening;
    var subs, next := Owns(c.parsed), i + 1;
    forall low: nat ensures !EndsAt(subs, low, next) {
      if EndsAt(subs, low, next) {
        OwnsScope(c, low, next);
        var n: nat :| n < |c.parsed.scopes| && n !in c.parsed.guards && c.parsed.scopes[n] == (low, next);
        NothingEnds(c, i, p, h, n);
      }
    }
  }

  lemma NothingEnds(c: Call, i: nat, p: nat, h: nat, n: nat)
    requires p >= |Opens(c, i)| && i + 1 < h && Reaches(c, i, p, h) && n < |c.parsed.scopes|
    ensures c.parsed.scopes[n].0 <= i ==> c.parsed.scopes[n].1 != i + 1
  {
    assert !Ahead(c, i, p, n);
    assert Holds(c.parsed.scopes[n], i) ==> c.parsed.scopes[n].1 >= h;
  }

  lemma ReachesInto(c: Call, i: nat, p: nat, h: nat)
    requires Known(c) && p < |Opens(c, i)| && Reaches(c, i, p, h) && Opens(c, i)[p].0 <= h
    ensures Reaches(c, i, p + 1, Opens(c, i)[p].0)
  {
    EntryFacts(c.parsed, i, p);
    var e := Opens(c, i)[p];
    forall n: nat | n < |c.parsed.scopes| && Holds(c.parsed.scopes[n], i) && !Ahead(c, i, p + 1, n)
      ensures c.parsed.scopes[n].1 >= e.0
    {
      if Ahead(c, i, p, n) {
        var q :| p <= q < |Opens(c, i)| && Opens(c, i)[q].1 == n;
        assert q == p;
      }
    }
  }

  lemma ReachesBehind(c: Call, i: nat, p: nat, h: nat)
    requires Known(c) && p < |Opens(c, i)| && Reaches(c, i, p, h)
    ensures Reaches(c, Opens(c, i)[p].0, 0, h)
  {
    EntryFacts(c.parsed, i, p);
    var e := Opens(c, i)[p];
    forall n: nat | n < |c.parsed.scopes| && Holds(c.parsed.scopes[n], e.0) && !Ahead(c, e.0, 0, n)
      ensures c.parsed.scopes[n].1 >= h
    {
      if c.parsed.scopes[n].0 == e.0 { StartsAhead(c, e.0, n); } else { ReachesBeyond(c, i, p, n); }
    }
  }

  lemma ReachesNext(c: Call, i: nat, p: nat, h: nat)
    requires Known(c) && p >= |Opens(c, i)| && Reaches(c, i, p, h)
    ensures Reaches(c, i + 1, 0, h)
  {
    forall n: nat | n < |c.parsed.scopes| && Holds(c.parsed.scopes[n], i + 1) && !Ahead(c, i + 1, 0, n)
      ensures c.parsed.scopes[n].1 >= h
    {
      if c.parsed.scopes[n].0 == i + 1 {
        StartsAhead(c, i + 1, n);
      } else {
        assert Holds(c.parsed.scopes[n], i) && !Ahead(c, i, p, n);
      }
    }
  }

  lemma {:induction false} AfterLands(c: Call, ran: seq<bool>, from: seq<Shell>, to: seq<Shell>, i: nat, p: nat, h: nat)
    requires HappensIn(c, ran, from, to) && Bounded(c.parsed, i, p, h) && i < h && Reaches(c, i, p, h)
    ensures AfterIs(c, from, to, i, p, h, After(c, to, i, p, h, from[i]))
    decreases Size(c) - i, if p < |Opens(c, i)| then |Opens(c, i)| - p else 0
  {
    hide Opening, Happens, OwnEnd, Bounded;
    HappensKnown(c, ran, from, to);
    BoundedSize(c.parsed, i, p, h);
    if p < |Opens(c, i)| {
      InnerBounded(c.parsed, i, p, h);
      EntryFacts(c.parsed, i, p);
      var e := Opens(c, i)[p];
      var mid := After(c, to, i, p + 1, e.0, from[i]);
      if !IsOwn(c, e.1) {
        ReachesInto(c, i, p, h);
        AfterLands(c, ran, from, to, i, p + 1, e.0);
      }
      if e.0 < h {
        Continues(c, ran, from, to, i, p, h, mid);
        ReachesBehind(c, i, p, h);
        AfterLands(c, ran, from, to, e.0, 0, h);
        forall n: nat ensures OwnEnd(c, i, p, h, n) <==> OwnEnd(c, e.0, 0, h, n) { SameEnds(c, i, p, h, n); }
      } else {
        EndsWithScope(c, from, to, i, p, mid);
      }
    } else {
      forall n: nat ensures OwnEnd(c, i, p, h, n) <==> OwnEnd(c, i + 1, 0, h, n) { NextEnds(c, i, p, h, n); }
      if i + 1 < h {
        NextBounded(c.parsed, i, p, h);
        StepsOn(c, ran, from, to, i, p, h);
        ReachesNext(c, i, p, h);
        AfterLands(c, ran, from, to, i + 1, 0, h);
      } else {
        NoEndAhead(c, h);
      }
    }
  }

  lemma NoEndAhead(c: Call, h: nat) ensures NoEnd(c, h, 0, h) {}

  /** A stretch that ends with the scope it enters first. */
  lemma EndsWithScope(c: Call, from: seq<Shell>, to: seq<Shell>, i: nat, p: nat, mid: Shell)
    requires Known(c) && p < |Opens(c, i)| && Usual(c.parsed) && |from| == |to| == Size(c)
    requires 0 < Opens(c, i)[p].0 <= Size(c) && i < Opens(c, i)[p].0
    requires !IsOwn(c, Opens(c, i)[p].1) ==> AfterIs(c, from, to, i, p + 1, Opens(c, i)[p].0, mid)
    ensures AfterIs(c, from, to, i, p, Opens(c, i)[p].0, if IsOwn(c, Opens(c, i)[p].1) then from[i] else mid)
  {
    hide Opening;
    EntryFacts(c.parsed, i, p);
    var e := Opens(c, i)[p];
    if IsOwn(c, e.1) {
      assert OwnEnd(c, i, p, e.0, e.1);
      assert FirstEnd(c, i, p, e.0, i);
    } else {
      forall n: nat ensures OwnEnd(c, i, p, e.0, n) <==> OwnEnd(c, i, p + 1, e.0, n) {
        if OwnEnd(c, i, p, e.0, n) { WithinScope(c, i, p, n); }
        if OwnEnd(c, i, p + 1, e.0, n) { EntersWithin(c, i, p, n); }
      }
    }
  }

  /** A stretch of which nothing runs leaves the shell where it is. */
  lemma {:induction false} NothingMoves(c: Call, ran: seq<bool>, from: seq<Shell>, to: seq<Shell>, i: nat, p: nat,
      h: nat)
    requires HappensIn(c, ran, from, to) && Bounded(c.parsed, i, p, h) && i < h && Reaches(c, i, p, h)
    requires forall j :: i <= j < h ==> !ran[j]
    ensures After(c, to, i, p, h, from[i]) == from[i]
    decreases Size(c) - i, if p < |Opens(c, i)| then |Opens(c, i)| - p else 0
  {
    hide Opening, Bounded, Steps, Outermost, AfterIs;
    HappensKnown(c, ran, from, to);
    BoundedSize(c.parsed, i, p, h);
    if p < |Opens(c, i)| {
      InnerBounded(c.parsed, i, p, h);
      EntryFacts(c.parsed, i, p);
      var e := Opens(c, i)[p];
      if !IsOwn(c, e.1) {
        ReachesInto(c, i, p, h);
        AfterLands(c, ran, from, to, i, p + 1, e.0);
        NothingMoves(c, ran, from, to, i, p + 1, e.0);
      }
      if e.0 < h {
        Continues(c, ran, from, to, i, p, h, from[i]);
        ReachesBehind(c, i, p, h);
        NothingMoves(c, ran, from, to, e.0, 0, h);
      }
    } else {
      StaysPut(c, ran, from, to, i);
      if i + 1 < h {
        NextBounded(c.parsed, i, p, h);
        StepsOn(c, ran, from, to, i, p, h);
        ReachesNext(c, i, p, h);
        NothingMoves(c, ran, from, to, i + 1, 0, h);
      }
    }
  }

  lemma StaysPut(c: Call, ran: seq<bool>, from: seq<Shell>, to: seq<Shell>, i: nat)
    requires HappensIn(c, ran, from, to) && i < |ran| && !ran[i]
    ensures to[i] == from[i]
  {
  }

  // ---- what happens is a run --------------------------------------------------------------------

  ghost predicate Shows(visits: seq<(nat, Shell)>, ran: seq<bool>, from: seq<Shell>, low: nat, high: nat) {
    high <= |ran| == |from| && forall j :: low <= j < high && ran[j] ==> (j, from[j]) in visits
  }

  /** The stretch can be entered: what is open was chosen and reaches beyond it, and the shell is `s`. */
  ghost predicate Enters(c: Call, chosen: seq<bool>, from: seq<Shell>, i: nat, p: nat, h: nat, s: Shell)
    requires |from| == Size(c)
  {
    i < h <= Size(c) ==> GoneInto(c, chosen, i, p) && Reaches(c, i, p, h) && from[i] == s
  }

  /** Behind a scope, and where the shell is then. */
  lemma EntersBehind(c: Call, chosen: seq<bool>, ran: seq<bool>, from: seq<Shell>, to: seq<Shell>, i: nat, p: nat,
      h: nat)
    requires HappensIn(c, ran, from, to) && Bounded(c.parsed, i, p, h) && i < h && p < |Opens(c, i)|
    requires Enters(c, chosen, from, i, p, h, from[i])
    ensures var e := Opens(c, i)[p];
            i < e.0 <= h &&
            Enters(c, chosen, from, e.0, 0, h, if IsOwn(c, e.1) then from[i] else After(c, to, i, p + 1, e.0, from[i]))
  {
    hide Opening, Bounded, Steps, HappensIn, Chosen;
    assert Known(c) && h <= Size(c) by { HappensKnown(c, ran, from, to); BoundedSize(c.parsed, i, p, h); }
    HappensKnown(c, ran, from, to);
    InnerBounded(c.parsed, i, p, h);
    EntryFacts(c.parsed, i, p);
    var e := Opens(c, i)[p];
    if e.0 < h {
      if !IsOwn(c, e.1) {
        ReachesInto(c, i, p, h);
        AfterLands(c, ran, from, to, i, p + 1, e.0);
      }
      Continues(c, ran, from, to, i, p, h, After(c, to, i, p + 1, e.0, from[i]));
      ReachesBehind(c, i, p, h);
      BehindScope(c, chosen, i, p);
    }
  }

  lemma HappensKnown(c: Call, ran: seq<bool>, from: seq<Shell>, to: seq<Shell>)
    requires HappensIn(c, ran, from, to)
    ensures Known(c) && Usual(c.parsed) && |ran| == |from| == |to| == Size(c)
  {
  }

  /** What happens when some scopes are entered and others left out is a run. */
  lemma {:induction false} ChosenIsARun(
    c: Call, chosen: seq<bool>, ran: seq<bool>, from: seq<Shell>, to: seq<Shell>, i: nat, p: nat, h: nat, s: Shell)
      returns (r: Route)
    requires HappensIn(c, ran, from, to) && Bounded(c.parsed, i, p, h) && Chosen(c, chosen, ran)
    requires Enters(c, chosen, from, i, p, h, s)
    ensures Runs(c, i, p, h, s, r, After(c, to, i, p, h, s))
    ensures Shows(Visits(c, i, p, h, s, r), ran, from, i, h)
    decreases Size(c) - i, if p < |Opens(c, i)| then |Opens(c, i)| - p else 0
  {
    hide Opening, Steps, HappensIn, Bounded, Happens, LandsBy;
    HappensKnown(c, ran, from, to);
    BoundedSize(c.parsed, i, p, h);
    if i >= h {
      r := Done;
    } else if p < |Opens(c, i)| {
      EntryFacts(c.parsed, i, p);
      InnerBounded(c.parsed, i, p, h);
      var e := Opens(c, i)[p];
      EntersBehind(c, chosen, ran, from, to, i, p, h);
      var mid := After(c, to, i, p + 1, e.0, s);
      var rest := ChosenIsARun(c, chosen, ran, from, to, e.0, 0, h, if IsOwn(c, e.1) then s else mid);
      ReachesInto(c, i, p, h);
      if chosen[e.1] {
        IntoScope(c, chosen, i, p);
        var body := ChosenIsARun(c, chosen, ran, from, to, i, p + 1, e.0, s);
        r := Through(s, body, mid, rest);
        StartsSame(c, e.1, s);
      } else {
        forall j | i <= j < e.0 ensures !ran[j] { assert Holds(c.parsed.scopes[e.1], j); }
        NothingMoves(c, ran, from, to, i, p + 1, e.0);
        r := Past(rest);
      }
    } else {
      forall n | 0 <= n < |chosen| && Holds(c.parsed.scopes[n], i) ensures chosen[n] { assert !Ahead(c, i, p, n); }
      RanStep(c, ran, from, to, i);
      if i + 1 < h {
        StepsOn(c, ran, from, to, i, p, h);
        ReachesNext(c, i, p, h);
        BehindCommand(c, chosen, i, p);
      }
      NextBounded(c.parsed, i, p, h);
      var rest := ChosenIsARun(c, chosen, ran, from, to, i + 1, 0, h, to[i]);
      r := Exec(to[i], rest);
    }
  }

  lemma RanStep(c: Call, ran: seq<bool>, from: seq<Shell>, to: seq<Shell>, i: nat)
    requires HappensIn(c, ran, from, to) && i < |ran| && ran[i]
    ensures Steps(c.parsed.commands[i], c.home, from[i], to[i])
  {
  }

  lemma StartsSame(c: Call, n: nat, s: Shell)
    requires Usual(c.parsed)
    ensures Analysis.Starts(c, n, s, s) && !IsLoop(c, n)
  {
  }

  // ---- lists -------------------------------------------------------------------------------

  lemma AtStart(c: Call, chosen: seq<bool>, h: nat)
    requires Known(c) && |chosen| == |c.parsed.scopes|
    ensures GoneInto(c, chosen, 0, 0) && Reaches(c, 0, 0, h)
  {
    forall n: nat | n < |chosen| && Holds(c.parsed.scopes[n], 0) ensures Ahead(c, 0, 0, n) {
      StartsAhead(c, 0, n);
    }
  }

  /** The ranges explain a list by which scopes were chosen. */
  lemma ListChosen(body: Body, home: Option<Dir>) returns (chosen: seq<bool>)
    requires PossibleBody(body) && HeardBody(body)
    ensures Chosen(ListCall(body, home), chosen, BodyRan(body, true))
  {
    hide ParseList, BodyRan, BodyEvents;
    chosen := ListExplained(EMPTY, body);
    var log, ran := ParseList(EMPTY, BodyEvents(body)), BodyRan(body, true);
    assert Recent(EMPTY, log) == log.parsed.scopes;
    forall j | 0 <= j < |ran|
      ensures ran[j] <==> forall n :: 0 <= n < |chosen| && Holds(log.parsed.scopes[n], j) ==> chosen[n]
    {
      assert Explained(log.parsed.scopes, chosen, [], [], j, ran[j]);
    }
    forall n: nat | n < |chosen| && !chosen[n] ensures n in log.parsed.guards { assert MaybeRange(log, 0 + n); }
  }

  /**
    For all lists, groups and subshells whose moves succeed, in which every item before an
    `&&` is told, and every way the other commands and tests can end: what the shell executes
    is a run of the recorded scopes, and the run visits every command that is executed.
   */
  lemma RealListIsARun(body: Body, home: Option<Dir>, from: seq<Shell>, to: seq<Shell>, s: Shell)
      returns (r: Route, after: Shell)
    requires PossibleBody(body) && HeardBody(body)
    requires Happens(BodyCommands(body), BodySubs(body, 0), BodyRan(body, true), home, from, to) &&
             (from != [] ==> from[0] == s)
    ensures var c := ListCall(body, home);
            Known(c) && Runs(c, 0, 0, Size(c), s, r, after) &&
            Shows(Visits(c, 0, 0, Size(c), s, r), BodyRan(body, true), from, 0, Size(c))
  {
    hide ParseList, BodyRan, BodyEvents, BodySubs, BodyCommands, Owns, Chosen, Happens;
    var c, ran := ListCall(body, home), BodyRan(body, true);
    ListOwns(body, home);
    var chosen := ListChosen(body, home);
    WholeBounded(c.parsed);
    assert HappensIn(c, ran, from, to);
    HappensKnown(c, ran, from, to);
    assert |chosen| == |c.parsed.scopes| by { ChosenSize(c, chosen, ran); }
    AtStart(c, chosen, Size(c));
    r := ChosenIsARun(c, chosen, ran, from, to, 0, 0, Size(c), s);
    after := After(c, to, 0, 0, Size(c), s);
  }

  lemma ChosenSize(c: Call, chosen: seq<bool>, ran: seq<bool>)
    requires Chosen(c, chosen, ran)
    ensures |chosen| == |c.parsed.scopes|
  {
  }

  /** The label of a command, if it names a directory, names this one. */
  predicate LabelledWith(c: Call, known: Option<Dir>, budget: int, k: nat, actual: Dir)
    requires Known(c)
  {
    k < Size(c) && k < |Whole(c, known, budget).labels| &&
    var named := RunsIn(c.parsed.commands[k], Whole(c, known, budget).labels[k].current);
    named.Some? ==> named.value == actual
  }

  /** So a label that names a directory is right whenever the command is executed. */
  lemma RealListIsLabelledRight(
    body: Body, home: Option<Dir>, from: seq<Shell>, to: seq<Shell>, known: Option<Dir>, budget: int, k: nat,
      actual: Dir)
    requires PossibleBody(body) && HeardBody(body)
    requires Happens(BodyCommands(body), BodySubs(body, 0), BodyRan(body, true), home, from, to)
    requires k < |from| && BodyRan(body, true)[k] && Agrees(known, from[0].current)
    requires var c := ListCall(body, home); Known(c) ==> Readably(c, 0, 0, Size(c), Beginning(known), budget)
    requires MayRunIn(BodyCommands(body)[k], from[k].current, actual)
    ensures var c := ListCall(body, home); Known(c) && LabelledWith(c, known, budget, k, actual)
  {
    hide ParseList, BodyRan, BodyEvents, BodySubs, BodyCommands, Visits, Runs, Owns, Readably;
    var c := ListCall(body, home);
    ListOwns(body, home);
    var r, after := RealListIsARun(body, home, from, to, from[0]);
    var visits := Visits(c, 0, 0, Size(c), from[0], r);
    assert (k, from[k]) in visits;
    var v: nat :| v < |visits| && visits[v] == (k, from[k]);
    LabelsAreRight(c, known, budget, from[0], r, after, v, actual);
  }

  /** In particular when no command rearranges the stack, swaps with a bare `pushd` or climbs. */
  lemma SteadyListIsLabelledRight(
    body: Body, home: Option<Dir>, from: seq<Shell>, to: seq<Shell>, known: Option<Dir>, budget: int, k: nat,
      actual: Dir)
    requires PossibleBody(body) && HeardBody(body)
    requires Happens(BodyCommands(body), BodySubs(body, 0), BodyRan(body, true), home, from, to)
    requires k < |from| && BodyRan(body, true)[k] && Agrees(known, from[0].current)
    requires forall command :: command in BodyCommands(body) ==> SteadyCommand(command)
    requires MayRunIn(BodyCommands(body)[k], from[k].current, actual)
    ensures var c := ListCall(body, home); Known(c) && LabelledWith(c, known, budget, k, actual)
  {
    hide ParseList, BodyRan, BodyEvents, BodySubs, BodyCommands, Owns, SteadyCommand, Readably, LabelledWith;
    var c := ListCall(body, home);
    ListOwns(body, home);
    assert Steady(c);
    WholeBounded(c.parsed);
    SteadyReadably(c, 0, 0, Size(c), Beginning(known), budget);
    RealListIsLabelledRight(body, home, from, to, known, budget, k, actual);
  }
}
