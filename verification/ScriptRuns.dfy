/**
  From a script to the labels of its commands: whatever a shell executes of and-or lists, groups,
  subshells, loops and conditions is one of the runs of the recorded scopes, so every label that
  names a directory names the one the command runs in.
 */
module ScriptRuns {
  import opened Prelude
  import opened Paths
  import opened Moves
  import opened Scopes
  import opened Analysis
  import opened Scripts
  import opened Fitting
  import F = Forests
  import T = Trees
  import R = Ranges
  import N = Nesting
  import Readings
  import opened DirStacks
  import opened Soundness

  // ---- routes one after the other ----------------------------------------------------------------

  function Concat(r: Route, next: Route): Route {
    match r
    case Done => next
    case Exec(after, rest) => Exec(after, Concat(rest, next))
    case Through(start, body, after, rest) => Through(start, body, after, Concat(rest, next))
    case Again(body, after, rest) => Again(body, after, Concat(rest, next))
    case Past(rest) => Past(Concat(rest, next))
    case Part(end, body, rest) => Part(end, body, Concat(rest, next))
  }

  /** A route through a stretch, and what it visits. */
  ghost predicate Goes(c: Call, i: nat, p: nat, h: nat, s: Shell, r: Route, after: Shell, seen: seq<(nat, Shell)>) {
    Known(c) && h <= Size(c) && Runs(c, i, p, h, s, r, after) && Visits(c, i, p, h, s, r) == seen
  }

  /** Two stretches; the second begins behind as many scopes as have opened where the first ends. */
  lemma {:induction false} Joined(c: Call, i: nat, p: nat, k: nat, q: nat, h: nat, s: Shell, r: Route, mid: Shell,
      next: Route, after: Shell)
    requires Known(c) && Bounded(c.parsed, i, p, k) && k <= h <= Size(c) && q == (if i == k then p else 0)
    requires Runs(c, i, p, k, s, r, mid) && Runs(c, k, q, h, mid, next, after)
    ensures Runs(c, i, p, h, s, Concat(r, next), after)
    ensures Visits(c, i, p, h, s, Concat(r, next)) == Visits(c, i, p, k, s, r) + Visits(c, k, q, h, mid, next)
    decreases r
  {
    assert i <= k;
    hide Opening, Bounded, Steps, Starts, Kind;
    if i == k {
      assert [] + Visits(c, k, q, h, mid, next) == Visits(c, k, q, h, mid, next);
    } else {
      if p < |Opens(c, i)| {
        InnerBounded(c.parsed, i, p, k);
        var e := Opens(c, i)[p];
        match r
        case Through(start, body, there, rest) =>
          var t := if IsOwn(c, e.1) then s else there;
          Joined(c, e.0, 0, k, 0, h, t, rest, mid, next, after);
          var x := Visits(c, i, p + 1, e.0, start, body);
          JoinVisits(x, Visits(c, e.0, 0, k, t, rest), Visits(c, k, 0, h, mid, next));
        case Again(body, there, rest) =>
          Joined(c, i, p, k, 0, h, there, rest, mid, next, after);
          JoinVisits(Visits(c, i, p + 1, e.0, s, body), Visits(c, i, p, k, there, rest),
                     Visits(c, k, 0, h, mid, next));
        case Past(rest) => Joined(c, e.0, 0, k, 0, h, s, rest, mid, next, after);
        case Part(end, body, rest) =>
          Joined(c, e.0, 0, k, 0, h, s, rest, mid, next, after);
          JoinVisits(Visits(c, i, p + 1, end, s, body), Visits(c, e.0, 0, k, s, rest), Visits(c, k, 0, h, mid, next));
      } else {
        NextBounded(c.parsed, i, p, k);
        Joined(c, i + 1, 0, k, 0, h, r.after, r.rest, mid, next, after);
        JoinVisits([(i, s)], Visits(c, i + 1, 0, k, r.after, r.rest), Visits(c, k, 0, h, mid, next));
      }
    }
  }

  lemma JoinVisits(a: seq<(nat, Shell)>, b: seq<(nat, Shell)>, c: seq<(nat, Shell)>)
    ensures a + b + c == a + (b + c)
  {
  }

  // ---- what an execution cannot do ------------------------------------------------------------------

  lemma NoMovesParts(a: seq<Command>, b: seq<Command>)
    ensures NoMoves(a + b) ==> NoMoves(a) && NoMoves(b)
    ensures a + b == [] ==> a == [] && b == []
  {
    if NoMoves(a + b) {
      forall k | 0 <= k < |a| ensures !a[k].Move? { assert (a + b)[k] == a[k]; }
      forall k | 0 <= k < |b| ensures !b[k].Move? { assert (a + b)[|a| + k] == b[k]; }
    }
  }

  /** Without moves the shell stays, and without commands nothing is executed. */
  predicate Idle(commands: seq<Command>, s: Shell, p: Played) {
    (NoMoves(commands) ==> p.after == s) && (commands == [] ==> p.seen == [])
  }

  lemma {:induction false} IdleAll(commands: seq<Command>, after: seq<Shell>, at: nat, s: Shell, home: Option<Dir>)
    requires PlayAll(commands, after, at, s, home).Some?
    ensures Idle(commands, s, PlayAll(commands, after, at, s, home).value)
    decreases commands
  {
    if commands != [] {
      IdleAll(commands[1..], after[1..], at + 1, after[0], home);
      if NoMoves(commands) {
        assert !commands[0].Move?;
        forall k | 0 <= k < |commands[1..]| ensures !commands[1..][k].Move? {
          assert commands[k + 1] == commands[1..][k];
        }
      }
    }
  }

  lemma IdleThen(a: seq<Command>, b: seq<Command>, s: Shell, p: Played, q: Played)
    requires Idle(a, s, p) && Idle(b, p.after, q)
    ensures Idle(a + b, s, Then(p, q))
  {
    NoMovesParts(a, b);
  }

  lemma {:induction false} IdleItem(item: Item, act: Act, at: nat, s: Shell, home: Option<Dir>)
    requires Play(item, act, at, s, home).Some?
    ensures Idle(Commands(item), s, Play(item, act, at, s, home).value)
    decreases act, 2
  {
    hide Steps, NoMoves;
    match item
    case Plain(commands, _) => IdleAll(commands, act.after, at, s, home);
    case Group(_, inner) => IdleBody(inner, act.acts, at, s, home);
    case Sub(inner) => IdleBody(inner, act.acts, at, s, home);
    case Loop(cond, inner) => IdleLoop(cond, inner, act, at, s, true, home);
    case Choice(cond, yes, other) => IdleChoice(cond, yes, other, act, at, s, home);
  }

  lemma {:induction false} IdleLoop(cond: Body, inner: Body, act: Act, at: nat, s: Shell, ok: bool, home: Option<Dir>)
    requires PlayLoop(cond, inner, act, at, s, ok, home).Some?
    ensures Idle(BodyCommands(cond) + BodyCommands(inner), s, PlayLoop(cond, inner, act, at, s, ok, home).value)
    decreases act, 1
  {
    hide NoMoves, BodyCommands, PlayBody;
    NoMovesParts(BodyCommands(cond), BodyCommands(inner));
    match act
    case Stop =>
    case Tested(acts) => IdleBody(cond, acts, at, s, home);
    case Round(test, pass, next) =>
      IdleBody(cond, test, at, s, home);
      var p := PlayBody(cond, test, at, s, home).value;
      IdleBody(inner, pass, at + |BodyCommands(cond)|, p.after, home);
      var q := PlayBody(inner, pass, at + |BodyCommands(cond)|, p.after, home).value;
      IdleLoop(cond, inner, next, at, q.after, q.ok, home);
  }

  lemma {:induction false} IdleChoice(cond: Body, yes: Body, other: Other, act: Act, at: nat, s: Shell,
      home: Option<Dir>)
    requires PlayChoice(cond, yes, other, act, at, s, home).Some?
    ensures Idle(BodyCommands(cond) + (BodyCommands(yes) + OtherCommands(other)), s,
                 PlayChoice(cond, yes, other, act, at, s, home).value)
    decreases act, 1
  {
    hide NoMoves, BodyCommands, PlayBody, OtherCommands, PlayOther;
    var behind := at + |BodyCommands(cond)|;
    NoMovesParts(BodyCommands(cond), BodyCommands(yes) + OtherCommands(other));
    NoMovesParts(BodyCommands(yes), OtherCommands(other));
    match act
    case Yes(test, taken) =>
      IdleBody(cond, test, at, s, home);
      IdleBody(yes, taken, behind, PlayBody(cond, test, at, s, home).value.after, home);
    case No(test, next) =>
      IdleBody(cond, test, at, s, home);
      IdleOther(other, next, behind + |BodyCommands(yes)|, PlayBody(cond, test, at, s, home).value.after, home);
  }

  lemma {:induction false} IdleOther(other: Other, act: Act, at: nat, s: Shell, home: Option<Dir>)
    requires PlayOther(other, act, at, s, home).Some?
    ensures Idle(OtherCommands(other), s, PlayOther(other, act, at, s, home).value)
    decreases act, 2
  {
    hide NoMoves;
    match other
    case Fi =>
    case Else(no) => IdleBody(no, act.acts, at, s, home);
    case Elif(cond, yes, more) =>
      IdleChoice(cond, yes, more, act, at, s, home);
      assert BodyCommands(cond) + BodyCommands(yes) + OtherCommands(more) ==
        BodyCommands(cond) + (BodyCommands(yes) + OtherCommands(more));
  }

  lemma {:induction false} IdleBody(body: Body, acts: Acts, at: nat, s: Shell, home: Option<Dir>)
    requires PlayBody(body, acts, at, s, home).Some?
    ensures Idle(BodyCommands(body), s, PlayBody(body, acts, at, s, home).value)
    decreases acts, 3
  {
    hide NoMoves, Commands, RestCommands, Play, PlayRest, Idle;
    IdleItem(body.first, acts.first, at, s, home);
    var p := Play(body.first, acts.first, at, s, home).value;
    var behind := at + |Commands(body.first)|;
    IdleRest(body.rest, acts.rest, behind, p.after, p.ok, home);
    IdleThen(Commands(body.first), RestCommands(body.rest), s, p,
             PlayRest(body.rest, acts.rest, behind, p.after, p.ok, home).value);
  }

  lemma {:induction false} IdleRest(rest: Rest, acts: RestActs, at: nat, s: Shell, ok: bool, home: Option<Dir>)
    requires PlayRest(rest, acts, at, s, ok, home).Some?
    ensures Idle(RestCommands(rest), s, PlayRest(rest, acts, at, s, ok, home).value)
    decreases acts, 3
  {
    hide NoMoves, Commands, Play;
    if rest.More? {
      var next := at + |Commands(rest.item)|;
      if acts.act.Some? {
        IdleItem(rest.item, acts.act.value, at, s, home);
        var p := Play(rest.item, acts.act.value, at, s, home).value;
        IdleRest(rest.rest, acts.rest, next, p.after, p.ok, home);
        IdleThen(Commands(rest.item), RestCommands(rest.rest), s, p,
                 PlayRest(rest.rest, acts.rest, next, p.after, p.ok, home).value);
      } else {
        IdleRest(rest.rest, acts.rest, next, s, ok, home);
        NoMovesParts(Commands(rest.item), RestCommands(rest.rest));
      }
    }
  }

  // ---- how an execution ends ----------------------------------------------------------------------

  lemma {:induction false} ItemEnds(item: Item, act: Act, at: nat, s: Shell, home: Option<Dir>)
    requires Play(item, act, at, s, home).Some? && !Play(item, act, at, s, home).value.ok
    ensures CanEndBadly(item)
    decreases act, 2
  {
    match item
    case Plain(_, _) =>
    case Group(_, inner) => BodyEnds(inner, act.acts, at, s, home);
    case Sub(inner) => BodyEnds(inner, act.acts, at, s, home);
    case Loop(cond, inner) => LoopEnds(cond, inner, act, at, s, true, home);
    case Choice(cond, yes, other) => ChoiceEnds(cond, yes, other, act, at, s, home);
  }

  lemma {:induction false} LoopEnds(cond: Body, inner: Body, act: Act, at: nat, s: Shell, ok: bool, home: Option<Dir>)
    requires PlayLoop(cond, inner, act, at, s, ok, home).Some?
    requires !PlayLoop(cond, inner, act, at, s, ok, home).value.ok
    ensures !ok || BodyCanEndBadly(inner)
    decreases act, 1
  {
    hide BodyCommands, PlayBody, BodyCanEndBadly;
    if act.Round? {
      var p := PlayBody(cond, act.cond, at, s, home).value;
      var behind := at + |BodyCommands(cond)|;
      var q := PlayBody(inner, act.inner, behind, p.after, home).value;
      LoopEnds(cond, inner, act.next, at, q.after, q.ok, home);
      if !q.ok { BodyEnds(inner, act.inner, behind, p.after, home); }
    }
  }

  lemma {:induction false} ChoiceEnds(cond: Body, yes: Body, other: Other, act: Act, at: nat, s: Shell,
      home: Option<Dir>)
    requires PlayChoice(cond, yes, other, act, at, s, home).Some?
    requires !PlayChoice(cond, yes, other, act, at, s, home).value.ok
    ensures BodyCanEndBadly(yes) || OtherCanEndBadly(other)
    decreases act, 1
  {
    hide BodyCommands, PlayBody, BodyCanEndBadly, OtherCanEndBadly, PlayOther;
    var p := PlayBody(cond, act.cond, at, s, home).value;
    var behind := at + |BodyCommands(cond)|;
    match act
    case Yes(_, taken) => BodyEnds(yes, taken, behind, p.after, home);
    case No(_, next) => OtherEnds(other, next, behind + |BodyCommands(yes)|, p.after, home);
  }

  lemma {:induction false} OtherEnds(other: Other, act: Act, at: nat, s: Shell, home: Option<Dir>)
    requires PlayOther(other, act, at, s, home).Some? && !PlayOther(other, act, at, s, home).value.ok
    ensures OtherCanEndBadly(other)
    decreases act, 2
  {
    match other
    case Fi =>
    case Else(no) => BodyEnds(no, act.acts, at, s, home);
    case Elif(cond, yes, more) => ChoiceEnds(cond, yes, more, act, at, s, home);
  }

  lemma {:induction false} BodyEnds(body: Body, acts: Acts, at: nat, s: Shell, home: Option<Dir>)
    requires PlayBody(body, acts, at, s, home).Some? && !PlayBody(body, acts, at, s, home).value.ok
    ensures BodyCanEndBadly(body)
    decreases acts, 3
  {
    hide Commands, Play, PlayRest, CanEndBadly, RestCanEndBadly;
    var p := Play(body.first, acts.first, at, s, home).value;
    if !p.ok { ItemEnds(body.first, acts.first, at, s, home); }
    RestEnds(body.rest, acts.rest, at + |Commands(body.first)|, p.after, p.ok, true, CanEndBadly(body.first), home);
  }

  lemma {:induction false} RestEnds(rest: Rest, acts: RestActs, at: nat, s: Shell, ok: bool, well: bool, badly: bool,
      home: Option<Dir>)
    requires PlayRest(rest, acts, at, s, ok, home).Some? && !PlayRest(rest, acts, at, s, ok, home).value.ok
    requires if ok then well else badly
    ensures RestCanEndBadly(rest, well, badly)
    decreases acts, 3
  {
    hide Commands, Play, CanEndBadly;
    if rest.More? {
      var next := at + |Commands(rest.item)|;
      var runs, skips := rest.link.None? || (if rest.link.value.AndThen? then well else badly),
                         rest.link.Some? && (if rest.link.value.AndThen? then badly else well);
      var w, b := runs || (skips && rest.link == Some(R.OrElse)),
                  (runs && CanEndBadly(rest.item)) || (skips && rest.link == Some(R.AndThen));
      if acts.act.Some? {
        var p := Play(rest.item, acts.act.value, at, s, home).value;
        if !p.ok { ItemEnds(rest.item, acts.act.value, at, s, home); }
        RestEnds(rest.rest, acts.rest, next, p.after, p.ok, w, b, home);
      } else {
        RestEnds(rest.rest, acts.rest, next, s, ok, w, b, home);
      }
    }
  }

  /** An item that is told, and of which nothing was noticed, has ended well. */
  lemma ToldEndsWell(item: Item, act: Act, at: nat, s: Shell, home: Option<Dir>)
    requires Told(item) && !F.Raises(item) && Play(item, act, at, s, home).Some?
    ensures Play(item, act, at, s, home).value.ok
  {
    if !item.Plain? && !Play(item, act, at, s, home).value.ok { ItemEnds(item, act, at, s, home); }
  }

  // ---- routes through forests ------------------------------------------------------------------------

  predicate Here(c: Call, at: nat, commands: seq<Command>) {
    at + |commands| <= Size(c) && c.parsed.commands[at..at + |commands|] == commands
  }

  lemma HereParts(c: Call, at: nat, a: seq<Command>, b: seq<Command>)
    requires Here(c, at, a + b)
    ensures Here(c, at, a) && Here(c, at + |a|, b)
  {
    assert c.parsed.commands[at..at + |a + b|][..|a|] == a;
    assert c.parsed.commands[at..at + |a + b|][|a|..] == b;
  }

  lemma Nowhere(c: Call, i: nat, p: nat, s: Shell)
    requires Known(c) && i <= Size(c)
    ensures Goes(c, i, p, i, s, Done, s, [])
  {
  }

  /** Two stretches of a forest. */
  lemma Both(c: Call, i: nat, p: nat, a: seq<F.Tree>, h: nat, s: Shell, r: Route, mid: Shell, x: seq<(nat, Shell)>,
             next: Route, after: Shell, y: seq<(nat, Shell)>)
    requires Fits(c, i, p, a) && i + F.Size(a) <= h
    requires Goes(c, i, p, i + F.Size(a), s, r, mid, x)
    requires Goes(c, i + F.Size(a), Behind(p, a), h, mid, next, after, y)
    ensures Goes(c, i, p, h, s, Concat(r, next), after, x + y)
  {
    FitsNothing(c, i, p, a);
    hide Fits, Runs, Visits, Bounded, Concat;
    Joined(c, i, p, i + F.Size(a), Behind(p, a), h, s, r, mid, next, after);
  }

  lemma {:induction false} PlainRoute(c: Call, commands: seq<Command>, after: seq<Shell>, at: nat, p: nat, s: Shell)
      returns (r: Route)
    requires Known(c) && Fits(c, at, p, F.Leaves(|commands|)) && Here(c, at, commands)
    requires PlayAll(commands, after, at, s, c.home).Some?
    ensures var o := PlayAll(commands, after, at, s, c.home).value;
            Goes(c, at, p, at + |commands|, s, r, o.after, o.seen)
    decreases commands
  {
    hide Steps, Bounded, Opening;
    if commands == [] {
      r := Done;
      Nowhere(c, at, p, s);
    } else {
      var trees := F.Leaves(|commands|);
      assert trees[1..] == F.Leaves(|commands| - 1);
      FitsLeaf(c, at, p, trees);
      HereParts(c, at, [commands[0]], commands[1..]) by { assert [commands[0]] + commands[1..] == commands; }
      assert c.parsed.commands[at] == commands[0];
      hide Fits;
      var rest := PlainRoute(c, commands[1..], after[1..], at + 1, 0, after[0]);
      r := Exec(after[0], rest);
    }
  }

  // ---- ranges ------------------------------------------------------------------------------------------

  /** How many scopes have opened inside a range; one without commands is none. */
  function Into(p: nat, trees: seq<F.Tree>): nat { if F.Size(trees) == 0 then p else p + 1 }

  lemma WrapFits(c: Call, i: nat, p: nat, guard: Guard, trees: seq<F.Tree>)
    requires Known(c) && Fits(c, i, p, F.Wrap(guard, trees))
    ensures Fits(c, i, Into(p, trees), trees) && i + F.Size(trees) <= Size(c)
    ensures F.Size(trees) > 0 ==>
              p < |Opens(c, i)| && Opens(c, i)[p].0 == i + F.Size(trees) && Kind(c, Opens(c, i)[p].1, Some(guard))
  {
    hide Bounded, Opening, Kind;
    FitsNothing(c, i, Into(p, trees), trees);
    BoundedEnd(c, i, p, F.Wrap(guard, trees));
    F.FlatWrap(guard, trees, i);
    if F.Size(trees) > 0 { FitsNode(c, i, p, F.Wrap(guard, trees)); }
  }

  lemma BoundedEnd(c: Call, i: nat, p: nat, trees: seq<F.Tree>)
    requires Fits(c, i, p, trees)
    ensures i + F.Size(trees) <= Size(c) && Bounded(c.parsed, i, p, i + F.Size(trees))
  {
    FitsNothing(c, i, p, trees);
  }

  /** A range that is run. */
  lemma Entered(c: Call, i: nat, p: nat, trees: seq<F.Tree>, s: Shell, inner: Route, after: Shell,
                seen: seq<(nat, Shell)>)
      returns (r: Route)
    requires Known(c) && Fits(c, i, p, F.Wrap(Maybe, trees))
    requires Goes(c, i, Into(p, trees), i + F.Size(trees), s, inner, after, seen)
    ensures Goes(c, i, p, i + F.Size(trees), s, r, after, seen)
  {
    WrapFits(c, i, p, Maybe, trees);
    hide Bounded, Opening, Fits, F.Wrap, F.Size;
    r := if F.Size(trees) == 0 then inner else Through(s, inner, after, Done);
    Nowhere(c, i + F.Size(trees), 0, after);
    assert seen + [] == seen;
  }

  /** A range that is left out. */
  lemma LeftOut(c: Call, i: nat, p: nat, trees: seq<F.Tree>, s: Shell) returns (r: Route)
    requires Known(c) && Fits(c, i, p, F.Wrap(Maybe, trees))
    ensures Goes(c, i, p, i + F.Size(trees), s, r, s, [])
  {
    WrapFits(c, i, p, Maybe, trees);
    hide Bounded, Opening, Fits, F.Wrap, F.Size;
    r := if F.Size(trees) == 0 then Done else Past(Done);
  }

  /** A range that breaks off where the shell is the one it began with. */
  lemma Breaks(c: Call, i: nat, p: nat, trees: seq<F.Tree>, end: nat, s: Shell, inner: Route, seen: seq<(nat, Shell)>)
      returns (r: Route)
    requires Known(c) && Fits(c, i, p, F.Wrap(Maybe, trees)) && end <= i + F.Size(trees)
    requires Bounded(c.parsed, i, Into(p, trees), end) && Goes(c, i, Into(p, trees), end, s, inner, s, seen)
    ensures Goes(c, i, p, i + F.Size(trees), s, r, s, seen)
  {
    WrapFits(c, i, p, Maybe, trees);
    assert i <= end;
    hide Bounded, Opening, Fits, F.Wrap, F.Size, Steps, Starts;
    r := if F.Size(trees) == 0 then inner else Part(end, inner, Done);
    Nowhere(c, i + F.Size(trees), 0, s);
    assert seen + [] == seen;
  }

  lemma BrokenOff(c: Call, i: nat, p: nat, a: seq<F.Tree>, b: seq<F.Tree>, s: Shell, inner: Route,
                  seen: seq<(nat, Shell)>)
      returns (r: Route)
    requires Known(c) && Fits(c, i, p, F.Wrap(Maybe, a + b))
    requires Goes(c, i, Into(p, a + b), i + F.Size(a), s, inner, s, seen)
    ensures Goes(c, i, p, i + F.Size(a + b), s, r, s, seen)
  {
    hide *;
    WrapFits(c, i, p, Maybe, a + b);
    FitsParts(c, i, Into(p, a + b), a, b);
    BoundedEnd(c, i, Into(p, a + b), a);
    F.SizeJoin(a, b);
    r := Breaks(c, i, p, a + b, i + F.Size(a), s, inner, seen);
  }

  // ---- what is left of a list -----------------------------------------------------------------------------

  function ActWeight(act: Act): nat
    decreases act
  {
    match act
    case Inside(acts) => 1 + ActsWeight(acts)
    case Round(cond, inner, next) => 1 + ActsWeight(cond) + ActsWeight(inner) + ActWeight(next)
    case Tested(cond) => 1 + ActsWeight(cond)
    case Yes(cond, yes) => 1 + ActsWeight(cond) + ActsWeight(yes)
    case No(cond, other) => 1 + ActsWeight(cond) + ActWeight(other)
    case _ => 1
  }

  function ActsWeight(acts: Acts): nat
    decreases acts
  {
    1 + ActWeight(acts.first) + RestActsWeight(acts.rest)
  }

  function RestActsWeight(acts: RestActs): nat
    decreases acts
  {
    match acts
    case Over => 0
    case Onward(act, rest) => 1 + (if act.Some? then ActWeight(act.value) else 0) + RestActsWeight(rest)
  }

  /** The rest is heard and its conditions move nothing. */
  predicate Fair(rest: Rest) {
    rest.Nothing? || (Heard(rest.item) && HeardRest(rest.item, rest.rest) && Still(rest.item) && StillRest(rest.rest))
  }

  lemma FairNext(before: Item, rest: Rest)
    requires HeardRest(before, rest) && StillRest(rest)
    ensures Fair(rest)
  {
  }

  lemma {:induction false} FairBehind(rest: Rest, plain: bool, endsOn: Option<R.Operator>)
    requires Fair(rest)
    ensures Fair(F.UpTo(rest, plain, endsOn).rest)
    decreases F.RestWeight(rest)
  {
    if !F.Closed(rest, endsOn) {
      FairNext(rest.item, rest.rest);
      hide Fair, F.UpTo, Heard, Still, F.Forest, F.Raises;
      if F.Ranged(rest, plain) {
        F.UpToRange(rest, plain, endsOn);
        var range := F.InRange(rest, plain);
        FairBehind(rest.rest, F.StillPlain(rest, plain), Some(F.EndOf(rest.link.value)));
        FairBehind(range.rest, range.plain, endsOn);
      } else {
        F.UpToNext(rest, plain, endsOn);
        FairBehind(rest.rest, F.Raises(rest.item), endsOn);
      }
    }
  }

  /** A list of which nothing failing was read has gone well when an `&&` follows. */
  predicate Hears(rest: Rest, plain: bool, ok: bool) {
    rest.More? && rest.link == Some(R.AndThen) && !plain ==> ok
  }

  /** A stretch was executed, and the rest of the list goes on behind it. */
  ghost predicate Carried(c: Call, i: nat, p: nat, s: Shell, whole: Played, commands: seq<Command>, rest: Rest,
                          plain: bool, r: Route, mid: Shell, seen: seq<(nat, Shell)>, more: RestActs, ok: bool) {
    Goes(c, i, p, i + |commands|, s, r, mid, seen) && Fair(rest) && Hears(rest, plain, ok) &&
    var q := PlayRest(rest, more, i + |commands|, mid, ok, c.home);
    q.Some? && whole == Then(Played(mid, seen, ok), q.value)
  }

  /** A range whose first item is skipped is skipped as a whole. */
  lemma {:induction false} SkipsAll(rest: Rest, plain: bool, e: R.Operator, acts: RestActs, at: nat, s: Shell,
      ok: bool, home: Option<Dir>)
      returns (more: RestActs)
    requires PlayRest(rest, acts, at, s, ok, home).Some? && ok == e.AndThen?
    ensures var cut := F.UpTo(rest, plain, Some(e));
            PlayRest(cut.rest, more, at + |cut.commands|, s, ok, home) == PlayRest(rest, acts, at, s, ok, home) &&
            RestActsWeight(more) <= RestActsWeight(acts)
    decreases F.RestWeight(rest)
  {
    hide *;
    if F.Closed(rest, Some(e)) {
      more := acts;
      NothingLeft(rest, plain, e);
    } else {
      SkipsOne(rest, acts, at, s, ok, e, home);
      var next, n := at + |Commands(rest.item)|, |F.UpTo(rest, plain, Some(e)).commands|;
      if F.Ranged(rest, plain) {
        F.UpToRange(rest, plain, Some(e));
        IsRange(rest, plain);
        var range, still := F.InRange(rest, plain), F.StillPlain(rest, plain);
        var last := F.UpTo(range.rest, range.plain, Some(e));
        assert at + n == next + |range.commands| + |last.commands|;
        var inner := SkipsAll(rest.rest, still, e, acts.rest, next, s, ok, home);
        more := SkipsAll(range.rest, range.plain, e, inner, next + |range.commands|, s, ok, home);
      } else {
        F.UpToNext(rest, plain, Some(e));
        var raises := F.Raises(rest.item);
        assert at + n == next + |F.UpTo(rest.rest, raises, Some(e)).commands|;
        more := SkipsAll(rest.rest, raises, e, acts.rest, next, s, ok, home);
      }
    }
  }

  lemma IsRange(rest: Rest, plain: bool)
    requires F.Ranged(rest, plain)
    ensures F.InRange(rest, plain) ==
            F.UpTo(rest.rest, F.StillPlain(rest, plain), Some(F.EndOf(rest.link.value)))
  {
    hide F.UpTo, F.StillPlain;
  }

  lemma NothingLeft(rest: Rest, plain: bool, e: R.Operator)
    requires F.Closed(rest, Some(e))
    ensures F.UpTo(rest, plain, Some(e)) == F.Cut([], [], rest, plain)
  {
  }

  lemma SkipsOne(rest: Rest, acts: RestActs, at: nat, s: Shell, ok: bool, e: R.Operator, home: Option<Dir>)
    requires PlayRest(rest, acts, at, s, ok, home).Some? && ok == e.AndThen? && !F.Closed(rest, Some(e))
    ensures acts.Onward? && rest.More? && rest.link.Some? && F.EndOf(rest.link.value) == e
    ensures PlayRest(rest, acts, at, s, ok, home) ==
            PlayRest(rest.rest, acts.rest, at + |Commands(rest.item)|, s, ok, home)
    ensures RestActsWeight(acts.rest) <= RestActsWeight(acts) && F.RestWeight(rest.rest) < F.RestWeight(rest)
  {
    hide Play, Commands;
    assert !GoesOn(rest.link, ok);
  }

  // ---- one step of a list ---------------------------------------------------------------------------------

  lemma RestRuns(rest: Rest, acts: RestActs, at: nat, s: Shell, ok: bool, home: Option<Dir>)
    requires rest.More? && acts.Onward? && acts.act.Some? && PlayRest(rest, acts, at, s, ok, home).Some?
    ensures var p := Play(rest.item, acts.act.value, at, s, home);
            p.Some? &&
            var q := PlayRest(rest.rest, acts.rest, at + |Commands(rest.item)|, p.value.after, p.value.ok, home);
            q.Some? && PlayRest(rest, acts, at, s, ok, home).value == Then(p.value, q.value)
    ensures ActWeight(acts.act.value) < RestActsWeight(acts) && RestActsWeight(acts.rest) < RestActsWeight(acts)
    ensures GoesOn(rest.link, ok)
  {
    hide Play, Commands;
  }

  lemma RestSkips(rest: Rest, acts: RestActs, at: nat, s: Shell, ok: bool, home: Option<Dir>)
    requires rest.More? && PlayRest(rest, acts, at, s, ok, home).Some? && !(acts.Onward? && acts.act.Some?)
    ensures acts.Onward? && !GoesOn(rest.link, ok) && RestActsWeight(acts.rest) < RestActsWeight(acts)
    ensures PlayRest(rest, acts, at, s, ok, home) ==
            PlayRest(rest.rest, acts.rest, at + |Commands(rest.item)|, s, ok, home)
  {
    hide Play, Commands;
  }

  lemma ThenTwice(x: seq<(nat, Shell)>, y: seq<(nat, Shell)>, a: Shell, b: Shell, m: bool, n: bool, q: Played)
    ensures Then(Played(a, x, m), Then(Played(b, y, n), q)) == Then(Played(b, x + y, n), q)
    ensures Then(Played(a, [], m), q) == q
  {
    JoinVisits(x, y, q.seen);
    assert [] + q.seen == q.seen;
  }

  lemma Onwards(c: Call, i: nat, p: nat, a: seq<F.Tree>, s: Shell, first: seq<Command>, r: Route, played: Played,
                whole: Played, commands: seq<Command>, rest: Rest, plain: bool, next: Route, mid: Shell,
                seen: seq<(nat, Shell)>, more: RestActs, ok: bool)
    requires Fits(c, i, p, a) && F.Size(a) == |first| && Goes(c, i, p, i + |first|, s, r, played.after, played.seen)
    requires Carried(c, i + |first|, Behind(p, a), played.after, whole, commands, rest, plain, next, mid, seen, more,
                     ok)
    ensures Carried(c, i, p, s, Then(played, whole), first + commands, rest, plain, Concat(r, next), mid,
                    played.seen + seen, more, ok)
  {
    hide Fits, F.Size, Behind, Goes, Fair, Hears, PlayRest;
    var h := i + |first| + |commands|;
    var q := PlayRest(rest, more, h, mid, ok, c.home);
    Both(c, i, p, a, h, s, r, played.after, played.seen, next, mid, seen);
    ThenTwice(played.seen, seen, played.after, mid, played.ok, ok, q.value);
    assert |first + commands| == |first| + |commands|;
  }

  lemma NothingCarried(c: Call, i: nat, p: nat, s: Shell, rest: Rest, plain: bool, acts: RestActs, ok: bool)
    requires Known(c) && i <= Size(c) && Fair(rest) && Hears(rest, plain, ok)
    requires PlayRest(rest, acts, i, s, ok, c.home).Some?
    ensures Carried(c, i, p, s, PlayRest(rest, acts, i, s, ok, c.home).value, [], rest, plain, Done, s, [], acts, ok)
  {
    hide Fair, Hears, PlayRest;
    Nowhere(c, i, p, s);
    ThenTwice([], [], s, s, ok, ok, PlayRest(rest, acts, i, s, ok, c.home).value);
  }

  /** Behind an item that was executed the list has gone well, as far as the parser heard. */
  lemma HearsNext(rest: Rest, plain: bool, act: Act, at: nat, s: Shell, home: Option<Dir>)
    requires rest.More? && Fair(rest) && (F.Raises(rest.item) ==> plain) && Play(rest.item, act, at, s, home).Some?
    ensures Fair(rest.rest) && Hears(rest.rest, plain, Play(rest.item, act, at, s, home).value.ok)
  {
    FairNext(rest.item, rest.rest);
    hide Play, Heard, HeardRest, Still, F.Raises, Told;
    if rest.rest.More? && rest.rest.link == Some(R.AndThen) && !plain {
      assert Told(rest.item) by { HeardTold(rest.item, rest.rest); }
      ToldEndsWell(rest.item, act, at, s, home);
    }
  }

  lemma HeardTold(before: Item, rest: Rest)
    requires HeardRest(before, rest) && rest.More? && rest.link == Some(R.AndThen)
    ensures Told(before)
  {
  }

  // ---- routes through scripts ---------------------------------------------------------------------------------

  /** An item that is executed, and the list behind it. */
  lemma {:induction false} ItemThen(c: Call, rest: Rest, plain: bool, endsOn: Option<R.Operator>, acts: RestActs,
                                    at: nat, p: nat, s: Shell, ok: bool)
      returns (r: Route, mid: Shell, seen: seq<(nat, Shell)>, more: RestActs, now: bool)
    requires Known(c) && rest.More? && acts.Onward? && acts.act.Some? && Fair(rest) && (F.Raises(rest.item) ==> plain)
    requires var cut := F.UpTo(rest.rest, plain, endsOn);
             Fits(c, at, p, F.Forest(rest.item) + cut.trees) && Here(c, at, Commands(rest.item) + cut.commands)
    requires PlayRest(rest, acts, at, s, ok, c.home).Some?
    ensures var cut := F.UpTo(rest.rest, plain, endsOn);
            Carried(c, at, p, s, PlayRest(rest, acts, at, s, ok, c.home).value, Commands(rest.item) + cut.commands,
                    cut.rest, cut.plain, r, mid, seen, more, now)
    ensures RestActsWeight(more) < RestActsWeight(acts)
    decreases RestActsWeight(acts), 0
  {
    hide *;
    var item, act, cut := rest.item, acts.act.value, F.UpTo(rest.rest, plain, endsOn);
    RestRuns(rest, acts, at, s, ok, c.home);
    HereParts(c, at, Commands(item), cut.commands);
    FitsParts(c, at, p, F.Forest(item), cut.trees);
    F.ItemSize(item);
    FairItem(rest);
    var first := ItemRoute(c, item, act, at, p, s);
    var o := Play(item, act, at, s, c.home).value;
    HearsNext(rest, plain, act, at, s, c.home);
    var k := at + |Commands(item)|;
    var next;
    var q, whole := Behind(p, F.Forest(item)), PlayRest(rest.rest, acts.rest, k, o.after, o.ok, c.home).value;
    next, mid, seen, more, now := RestRoute(c, rest.rest, plain, endsOn, acts.rest, k, q, o.after, o.ok);
    Onwards(c, at, p, F.Forest(item), s, Commands(item), first, o, whole, cut.commands, cut.rest, cut.plain, next, mid,
            seen, more, now);
    r, seen := Concat(first, next), o.seen + seen;
  }

  lemma FairItem(rest: Rest)
    requires Fair(rest) && rest.More?
    ensures Heard(rest.item) && Still(rest.item)
  {
  }

  lemma {:induction false} RestRoute(c: Call, rest: Rest, plain: bool, endsOn: Option<R.Operator>, acts: RestActs,
                                     at: nat, p: nat, s: Shell, ok: bool)
      returns (r: Route, mid: Shell, seen: seq<(nat, Shell)>, more: RestActs, now: bool)
    requires Known(c) && Fair(rest) && Hears(rest, plain, ok)
    requires var cut := F.UpTo(rest, plain, endsOn); Fits(c, at, p, cut.trees) && Here(c, at, cut.commands)
    requires PlayRest(rest, acts, at, s, ok, c.home).Some?
    ensures var cut := F.UpTo(rest, plain, endsOn);
            Carried(c, at, p, s, PlayRest(rest, acts, at, s, ok, c.home).value, cut.commands, cut.rest, cut.plain, r,
                    mid, seen, more, now)
    ensures RestActsWeight(more) <= RestActsWeight(acts)
    decreases RestActsWeight(acts), 3
  {
    hide *;
    if F.Closed(rest, endsOn) {
      ClosedHere(c, rest, plain, endsOn, at);
      r, mid, seen, more, now := Done, s, [], acts, ok;
      NothingCarried(c, at, p, s, rest, plain, acts, ok);
    } else if F.Ranged(rest, plain) {
      r, mid, seen, more, now := RangeRoute(c, rest, plain, endsOn, acts, at, p, s, ok);
    } else {
      F.UpToNext(rest, plain, endsOn);
      MustRun(rest, plain, endsOn, acts, at, s, ok, c.home);
      r, mid, seen, more, now := ItemThen(c, rest, F.Raises(rest.item), endsOn, acts, at, p, s, ok);
    }
  }

  lemma ClosedHere(c: Call, rest: Rest, plain: bool, endsOn: Option<R.Operator>, at: nat)
    requires F.Closed(rest, endsOn) && Here(c, at, F.UpTo(rest, plain, endsOn).commands)
    ensures F.UpTo(rest, plain, endsOn) == F.Cut([], [], rest, plain) && at <= Size(c)
  {
  }

  /** Where no range opens, the next item is executed. */
  lemma MustRun(rest: Rest, plain: bool, endsOn: Option<R.Operator>, acts: RestActs, at: nat, s: Shell, ok: bool,
                home: Option<Dir>)
    requires !F.Closed(rest, endsOn) && !F.Ranged(rest, plain) && Hears(rest, plain, ok)
    requires PlayRest(rest, acts, at, s, ok, home).Some?
    ensures rest.More? && acts.Onward? && acts.act.Some?
  {
    hide Play, Commands;
  }

  /** A range of a list, and what stands behind it. */
  lemma {:induction false} RangeRoute(c: Call, rest: Rest, plain: bool, endsOn: Option<R.Operator>, acts: RestActs,
                                      at: nat, p: nat, s: Shell, ok: bool)
      returns (r: Route, mid: Shell, seen: seq<(nat, Shell)>, more: RestActs, now: bool)
    requires Known(c) && Fair(rest) && !F.Closed(rest, endsOn) && F.Ranged(rest, plain)
    requires var cut := F.UpTo(rest, plain, endsOn); Fits(c, at, p, cut.trees) && Here(c, at, cut.commands)
    requires PlayRest(rest, acts, at, s, ok, c.home).Some?
    ensures var cut := F.UpTo(rest, plain, endsOn);
            Carried(c, at, p, s, PlayRest(rest, acts, at, s, ok, c.home).value, cut.commands, cut.rest, cut.plain, r,
                    mid, seen, more, now)
    ensures RestActsWeight(more) <= RestActsWeight(acts)
    decreases RestActsWeight(acts), 2
  {
    hide *;
    RangedIs(rest, plain);
    F.UpToRange(rest, plain, endsOn);
    IsRange(rest, plain);
    var item, range := rest.item, F.InRange(rest, plain);
    var still, e := F.StillPlain(rest, plain), F.EndOf(rest.link.value);
    var last := F.UpTo(range.rest, range.plain, endsOn);
    var trees, commands := F.Forest(item) + range.trees, Commands(item) + range.commands;
    HereParts(c, at, commands, last.commands);
    FitsParts(c, at, p, F.Wrap(Maybe, trees), last.trees);
    RangeSize(rest, plain);
    F.FlatWrap(Maybe, trees, at);
    WrapFits(c, at, p, Maybe, trees);
    var first, played, left;
    if acts.Onward? && acts.act.Some? {
      first, played, left := RangeRuns(c, rest, plain, acts, at, p, s, ok);
    } else {
      first, played, left := RangeSkips(c, rest, plain, acts, at, p, s, ok);
    }
    var k, q := at + |commands|, Behind(p, F.Wrap(Maybe, trees));
    BehindHas(c, rest, plain, acts, at, p, s, ok, first, played, left);
    var next;
    next, mid, seen, more, now := RestRoute(c, range.rest, range.plain, endsOn, left, k, q, played.after, played.ok);
    Onwards(c, at, p, F.Wrap(Maybe, trees), s, commands, first, played,
            PlayRest(range.rest, left, k, played.after, played.ok, c.home).value, last.commands, last.rest, last.plain,
            next, mid, seen, more, now);
    r, seen := Concat(first, next), played.seen + seen;
  }

  lemma RangedIs(rest: Rest, plain: bool)
    requires F.Ranged(rest, plain)
    ensures rest.More? && rest.link.Some? && (F.Raises(rest.item) ==> F.StillPlain(rest, plain))
  {
  }

  lemma RangeSize(rest: Rest, plain: bool)
    requires F.Ranged(rest, plain)
    ensures var range := F.InRange(rest, plain);
            F.Size(F.Forest(rest.item) + range.trees) == |Commands(rest.item) + range.commands|
  {
    hide F.Forest, Commands, F.UpTo, F.Size;
    var range := F.InRange(rest, plain);
    F.ItemSize(rest.item);
    F.UpToSize(rest.rest, F.StillPlain(rest, plain), Some(F.EndOf(rest.link.value)));
    F.SizeJoin(F.Forest(rest.item), range.trees);
  }

  /** Behind a range the list goes on. */
  ghost predicate GoesBehind(c: Call, rest: Rest, plain: bool, acts: RestActs, at: nat, p: nat, s: Shell, ok: bool,
                             r: Route, played: Played, left: RestActs)
    requires F.Ranged(rest, plain)
  {
    var range := F.InRange(rest, plain);
    var k := at + |Commands(rest.item) + range.commands|;
    var q := PlayRest(range.rest, left, k, played.after, played.ok, c.home);
    Goes(c, at, p, k, s, r, played.after, played.seen) && Fair(range.rest) &&
    Hears(range.rest, range.plain, played.ok) && q.Some? &&
    PlayRest(rest, acts, at, s, ok, c.home) == Some(Then(played, q.value)) &&
    RestActsWeight(left) < RestActsWeight(acts)
  }

  lemma {:induction false} RangeRuns(c: Call, rest: Rest, plain: bool, acts: RestActs, at: nat, p: nat, s: Shell,
                                     ok: bool)
      returns (r: Route, played: Played, left: RestActs)
    requires Known(c) && Fair(rest) && F.Ranged(rest, plain) && acts.Onward? && acts.act.Some?
    requires var range := F.InRange(rest, plain);
             var trees := F.Forest(rest.item) + range.trees;
             Here(c, at, Commands(rest.item) + range.commands) && Fits(c, at, p, F.Wrap(Maybe, trees)) &&
             F.Size(trees) == |Commands(rest.item) + range.commands|
    requires PlayRest(rest, acts, at, s, ok, c.home).Some?
    ensures GoesBehind(c, rest, plain, acts, at, p, s, ok, r, played, left)
    decreases RestActsWeight(acts), 1
  {
    hide *;
    RangedIs(rest, plain);
    IsRange(rest, plain);
    var range := F.InRange(rest, plain);
    var trees, commands := F.Forest(rest.item) + range.trees, Commands(rest.item) + range.commands;
    WrapFits(c, at, p, Maybe, trees);
    var still, e, q := F.StillPlain(rest, plain), F.EndOf(rest.link.value), Into(p, trees);
    var inner, mid, seen, more, now := ItemThen(c, rest, still, Some(e), acts, at, q, s, ok);
    CarriedIs(c, at, q, s, PlayRest(rest, acts, at, s, ok, c.home).value, commands, range.rest, range.plain, inner, mid,
              seen, more, now);
    r := Entered(c, at, p, trees, s, inner, mid, seen);
    played, left := Played(mid, seen, now), more;
    BehindIs(c, rest, plain, acts, at, p, s, ok, r, played, left);
  }

  lemma CarriedIs(c: Call, i: nat, p: nat, s: Shell, whole: Played, commands: seq<Command>, rest: Rest, plain: bool,
                  r: Route, mid: Shell, seen: seq<(nat, Shell)>, more: RestActs, ok: bool)
    requires Carried(c, i, p, s, whole, commands, rest, plain, r, mid, seen, more, ok)
    ensures Goes(c, i, p, i + |commands|, s, r, mid, seen) && Fair(rest) && Hears(rest, plain, ok)
    ensures var q := PlayRest(rest, more, i + |commands|, mid, ok, c.home);
            q.Some? && whole == Then(Played(mid, seen, ok), q.value)
  {
    hide Goes, Fair, Hears, PlayRest;
  }

  lemma BehindIs(c: Call, rest: Rest, plain: bool, acts: RestActs, at: nat, p: nat, s: Shell, ok: bool, r: Route,
                 played: Played, left: RestActs)
    requires F.Ranged(rest, plain)
    requires var range := F.InRange(rest, plain);
             var k := at + |Commands(rest.item) + range.commands|;
             var q := PlayRest(range.rest, left, k, played.after, played.ok, c.home);
             Goes(c, at, p, k, s, r, played.after, played.seen) && Fair(range.rest) &&
             Hears(range.rest, range.plain, played.ok) && q.Some? &&
             PlayRest(rest, acts, at, s, ok, c.home) == Some(Then(played, q.value)) &&
             RestActsWeight(left) < RestActsWeight(acts)
    ensures GoesBehind(c, rest, plain, acts, at, p, s, ok, r, played, left)
  {
    hide Goes, Fair, Hears, PlayRest, F.InRange, Commands;
  }

  lemma BehindHas(c: Call, rest: Rest, plain: bool, acts: RestActs, at: nat, p: nat, s: Shell, ok: bool, r: Route,
                  played: Played, left: RestActs)
    requires F.Ranged(rest, plain) && GoesBehind(c, rest, plain, acts, at, p, s, ok, r, played, left)
    ensures var range := F.InRange(rest, plain);
            var k := at + |Commands(rest.item) + range.commands|;
            var q := PlayRest(range.rest, left, k, played.after, played.ok, c.home);
            Goes(c, at, p, k, s, r, played.after, played.seen) && Fair(range.rest) &&
            Hears(range.rest, range.plain, played.ok) && q.Some? &&
            PlayRest(rest, acts, at, s, ok, c.home) == Some(Then(played, q.value)) &&
            RestActsWeight(left) < RestActsWeight(acts)
  {
    hide Goes, Fair, Hears, PlayRest, F.InRange, Commands;
  }

  lemma RangeSkips(c: Call, rest: Rest, plain: bool, acts: RestActs, at: nat, p: nat, s: Shell, ok: bool)
      returns (r: Route, played: Played, left: RestActs)
    requires Known(c) && Fair(rest) && F.Ranged(rest, plain) && !(acts.Onward? && acts.act.Some?)
    requires var range := F.InRange(rest, plain);
             var trees := F.Forest(rest.item) + range.trees;
             Fits(c, at, p, F.Wrap(Maybe, trees)) && F.Size(trees) == |Commands(rest.item) + range.commands|
    requires PlayRest(rest, acts, at, s, ok, c.home).Some?
    ensures GoesBehind(c, rest, plain, acts, at, p, s, ok, r, played, left)
  {
    hide *;
    RangedIs(rest, plain);
    IsRange(rest, plain);
    var range, e := F.InRange(rest, plain), F.EndOf(rest.link.value);
    var still, next := F.StillPlain(rest, plain), at + |Commands(rest.item)|;
    var trees := F.Forest(rest.item) + range.trees;
    RestSkips(rest, acts, at, s, ok, c.home);
    SkipsEnd(rest.link.value, ok);
    r := LeftOut(c, at, p, trees, s);
    left := SkipsAll(rest.rest, still, e, acts.rest, next, s, ok, c.home);
    played := Played(s, [], ok);
    FairSkipped(rest, still, e);
    HearsSkipped(rest.rest, still, e, ok);
    assert at + |Commands(rest.item) + range.commands| == next + |range.commands|;
    ThenTwice([], [], s, s, ok, ok, PlayRest(rest, acts, at, s, ok, c.home).value);
    BehindIs(c, rest, plain, acts, at, p, s, ok, r, played, left);
  }

  lemma SkipsEnd(operator: R.Operator, ok: bool)
    requires !GoesOn(Some(operator), ok)
    ensures ok == F.EndOf(operator).AndThen?
  {
  }

  lemma FairSkipped(rest: Rest, still: bool, e: R.Operator)
    requires Fair(rest) && rest.More?
    ensures Fair(F.UpTo(rest.rest, still, Some(e)).rest)
  {
    FairNext(rest.item, rest.rest);
    hide Fair;
    FairBehind(rest.rest, still, Some(e));
  }

  lemma HearsSkipped(rest: Rest, plain: bool, e: R.Operator, ok: bool)
    requires ok == e.AndThen?
    ensures var cut := F.UpTo(rest, plain, Some(e)); Hears(cut.rest, cut.plain, ok)
  {
    F.Stops(rest, plain, Some(e));
    hide F.UpTo;
  }

  // ---- items ---------------------------------------------------------------------------------------------------

  lemma {:induction false} BodyRoute(c: Call, body: Body, acts: Acts, at: nat, p: nat, s: Shell) returns (r: Route)
    requires Known(c) && HeardBody(body) && StillBody(body)
    requires Fits(c, at, p, F.BodyForest(body)) && Here(c, at, BodyCommands(body))
    requires PlayBody(body, acts, at, s, c.home).Some?
    ensures var o := PlayBody(body, acts, at, s, c.home).value;
            Goes(c, at, p, at + |BodyCommands(body)|, s, r, o.after, o.seen)
    decreases ActsWeight(acts), 0
  {
    hide *;
    var item, rest, raises := body.first, body.rest, F.Raises(body.first);
    var cut := F.UpTo(rest, raises, None);
    BodyIs(body, acts, at, s, c.home);
    HereParts(c, at, Commands(item), RestCommands(rest));
    FitsParts(c, at, p, F.Forest(item), cut.trees);
    F.ItemSize(item);
    F.AllOfIt(rest, raises);
    F.UpToSize(rest, raises, None);
    NoneLeft(cut.rest, cut.commands);
    FirstHeard(body, acts.first, at, s, c.home);
    var first := ItemRoute(c, item, acts.first, at, p, s);
    var o := Play(item, acts.first, at, s, c.home).value;
    var k := at + |Commands(item)|;
    var next, mid, seen, more, now := RestRoute(c, rest, raises, None, acts.rest, k, Behind(p, F.Forest(item)), o.after,
                                                o.ok);
    var whole := PlayRest(rest, acts.rest, k, o.after, o.ok, c.home).value;
    CarriedIs(c, k, Behind(p, F.Forest(item)), o.after, whole, cut.commands, cut.rest, cut.plain, next, mid, seen, more,
              now);
    NothingPlayed(cut.rest, more, k + |cut.commands|, mid, now, c.home, seen);
    Both(c, at, p, F.Forest(item), at + |BodyCommands(body)|, s, first, o.after, o.seen, next, mid, seen);
    r := Concat(first, next);
  }

  lemma BodyIs(body: Body, acts: Acts, at: nat, s: Shell, home: Option<Dir>)
    requires PlayBody(body, acts, at, s, home).Some?
    ensures var p := Play(body.first, acts.first, at, s, home);
            p.Some? &&
            var q := PlayRest(body.rest, acts.rest, at + |Commands(body.first)|, p.value.after, p.value.ok, home);
            q.Some? && PlayBody(body, acts, at, s, home).value == q.value.(seen := p.value.seen + q.value.seen)
    ensures ActWeight(acts.first) < ActsWeight(acts) && RestActsWeight(acts.rest) < ActsWeight(acts)
    ensures F.BodyForest(body) == F.Forest(body.first) + F.UpTo(body.rest, F.Raises(body.first), None).trees
    ensures BodyCommands(body) == Commands(body.first) + RestCommands(body.rest)
  {
    hide Play, PlayRest, Commands, RestCommands, F.Forest, F.UpTo, F.Raises;
  }

  lemma NoneLeft(rest: Rest, commands: seq<Command>)
    requires rest.Nothing?
    ensures commands + RestCommands(rest) == commands
  {
  }

  lemma NothingPlayed(rest: Rest, acts: RestActs, at: nat, s: Shell, ok: bool, home: Option<Dir>,
                      seen: seq<(nat, Shell)>)
    requires rest.Nothing? && PlayRest(rest, acts, at, s, ok, home).Some?
    ensures Then(Played(s, seen, ok), PlayRest(rest, acts, at, s, ok, home).value) == Played(s, seen, ok)
  {
    assert seen + [] == seen;
  }

  lemma FirstHeard(body: Body, act: Act, at: nat, s: Shell, home: Option<Dir>)
    requires HeardBody(body) && StillBody(body) && Play(body.first, act, at, s, home).Some?
    ensures Heard(body.first) && Still(body.first) && Fair(body.rest)
    ensures Hears(body.rest, F.Raises(body.first), Play(body.first, act, at, s, home).value.ok)
  {
    FairNext(body.first, body.rest);
    hide Play, F.Raises, Told, Heard, Still;
    if body.rest.More? && body.rest.link == Some(R.AndThen) && !F.Raises(body.first) {
      assert Told(body.first) by { HeardTold(body.first, body.rest); }
      ToldEndsWell(body.first, act, at, s, home);
    }
  }

  lemma {:induction false} ItemRoute(c: Call, item: Item, act: Act, at: nat, p: nat, s: Shell) returns (r: Route)
    requires Known(c) && Heard(item) && Still(item)
    requires Fits(c, at, p, F.Forest(item)) && Here(c, at, Commands(item))
    requires Play(item, act, at, s, c.home).Some?
    ensures var o := Play(item, act, at, s, c.home).value;
            Goes(c, at, p, at + |Commands(item)|, s, r, o.after, o.seen)
    decreases ActWeight(act), 3
  {
    hide *;
    if Commands(item) == [] {
      IdleItem(item, act, at, s, c.home);
      r := Done;
      NothingRuns(c, at, p, s, Commands(item), Play(item, act, at, s, c.home).value);
    } else if item.Plain? {
      PlainIs(item, act, at, s, c.home);
      r := PlainRoute(c, item.commands, act.after, at, p, s);
    } else if item.Group? {
      GroupIs(item, act, at, s, c.home);
      r := BodyRoute(c, item.inner, act.acts, at, p, s);
    } else if item.Sub? {
      OwnIs(item, act, at, s, c.home);
      r := SubRoute(c, item.inner, act, at, p, s);
    } else if item.Loop? {
      r := LoopRoute(c, item, act, at, p, s);
    } else {
      r := ChoiceRoute(c, item, act, at, p, s);
    }
  }

  lemma NothingRuns(c: Call, at: nat, p: nat, s: Shell, commands: seq<Command>, o: Played)
    requires Known(c) && commands == [] && Idle(commands, s, o) && Here(c, at, commands)
    ensures Goes(c, at, p, at + |commands|, s, Done, o.after, o.seen)
  {
  }

  lemma PlainIs(item: Item, act: Act, at: nat, s: Shell, home: Option<Dir>)
    requires item.Plain? && Play(item, act, at, s, home).Some?
    ensures act.Ran? && Commands(item) == item.commands && F.Forest(item) == F.Leaves(|item.commands|)
    ensures var o := PlayAll(item.commands, act.after, at, s, home);
            o.Some? && Play(item, act, at, s, home).value == o.value.(ok := act.ok)
  {
    hide PlayAll;
  }

  lemma GroupIs(item: Item, act: Act, at: nat, s: Shell, home: Option<Dir>)
    requires item.Group? && Heard(item) && Still(item) && Play(item, act, at, s, home).Some?
    ensures act.Inside? && Commands(item) == BodyCommands(item.inner) && F.Forest(item) == F.BodyForest(item.inner)
    ensures Play(item, act, at, s, home) == PlayBody(item.inner, act.acts, at, s, home)
    ensures HeardBody(item.inner) && StillBody(item.inner) && ActsWeight(act.acts) < ActWeight(act)
  {
    hide PlayBody, BodyCommands, F.BodyForest, HeardBody, StillBody;
  }

  lemma OwnIs(item: Item, act: Act, at: nat, s: Shell, home: Option<Dir>)
    requires item.Sub? && Heard(item) && Still(item) && Play(item, act, at, s, home).Some?
    ensures act.Inside? && Commands(item) == BodyCommands(item.inner)
    ensures F.Forest(item) == [F.Node(None, F.BodyForest(item.inner))]
    ensures var o := PlayBody(item.inner, act.acts, at, s, home);
            o.Some? && Play(item, act, at, s, home).value == o.value.(after := s)
    ensures HeardBody(item.inner) && StillBody(item.inner)
  {
    hide PlayBody, BodyCommands, F.BodyForest, HeardBody, StillBody;
  }

  lemma {:induction false} SubRoute(c: Call, inner: Body, act: Act, at: nat, p: nat, s: Shell) returns (r: Route)
    requires Known(c) && HeardBody(inner) && StillBody(inner) && act.Inside? && BodyCommands(inner) != []
    requires Fits(c, at, p, [F.Node(None, F.BodyForest(inner))]) && Here(c, at, BodyCommands(inner))
    requires PlayBody(inner, act.acts, at, s, c.home).Some?
    ensures Goes(c, at, p, at + |BodyCommands(inner)|, s, r, s, PlayBody(inner, act.acts, at, s, c.home).value.seen)
    decreases ActWeight(act), 2
  {
    hide *;
    var trees, h := F.BodyForest(inner), at + |BodyCommands(inner)|;
    F.BodySize(inner);
    SubIs(c, at, p, trees);
    InsideIs(act);
    HereEnds(c, at, BodyCommands(inner));
    var o := PlayBody(inner, act.acts, at, s, c.home).value;
    var body := BodyRoute(c, inner, act.acts, at, p + 1, s);
    r := OwnGoes(c, at, p, h, s, body, o.after, o.seen);
  }

  lemma InsideIs(act: Act)
    requires act.Inside?
    ensures ActsWeight(act.acts) < ActWeight(act)
  {
  }

  lemma SubIs(c: Call, at: nat, p: nat, trees: seq<F.Tree>)
    requires Known(c) && Fits(c, at, p, [F.Node(None, trees)]) && F.Size(trees) > 0
    ensures p < |Opens(c, at)| && Opens(c, at)[p].0 == at + F.Size(trees) && IsOwn(c, Opens(c, at)[p].1) &&
            Chain(c, Opens(c, at)[p].1) == [] && Fits(c, at, p + 1, trees)
  {
    hide Bounded, Opening, F.Size;
    FitsNode(c, at, p, [F.Node(None, trees)]);
  }

  /** A process of its own leaves the shell where it was. */
  lemma OwnGoes(c: Call, at: nat, p: nat, h: nat, s: Shell, body: Route, mid: Shell, seen: seq<(nat, Shell)>)
      returns (r: Route)
    requires Known(c) && at < h <= Size(c) && p < |Opens(c, at)| && Opens(c, at)[p].0 == h
    requires IsOwn(c, Opens(c, at)[p].1) && Chain(c, Opens(c, at)[p].1) == []
    requires Goes(c, at, p + 1, h, s, body, mid, seen)
    ensures Goes(c, at, p, h, s, r, s, seen)
  {
    hide Opening, Steps, Chain;
    assert Starts(c, Opens(c, at)[p].1, s, s);
    r := Through(s, body, mid, Done);
    Nowhere(c, h, 0, s);
    NothingMore(seen);
  }

  // ---- loops ----------------------------------------------------------------------------------------------------

  /** The loop is the next scope that opens. */
  ghost predicate Ring(c: Call, cond: Body, inner: Body, at: nat, p: nat) {
    var trees, n := F.BodyForest(cond) + F.BodyForest(inner), |BodyCommands(cond) + BodyCommands(inner)|;
    Known(c) && p < |Opens(c, at)| && Opens(c, at)[p].0 == at + n && IsLoop(c, Opens(c, at)[p].1) && n > 0 &&
    F.Size(trees) == n && Fits(c, at, p + 1, trees) && Here(c, at, BodyCommands(cond) + BodyCommands(inner)) &&
    HeardBody(cond) && HeardBody(inner) && StillBody(cond) && StillBody(inner) && NoMoves(BodyCommands(cond))
  }

  /** The parts of a loop. */
  lemma RingParts(c: Call, cond: Body, inner: Body, at: nat, p: nat)
    requires Ring(c, cond, inner, at, p)
    ensures var (k, q) := (at + |BodyCommands(cond)|, Behind(p + 1, F.BodyForest(cond)));
            Fits(c, at, p + 1, F.BodyForest(cond)) && Here(c, at, BodyCommands(cond)) &&
            F.Size(F.BodyForest(cond)) == |BodyCommands(cond)| && Bounded(c.parsed, at, p + 1, k) &&
            Fits(c, k, q, F.BodyForest(inner)) && Here(c, k, BodyCommands(inner)) &&
            k + |BodyCommands(inner)| == at + |BodyCommands(cond) + BodyCommands(inner)|
  {
    hide Fits, F.BodyForest, BodyCommands, Here, Bounded, Opening, F.Size, HeardBody, StillBody, NoMoves;
    FitsParts(c, at, p + 1, F.BodyForest(cond), F.BodyForest(inner));
    HereParts(c, at, BodyCommands(cond), BodyCommands(inner));
    F.BodySize(cond);
    BoundedEnd(c, at, p + 1, F.BodyForest(cond));
  }

  lemma {:induction false} Rounds(c: Call, cond: Body, inner: Body, act: Act, at: nat, p: nat, s: Shell, ok: bool)
      returns (r: Route)
    requires Ring(c, cond, inner, at, p) && PlayLoop(cond, inner, act, at, s, ok, c.home).Some?
    ensures var o := PlayLoop(cond, inner, act, at, s, ok, c.home).value;
            Goes(c, at, p, at + |BodyCommands(cond) + BodyCommands(inner)|, s, r, o.after, o.seen)
    decreases ActWeight(act), 1
  {
    hide *;
    LoopIs(cond, inner, act, at, s, ok, c.home);
    if act.Stop? {
      RingIs(c, cond, inner, at, p);
      r := RoundsStop(c, at, p, at + |BodyCommands(cond) + BodyCommands(inner)|, s);
    } else if act.Tested? {
      r := LastTest(c, cond, inner, act, at, p, s, ok);
    } else {
      r := OneRound(c, cond, inner, act, at, p, s, ok);
    }
  }

  lemma {:induction false} LastTest(c: Call, cond: Body, inner: Body, act: Act, at: nat, p: nat, s: Shell, ok: bool)
      returns (r: Route)
    requires Ring(c, cond, inner, at, p) && PlayLoop(cond, inner, act, at, s, ok, c.home).Some? && act.Tested?
    ensures var o := PlayLoop(cond, inner, act, at, s, ok, c.home).value;
            Goes(c, at, p, at + |BodyCommands(cond) + BodyCommands(inner)|, s, r, o.after, o.seen)
    decreases ActWeight(act), 0
  {
    hide *;
    RingParts(c, cond, inner, at, p);
    RingIs(c, cond, inner, at, p);
    TestedIs(cond, inner, act, at, s, ok, c.home);
    var h, k := at + |BodyCommands(cond) + BodyCommands(inner)|, at + |BodyCommands(cond)|;
    var x := PlayBody(cond, act.cond, at, s, c.home).value;
    var test := BodyRoute(c, cond, act.cond, at, p + 1, s);
    IdleBody(cond, act.cond, at, s, c.home);
    Stays(BodyCommands(cond), s, x);
    r := RoundsBreak(c, at, p, k, h, s, test, x.seen);
  }

  lemma RingIs(c: Call, cond: Body, inner: Body, at: nat, p: nat)
    requires Ring(c, cond, inner, at, p)
    ensures var n := |BodyCommands(cond) + BodyCommands(inner)|;
            Known(c) && p < |Opens(c, at)| && Opens(c, at)[p].0 == at + n && IsLoop(c, Opens(c, at)[p].1) && n > 0 &&
            at + n <= Size(c) && HeardBody(cond) && HeardBody(inner) && StillBody(cond) && StillBody(inner) &&
            NoMoves(BodyCommands(cond))
  {
    hide Fits, F.BodyForest, BodyCommands, Here, Bounded, Opening, F.Size, HeardBody, StillBody, NoMoves;
    EntryFacts(c.parsed, at, p);
  }

  /** A round, and what follows it. */
  lemma RoundIs(cond: Body, inner: Body, act: Act, at: nat, s: Shell, ok: bool, home: Option<Dir>)
    requires act.Round? && PlayLoop(cond, inner, act, at, s, ok, home).Some?
    ensures var x := PlayBody(cond, act.cond, at, s, home);
            x.Some? &&
            var y := PlayBody(inner, act.inner, at + |BodyCommands(cond)|, x.value.after, home);
            y.Some? &&
            var z := PlayLoop(cond, inner, act.next, at, y.value.after, y.value.ok, home);
            z.Some? && PlayLoop(cond, inner, act, at, s, ok, home).value ==
                       z.value.(seen := x.value.seen + y.value.seen + z.value.seen)
    ensures ActsWeight(act.cond) < ActWeight(act) && ActsWeight(act.inner) < ActWeight(act) &&
            ActWeight(act.next) < ActWeight(act)
  {
    hide PlayBody, BodyCommands;
  }

  lemma TestedIs(cond: Body, inner: Body, act: Act, at: nat, s: Shell, ok: bool, home: Option<Dir>)
    requires act.Tested? && PlayLoop(cond, inner, act, at, s, ok, home).Some?
    ensures var x := PlayBody(cond, act.cond, at, s, home);
            x.Some? && PlayLoop(cond, inner, act, at, s, ok, home).value == x.value.(ok := ok)
    ensures ActsWeight(act.cond) < ActWeight(act)
  {
    hide PlayBody, BodyCommands;
  }

  lemma LoopIs(cond: Body, inner: Body, act: Act, at: nat, s: Shell, ok: bool, home: Option<Dir>)
    requires PlayLoop(cond, inner, act, at, s, ok, home).Some?
    ensures act.Stop? || act.Tested? || act.Round?
    ensures act.Stop? ==> PlayLoop(cond, inner, act, at, s, ok, home).value == Played(s, [], ok)
  {
    hide PlayBody, BodyCommands;
  }

  lemma RoundsStop(c: Call, at: nat, p: nat, h: nat, s: Shell) returns (r: Route)
    requires Known(c) && at < h <= Size(c) && p < |Opens(c, at)| && Opens(c, at)[p].0 == h &&
             IsLoop(c, Opens(c, at)[p].1)
    ensures Goes(c, at, p, h, s, r, s, [])
  {
    hide Opening, Starts, Steps;
    r := Past(Done);
    Nowhere(c, h, 0, s);
  }

  lemma RoundsBreak(c: Call, at: nat, p: nat, k: nat, h: nat, s: Shell, test: Route, seen: seq<(nat, Shell)>)
      returns (r: Route)
    requires Known(c) && at < h <= Size(c) && p < |Opens(c, at)| && Opens(c, at)[p].0 == h &&
             IsLoop(c, Opens(c, at)[p].1)
    requires k <= h && Bounded(c.parsed, at, p + 1, k) && Goes(c, at, p + 1, k, s, test, s, seen)
    ensures Goes(c, at, p, h, s, r, s, seen)
  {
    hide Opening, Starts, Steps, Bounded;
    r := Part(k, test, Done);
    Nowhere(c, h, 0, s);
    NothingSeen();
  }

  lemma HereEnds(c: Call, at: nat, commands: seq<Command>)
    requires Here(c, at, commands)
    ensures at + |commands| <= Size(c)
  {
  }

  lemma {:induction false} OneRound(c: Call, cond: Body, inner: Body, act: Act, at: nat, p: nat, s: Shell, ok: bool)
      returns (r: Route)
    requires Ring(c, cond, inner, at, p) && PlayLoop(cond, inner, act, at, s, ok, c.home).Some? && act.Round?
    ensures var o := PlayLoop(cond, inner, act, at, s, ok, c.home).value;
            Goes(c, at, p, at + |BodyCommands(cond) + BodyCommands(inner)|, s, r, o.after, o.seen)
    decreases ActWeight(act), 0
  {
    hide *;
    RingParts(c, cond, inner, at, p);
    RoundIs(cond, inner, act, at, s, ok, c.home);
    RingIs(c, cond, inner, at, p);
    var h, k := at + |BodyCommands(cond) + BodyCommands(inner)|, at + |BodyCommands(cond)|;
    var q := Behind(p + 1, F.BodyForest(cond));
    var x := PlayBody(cond, act.cond, at, s, c.home).value;
    var y := PlayBody(inner, act.inner, k, x.after, c.home).value;
    var z := PlayLoop(cond, inner, act.next, at, y.after, y.ok, c.home).value;
    var first := BodyRoute(c, cond, act.cond, at, p + 1, s);
    var second := BodyRoute(c, inner, act.inner, k, q, x.after);
    Both(c, at, p + 1, F.BodyForest(cond), h, s, first, x.after, x.seen, second, y.after, y.seen);
    var next := Rounds(c, cond, inner, act.next, at, p, y.after, y.ok);
    r := Again(Concat(first, second), y.after, next);
    AgainGoes(c, at, p, h, s, Concat(first, second), y.after, x.seen + y.seen, next, z.after, z.seen);
  }

  lemma AgainGoes(c: Call, i: nat, p: nat, h: nat, s: Shell, body: Route, mid: Shell, x: seq<(nat, Shell)>,
                  next: Route, after: Shell, y: seq<(nat, Shell)>)
    requires i < h && p < |Opens(c, i)| && Opens(c, i)[p].0 == h && IsLoop(c, Opens(c, i)[p].1)
    requires Goes(c, i, p + 1, h, s, body, mid, x) && Goes(c, i, p, h, mid, next, after, y)
    ensures Goes(c, i, p, h, s, Again(body, mid, next), after, x + y)
  {
    hide Opening, Starts, Steps;
  }

  lemma {:induction false} LoopRoute(c: Call, item: Item, act: Act, at: nat, p: nat, s: Shell) returns (r: Route)
    requires Known(c) && item.Loop? && Heard(item) && Still(item) && Commands(item) != []
    requires Fits(c, at, p, F.Forest(item)) && Here(c, at, Commands(item)) && Play(item, act, at, s, c.home).Some?
    ensures var o := Play(item, act, at, s, c.home).value;
            Goes(c, at, p, at + |Commands(item)|, s, r, o.after, o.seen)
    decreases ActWeight(act), 2
  {
    var cond, inner := item.cond, item.inner;
    var trees := F.BodyForest(cond) + F.BodyForest(inner);
    hide Fits, F.BodyForest, BodyCommands, Here, Bounded, Opening, F.Size, HeardBody, StillBody, NoMoves, F.Wrap;
    F.BodySize(cond);
    F.BodySize(inner);
    F.SizeJoin(F.BodyForest(cond), F.BodyForest(inner));
    WrapFits(c, at, p, Guard.Loop, trees);
    assert Into(p, trees) == p + 1;
    assert Ring(c, cond, inner, at, p);
    hide PlayLoop;
    r := Rounds(c, cond, inner, act, at, p, s, true);
  }

  // ---- conditions -------------------------------------------------------------------------------------------------

  /** Of an `if`, none of the branches behind the one that was taken is run. */
  lemma {:induction false} OthersLeftOut(c: Call, other: Other, at: nat, p: nat, s: Shell) returns (r: Route)
    requires Known(c) && Fits(c, at, p, F.OtherForest(other)) && at <= Size(c)
    ensures Goes(c, at, p, at + |OtherCommands(other)|, s, r, s, [])
    decreases other
  {
    hide *;
    OtherIs(other);
    F.OtherSize(other);
    match other
    case Fi =>
      r := Done;
      Nowhere(c, at, p, s);
    case Else(no) =>
      F.BodySize(no);
      r := LeftOut(c, at, p, F.BodyForest(no), s);
    case Elif(cond, yes, more) =>
      var trees, commands := F.BodyForest(cond) + F.BodyForest(yes), BodyCommands(cond) + BodyCommands(yes);
      ElifSizes(cond, yes, at);
      FitsParts(c, at, p, F.Wrap(Maybe, trees), F.OtherForest(more));
      WrapFits(c, at, p, Maybe, trees);
      var k := at + |commands|;
      var h := k + |OtherCommands(more)|;
      assert at + |OtherCommands(other)| == h;
      var first := LeftOut(c, at, p, trees, s);
      var next := OthersLeftOut(c, more, k, Behind(p, F.Wrap(Maybe, trees)), s);
      Both(c, at, p, F.Wrap(Maybe, trees), h, s, first, s, [], next, s, []);
      r := Concat(first, next);
      NothingMore([]);
  }

  /** What stands behind a branch. */
  lemma OtherIs(other: Other)
    ensures match other
            case Fi => F.OtherForest(other) == [] && OtherCommands(other) == []
            case Else(no) =>
              F.OtherForest(other) == F.Wrap(Maybe, F.BodyForest(no)) && OtherCommands(other) == BodyCommands(no)
            case Elif(cond, yes, more) =>
              F.OtherForest(other) == F.Wrap(Maybe, F.BodyForest(cond) + F.BodyForest(yes)) + F.OtherForest(more) &&
              OtherCommands(other) == BodyCommands(cond) + BodyCommands(yes) + OtherCommands(more)
  {
    hide F.BodyForest, BodyCommands, F.Wrap;
  }

  lemma NothingSeen()
    ensures var none: seq<(nat, Shell)> := []; none + none == none && forall x: seq<(nat, Shell)> :: x + none == x
  {
  }

  /** One branch, behind its condition. */
  lemma {:induction false} BranchRoute(c: Call, yes: Body, acts: Acts, other: Other, at: nat, p: nat, s: Shell)
      returns (r: Route)
    requires Known(c) && HeardBody(yes) && StillBody(yes)
    requires Fits(c, at, p, F.Wrap(Maybe, F.BodyForest(yes)) + F.OtherForest(other))
    requires Here(c, at, BodyCommands(yes) + OtherCommands(other)) && PlayBody(yes, acts, at, s, c.home).Some?
    ensures var o := PlayBody(yes, acts, at, s, c.home).value;
            Goes(c, at, p, at + |BodyCommands(yes) + OtherCommands(other)|, s, r, o.after, o.seen)
    decreases ActsWeight(acts), 1
  {
    hide *;
    var trees, k := F.BodyForest(yes), at + |BodyCommands(yes)|;
    F.BodySize(yes);
    F.FlatWrap(Maybe, trees, at);
    HereParts(c, at, BodyCommands(yes), OtherCommands(other));
    HereEnds(c, at, BodyCommands(yes));
    FitsParts(c, at, p, F.Wrap(Maybe, trees), F.OtherForest(other));
    WrapFits(c, at, p, Maybe, trees);
    var o := PlayBody(yes, acts, at, s, c.home).value;
    var inner := BodyRoute(c, yes, acts, at, Into(p, trees), s);
    var first := Entered(c, at, p, trees, s, inner, o.after, o.seen);
    var q := Behind(p, F.Wrap(Maybe, trees));
    var next := OthersLeftOut(c, other, k, q, o.after);
    var h := at + |BodyCommands(yes) + OtherCommands(other)|;
    assert h == k + |OtherCommands(other)|;
    Both(c, at, p, F.Wrap(Maybe, trees), h, s, first, o.after, o.seen, next, o.after, []);
    NothingSeen();
    r := Concat(first, next);
  }

  /** No branch yet. */
  lemma {:induction false} PassedRoute(c: Call, yes: Body, other: Other, act: Act, at: nat, p: nat, s: Shell)
      returns (r: Route)
    requires Known(c) && HeardOther(other) && StillOther(other)
    requires Fits(c, at, p, F.Wrap(Maybe, F.BodyForest(yes)) + F.OtherForest(other))
    requires Here(c, at, BodyCommands(yes) + OtherCommands(other))
    requires PlayOther(other, act, at + |BodyCommands(yes)|, s, c.home).Some?
    ensures var o := PlayOther(other, act, at + |BodyCommands(yes)|, s, c.home).value;
            Goes(c, at, p, at + |BodyCommands(yes) + OtherCommands(other)|, s, r, o.after, o.seen)
    decreases ActWeight(act), 5
  {
    hide *;
    var trees, k := F.BodyForest(yes), at + |BodyCommands(yes)|;
    F.BodySize(yes);
    F.FlatWrap(Maybe, trees, at);
    HereParts(c, at, BodyCommands(yes), OtherCommands(other));
    FitsParts(c, at, p, F.Wrap(Maybe, trees), F.OtherForest(other));
    var first := LeftOut(c, at, p, trees, s);
    var q := Behind(p, F.Wrap(Maybe, trees));
    var o := PlayOther(other, act, k, s, c.home).value;
    var next := OtherRoute(c, other, act, k, q, s);
    var h := at + |BodyCommands(yes) + OtherCommands(other)|;
    assert h == k + |OtherCommands(other)|;
    Both(c, at, p, F.Wrap(Maybe, trees), h, s, first, s, [], next, o.after, o.seen);
    assert [] + o.seen == o.seen;
    r := Concat(first, next);
  }

  lemma {:induction false} OtherRoute(c: Call, other: Other, act: Act, at: nat, p: nat, s: Shell) returns (r: Route)
    requires Known(c) && HeardOther(other) && StillOther(other)
    requires Fits(c, at, p, F.OtherForest(other)) && Here(c, at, OtherCommands(other))
    requires PlayOther(other, act, at, s, c.home).Some?
    ensures var o := PlayOther(other, act, at, s, c.home).value;
            Goes(c, at, p, at + |OtherCommands(other)|, s, r, o.after, o.seen)
    decreases ActWeight(act), 4
  {
    hide Fits, F.BodyForest, BodyCommands, Bounded, Opening, F.Size, F.Wrap, Runs, Visits, Behind, PlayBody, PlayChoice;
    match other
    case Fi =>
      r := Done;
      Nowhere(c, at, p, s);
    case Else(no) =>
      var trees := F.BodyForest(no);
      F.BodySize(no);
      WrapFits(c, at, p, Maybe, trees);
      var o := PlayBody(no, act.acts, at, s, c.home).value;
      var inner := BodyRoute(c, no, act.acts, at, Into(p, trees), s);
      r := Entered(c, at, p, trees, s, inner, o.after, o.seen);
    case Elif(cond, yes, more) =>
      r := ElifRoute(c, other, act, at, p, s);
  }

  lemma {:induction false} ElifRoute(c: Call, other: Other, act: Act, at: nat, p: nat, s: Shell) returns (r: Route)
    requires Known(c) && other.Elif? && HeardOther(other) && StillOther(other)
    requires Fits(c, at, p, F.OtherForest(other)) && Here(c, at, OtherCommands(other))
    requires PlayOther(other, act, at, s, c.home).Some?
    ensures var o := PlayOther(other, act, at, s, c.home).value;
            Goes(c, at, p, at + |OtherCommands(other)|, s, r, o.after, o.seen)
    decreases ActWeight(act), 3
  {
    hide *;
    var Elif(cond, yes, more) := other;
    var trees := F.BodyForest(cond) + F.BodyForest(yes);
    var commands := BodyCommands(cond) + BodyCommands(yes);
    ElifIs(other, act, at, s, c.home);
    ChoiceActs(cond, yes, more, act, at, s, c.home);
    ElifSizes(cond, yes, at);
    HereParts(c, at, commands, OtherCommands(more));
    FitsParts(c, at, p, F.Wrap(Maybe, trees), F.OtherForest(more));
    var k, q := at + |commands|, Behind(p, F.Wrap(Maybe, trees));
    var h := k + |OtherCommands(more)|;
    assert at + |OtherCommands(other)| == h;
    var first, next;
    if act.Yes? {
      var o := PlayChoice(cond, yes, more, act, at, s, c.home).value;
      first := ElifTaken(c, cond, yes, more, act, at, p, s);
      HereEnds(c, at, commands);
      next := OthersLeftOut(c, more, k, q, o.after);
      Both(c, at, p, F.Wrap(Maybe, trees), h, s, first, o.after, o.seen, next, o.after, []);
      NothingMore(o.seen);
    } else {
      first := ElifTested(c, cond, yes, more, act, at, p, s);
      var x := PlayBody(cond, act.cond, at, s, c.home).value;
      NoIs(cond, yes, more, act, at, s, c.home);
      var y := PlayOther(more, act.other, k, s, c.home).value;
      next := OtherRoute(c, more, act.other, k, q, s);
      Both(c, at, p, F.Wrap(Maybe, trees), h, s, first, s, x.seen, next, y.after, y.seen);
    }
    r := Concat(first, next);
  }

  lemma NothingMore(x: seq<(nat, Shell)>) ensures x + [] == x {}

  lemma ElifSizes(cond: Body, yes: Body, at: nat)
    ensures var trees := F.BodyForest(cond) + F.BodyForest(yes);
            F.Size(trees) == |BodyCommands(cond) + BodyCommands(yes)| &&
            F.Size(F.Wrap(Maybe, trees)) == F.Size(trees) &&
            F.Size(F.BodyForest(cond)) == |BodyCommands(cond)| && F.Size(F.BodyForest(yes)) == |BodyCommands(yes)| &&
            at + |BodyCommands(cond) + BodyCommands(yes)| == at + |BodyCommands(cond)| + |BodyCommands(yes)|
  {
    hide *;
    F.BodySize(cond);
    F.BodySize(yes);
    F.SizeJoin(F.BodyForest(cond), F.BodyForest(yes));
    F.FlatWrap(Maybe, F.BodyForest(cond) + F.BodyForest(yes), at);
  }

  lemma {:induction false} ElifTaken(c: Call, cond: Body, yes: Body, more: Other, act: Act, at: nat, p: nat, s: Shell)
      returns (r: Route)
    requires Known(c) && HeardBody(cond) && HeardBody(yes) && StillBody(cond) && StillBody(yes) && act.Yes?
    requires Fits(c, at, p, F.Wrap(Maybe, F.BodyForest(cond) + F.BodyForest(yes)))
    requires Here(c, at, BodyCommands(cond) + BodyCommands(yes))
    requires PlayChoice(cond, yes, more, act, at, s, c.home).Some?
    ensures var o := PlayChoice(cond, yes, more, act, at, s, c.home).value;
            Goes(c, at, p, at + |BodyCommands(cond) + BodyCommands(yes)|, s, r, o.after, o.seen)
    decreases ActWeight(act), 2
  {
    hide *;
    var trees := F.BodyForest(cond) + F.BodyForest(yes);
    var k, h := at + |BodyCommands(cond)|, at + |BodyCommands(cond) + BodyCommands(yes)|;
    YesIs(cond, yes, more, act, at, s, c.home);
    ElifSizes(cond, yes, at);
    HereParts(c, at, BodyCommands(cond), BodyCommands(yes));
    WrapFits(c, at, p, Maybe, trees);
    FitsParts(c, at, Into(p, trees), F.BodyForest(cond), F.BodyForest(yes));
    var x := PlayBody(cond, act.cond, at, s, c.home).value;
    var y := PlayBody(yes, act.yes, k, x.after, c.home).value;
    var test := BodyRoute(c, cond, act.cond, at, Into(p, trees), s);
    var taken := BodyRoute(c, yes, act.yes, k, Behind(Into(p, trees), F.BodyForest(cond)), x.after);
    Both(c, at, Into(p, trees), F.BodyForest(cond), h, s, test, x.after, x.seen, taken, y.after, y.seen);
    r := Entered(c, at, p, trees, s, Concat(test, taken), y.after, x.seen + y.seen);
  }

  lemma {:induction false} ElifTested(c: Call, cond: Body, yes: Body, more: Other, act: Act, at: nat, p: nat, s: Shell)
      returns (r: Route)
    requires Known(c) && HeardBody(cond) && StillBody(cond) && NoMoves(BodyCommands(cond)) && act.No?
    requires Fits(c, at, p, F.Wrap(Maybe, F.BodyForest(cond) + F.BodyForest(yes)))
    requires Here(c, at, BodyCommands(cond) + BodyCommands(yes))
    requires PlayChoice(cond, yes, more, act, at, s, c.home).Some?
    ensures var x := PlayBody(cond, act.cond, at, s, c.home);
            x.Some? && x.value.after == s &&
            Goes(c, at, p, at + |BodyCommands(cond) + BodyCommands(yes)|, s, r, s, x.value.seen)
    decreases ActWeight(act), 2
  {
    hide *;
    var trees := F.BodyForest(cond) + F.BodyForest(yes);
    NoIs(cond, yes, more, act, at, s, c.home);
    ElifSizes(cond, yes, at);
    HereParts(c, at, BodyCommands(cond), BodyCommands(yes));
    WrapFits(c, at, p, Maybe, trees);
    FitsParts(c, at, Into(p, trees), F.BodyForest(cond), F.BodyForest(yes));
    var x := PlayBody(cond, act.cond, at, s, c.home).value;
    var test := BodyRoute(c, cond, act.cond, at, Into(p, trees), s);
    IdleBody(cond, act.cond, at, s, c.home);
    Stays(BodyCommands(cond), s, x);
    r := BrokenOff(c, at, p, F.BodyForest(cond), F.BodyForest(yes), s, test, x.seen);
  }

  lemma Stays(commands: seq<Command>, s: Shell, p: Played)
    requires Idle(commands, s, p) && NoMoves(commands)
    ensures p.after == s
  {
  }

  /** What an `elif` is made of. */
  lemma ElifIs(other: Other, act: Act, at: nat, s: Shell, home: Option<Dir>)
    requires other.Elif? && HeardOther(other) && StillOther(other) && PlayOther(other, act, at, s, home).Some?
    ensures var Elif(cond, yes, more) := other;
            HeardBody(cond) && HeardBody(yes) && HeardOther(more) && NoMoves(BodyCommands(cond)) && StillBody(cond) &&
            StillBody(yes) && StillOther(more) &&
            F.OtherForest(other) == F.Wrap(Maybe, F.BodyForest(cond) + F.BodyForest(yes)) + F.OtherForest(more) &&
            OtherCommands(other) == BodyCommands(cond) + BodyCommands(yes) + OtherCommands(more) &&
            PlayOther(other, act, at, s, home) == PlayChoice(cond, yes, more, act, at, s, home)
  {
    hide F.BodyForest, BodyCommands, PlayBody, HeardBody, StillBody, NoMoves, PlayChoice, F.Wrap;
  }

  lemma ChoiceActs(cond: Body, yes: Body, other: Other, act: Act, at: nat, s: Shell, home: Option<Dir>)
    requires PlayChoice(cond, yes, other, act, at, s, home).Some?
    ensures act.Yes? || act.No?
  {
  }

  /** The branch was taken. */
  lemma YesIs(cond: Body, yes: Body, other: Other, act: Act, at: nat, s: Shell, home: Option<Dir>)
    requires act.Yes? && PlayChoice(cond, yes, other, act, at, s, home).Some?
    ensures var x := PlayBody(cond, act.cond, at, s, home);
            x.Some? &&
            var y := PlayBody(yes, act.yes, at + |BodyCommands(cond)|, x.value.after, home);
            y.Some? && PlayChoice(cond, yes, other, act, at, s, home).value ==
                       y.value.(seen := x.value.seen + y.value.seen)
    ensures ActsWeight(act.cond) < ActWeight(act) && ActsWeight(act.yes) < ActWeight(act)
  {
    hide PlayBody, BodyCommands;
  }

  /** The branch was not taken. */
  lemma NoIs(cond: Body, yes: Body, other: Other, act: Act, at: nat, s: Shell, home: Option<Dir>)
    requires act.No? && PlayChoice(cond, yes, other, act, at, s, home).Some?
    ensures var x := PlayBody(cond, act.cond, at, s, home);
            x.Some? &&
            var y := PlayOther(other, act.other, at + |BodyCommands(cond) + BodyCommands(yes)|, x.value.after, home);
            y.Some? && PlayChoice(cond, yes, other, act, at, s, home).value ==
                       y.value.(seen := x.value.seen + y.value.seen)
    ensures ActsWeight(act.cond) < ActWeight(act) && ActWeight(act.other) < ActWeight(act)
  {
    hide PlayBody, BodyCommands, PlayOther;
    assert at + |BodyCommands(cond) + BodyCommands(yes)| == at + |BodyCommands(cond)| + |BodyCommands(yes)|;
  }

  lemma {:induction false} ChoiceRoute(c: Call, item: Item, act: Act, at: nat, p: nat, s: Shell) returns (r: Route)
    requires Known(c) && item.Choice? && Heard(item) && Still(item)
    requires Fits(c, at, p, F.Forest(item)) && Here(c, at, Commands(item)) && Play(item, act, at, s, c.home).Some?
    ensures var o := Play(item, act, at, s, c.home).value;
            Goes(c, at, p, at + |Commands(item)|, s, r, o.after, o.seen)
    decreases ActWeight(act), 2
  {
    hide *;
    var Choice(cond, yes, other) := item;
    ChoiceIs(item, act, at, s, c.home);
    ChoiceActs(cond, yes, other, act, at, s, c.home);
    var k, q := at + |BodyCommands(cond)|, Behind(p, F.BodyForest(cond));
    var behind := BodyCommands(yes) + OtherCommands(other);
    var h := k + |behind|;
    assert at + |Commands(item)| == h;
    F.BodySize(cond);
    HereParts(c, at, BodyCommands(cond), behind);
    FitsParts(c, at, p, F.BodyForest(cond), F.Wrap(Maybe, F.BodyForest(yes)) + F.OtherForest(other));
    var test, next;
    if act.Yes? {
      YesIs(cond, yes, other, act, at, s, c.home);
      var x := PlayBody(cond, act.cond, at, s, c.home).value;
      var y := PlayBody(yes, act.yes, k, x.after, c.home).value;
      test := BodyRoute(c, cond, act.cond, at, p, s);
      next := BranchRoute(c, yes, act.yes, other, k, q, x.after);
      Both(c, at, p, F.BodyForest(cond), h, s, test, x.after, x.seen, next, y.after, y.seen);
    } else {
      NoIs(cond, yes, other, act, at, s, c.home);
      var x := PlayBody(cond, act.cond, at, s, c.home).value;
      assert at + |BodyCommands(cond) + BodyCommands(yes)| == k + |BodyCommands(yes)|;
      var y := PlayOther(other, act.other, k + |BodyCommands(yes)|, x.after, c.home).value;
      test := BodyRoute(c, cond, act.cond, at, p, s);
      next := PassedRoute(c, yes, other, act.other, k, q, x.after);
      Both(c, at, p, F.BodyForest(cond), h, s, test, x.after, x.seen, next, y.after, y.seen);
    }
    r := Concat(test, next);
  }

  /** What an `if` is made of. */
  lemma ChoiceIs(item: Item, act: Act, at: nat, s: Shell, home: Option<Dir>)
    requires item.Choice? && Heard(item) && Still(item) && Play(item, act, at, s, home).Some?
    ensures var Choice(cond, yes, other) := item;
            HeardBody(cond) && HeardBody(yes) && HeardOther(other) && StillBody(cond) && StillBody(yes) &&
            StillOther(other) &&
            F.Forest(item) == F.BodyForest(cond) + (F.Wrap(Maybe, F.BodyForest(yes)) + F.OtherForest(other)) &&
            Commands(item) == BodyCommands(cond) + (BodyCommands(yes) + OtherCommands(other)) &&
            Play(item, act, at, s, home) == PlayChoice(cond, yes, other, act, at, s, home)
  {
    hide F.BodyForest, F.OtherForest, BodyCommands, OtherCommands, PlayChoice, HeardBody, StillBody, HeardOther,
      StillOther, F.Wrap;
  }

  // ---- whole scripts ----------------------------------------------------------------------------------------------

  /** The parse of a script. */
  function ScriptCall(body: Body, home: Option<Dir>): Call {
    Call(R.ParseList(R.EMPTY, BodyEvents(body)).parsed, home)
  }

  lemma ScriptFits(body: Body, home: Option<Dir>)
    ensures var c := ScriptCall(body, home);
            Known(c) && c.parsed.commands == BodyCommands(body) && Fits(c, 0, 0, F.BodyForest(body)) &&
            Here(c, 0, BodyCommands(body))
  {
    hide *;
    var c := ScriptCall(body, home);
    ScriptIs(body, home);
    N.EveryParseNests(BodyEvents(body));
    Readings.ScriptIsItsForest(body);
    F.BodySize(body);
    ParseFits(c, F.BodyForest(body));
  }

  lemma ScriptIs(body: Body, home: Option<Dir>)
    ensures var (c, p) := (ScriptCall(body, home), R.ParseList(R.EMPTY, BodyEvents(body)).parsed);
            c == Call(p, home) && (Valid(p) ==> Known(c)) && Size(c) == |p.commands| &&
            (p.commands == BodyCommands(body) ==> Here(c, 0, BodyCommands(body)))
  {
    hide R.ParseList, BodyEvents, BodyCommands;
  }

  /**
    For all scripts of and-or lists, groups, subshells, loops and conditions, nested to any depth,
    whose moves succeed, in which every item before an `&&` is told and the conditions of loops and
    of `elif` move nothing, and for every execution of them, with any number of rounds and any
    choice of branches: it is a run of the recorded scopes, which executes the same commands in the
    same order, finds the same shell at each, and ends in the same one.
   */
  lemma RealScriptIsARun(body: Body, home: Option<Dir>, acts: Acts, s: Shell) returns (r: Route)
    requires HeardBody(body) && StillBody(body) && PlayBody(body, acts, 0, s, home).Some?
    ensures var (c, o) := (ScriptCall(body, home), PlayBody(body, acts, 0, s, home).value);
            Known(c) && Runs(c, 0, 0, Size(c), s, r, o.after) && Visits(c, 0, 0, Size(c), s, r) == o.seen
  {
    hide *;
    var c := ScriptCall(body, home);
    ScriptIs(body, home);
    ScriptFits(body, home);
    r := BodyRoute(c, body, acts, 0, 0, s);
    var o := PlayBody(body, acts, 0, s, home).value;
    GoesIs(c, 0, 0, |BodyCommands(body)|, s, r, o.after, o.seen);
  }

  lemma GoesIs(c: Call, i: nat, p: nat, h: nat, s: Shell, r: Route, after: Shell, seen: seq<(nat, Shell)>)
    requires Goes(c, i, p, h, s, r, after, seen)
    ensures Known(c) && h <= Size(c) && Runs(c, i, p, h, s, r, after) && Visits(c, i, p, h, s, r) == seen
  {
  }

  /** So every label that names a directory names the one in which the command is executed, each time. */
  lemma RealScriptIsLabelledRight(
    body: Body, home: Option<Dir>, acts: Acts, s: Shell, known: Option<Dir>, budget: int, v: nat, actual: Dir)
    requires HeardBody(body) && StillBody(body) && PlayBody(body, acts, 0, s, home).Some?
    requires Agrees(known, s.current)
    requires var c := ScriptCall(body, home); Known(c) ==> Readably(c, 0, 0, Size(c), Beginning(known), budget)
    requires var seen := PlayBody(body, acts, 0, s, home).value.seen;
             v < |seen| &&
             (seen[v].0 < |BodyCommands(body)| ==> MayRunIn(BodyCommands(body)[seen[v].0], seen[v].1.current, actual))
    ensures var (c, k) := (ScriptCall(body, home), PlayBody(body, acts, 0, s, home).value.seen[v].0);
            Known(c) && k < Size(c) && k < |Whole(c, known, budget).labels| &&
            var named := RunsIn(c.parsed.commands[k], Whole(c, known, budget).labels[k].current);
            named.Some? ==> named.value == actual
  {
    hide *;
    var c := ScriptCall(body, home);
    ScriptIs(body, home);
    ScriptFits(body, home);
    var o := PlayBody(body, acts, 0, s, home).value;
    var r := RealScriptIsARun(body, home, acts, s);
    KnownBounded(c);
    VisitsInside(c, 0, 0, Size(c), s, r, o.after, v);
    LabelsAreRight(c, known, budget, s, r, o.after, v, actual);
  }

  lemma VisitsInside(c: Call, i: nat, p: nat, h: nat, s: Shell, r: Route, after: Shell, v: nat)
    requires Known(c) && Bounded(c.parsed, i, p, h) && Runs(c, i, p, h, s, r, after)
    requires v < |Visits(c, i, p, h, s, r)|
    ensures i <= Visits(c, i, p, h, s, r)[v].0 < h
    decreases r
  {
    hide Opening, Bounded, Steps, Starts;
    BoundedSize(c.parsed, i, p, h);
    if i < h {
      if p < |Opens(c, i)| {
        InnerBounded(c.parsed, i, p, h);
        var e := Opens(c, i)[p];
        match r
        case Through(start, body, mid, rest) =>
          var n := |Visits(c, i, p + 1, e.0, start, body)|;
          if v < n { VisitsInside(c, i, p + 1, e.0, start, body, mid, v); }
          else { VisitsInside(c, e.0, 0, h, if IsOwn(c, e.1) then s else mid, rest, after, v - n); }
        case Again(body, mid, rest) =>
          var n := |Visits(c, i, p + 1, e.0, s, body)|;
          if v < n { VisitsInside(c, i, p + 1, e.0, s, body, mid, v); }
          else { VisitsInside(c, i, p, h, mid, rest, after, v - n); }
        case Past(rest) => VisitsInside(c, e.0, 0, h, s, rest, after, v);
        case Part(end, body, rest) =>
          var n := |Visits(c, i, p + 1, end, s, body)|;
          if v < n { VisitsInside(c, i, p + 1, end, s, body, s, v); }
          else { VisitsInside(c, e.0, 0, h, s, rest, after, v - n); }
      } else {
        NextBounded(c.parsed, i, p, h);
        if v > 0 { VisitsInside(c, i + 1, 0, h, r.after, r.rest, after, v - 1); }
      }
    }
  }

  lemma {:induction false} FlatChains(trees: seq<F.Tree>, at: nat)
    ensures forall j :: 0 <= j < |F.Flat(trees, at)| ==> F.Flat(trees, at)[j].chain == []
    decreases trees
  {
    if trees != [] {
      match trees[0]
      case Leaf => FlatChains(trees[1..], at + 1);
      case Node(_, kids) =>
        FlatChains(kids, at);
        FlatChains(trees[1..], at + F.Size(kids));
    }
  }

  lemma ScriptSteady(body: Body, home: Option<Dir>)
    requires forall command :: command in BodyCommands(body) ==> SteadyCommand(command) && !GoesBack(command)
    ensures Steady(ScriptCall(body, home))
  {
    hide R.ParseList, BodyEvents, BodyCommands, SteadyCommand, GoesBack, F.BodyForest, F.Flat;
    var c := ScriptCall(body, home);
    var p := c.parsed;
    Readings.ScriptIsItsForest(body);
    FlatChains(F.BodyForest(body), 0);
    forall n: nat | n < |p.scopes| ensures SteadyChain(Chain(c, n)) {
      assert T.Marks(p)[n] == T.MarkOf(p, n);
    }
    forall k | 0 <= k < Size(c) ensures SteadyCommand(p.commands[k]) && !GoesBack(p.commands[k]) {
      assert p.commands[k] in BodyCommands(body);
    }
  }

  /** In particular when no command rearranges the stack, swaps with a bare `pushd`, climbs or goes back. */
  lemma SteadyScriptIsLabelledRight(
    body: Body, home: Option<Dir>, acts: Acts, s: Shell, known: Option<Dir>, budget: int, v: nat, actual: Dir)
    requires HeardBody(body) && StillBody(body) && PlayBody(body, acts, 0, s, home).Some? && Agrees(known, s.current)
    requires forall command :: command in BodyCommands(body) ==> SteadyCommand(command) && !GoesBack(command)
    requires var seen := PlayBody(body, acts, 0, s, home).value.seen;
             v < |seen| &&
             (seen[v].0 < |BodyCommands(body)| ==> MayRunIn(BodyCommands(body)[seen[v].0], seen[v].1.current, actual))
    ensures var (c, k) := (ScriptCall(body, home), PlayBody(body, acts, 0, s, home).value.seen[v].0);
            Known(c) && k < Size(c) && k < |Whole(c, known, budget).labels| &&
            var named := RunsIn(c.parsed.commands[k], Whole(c, known, budget).labels[k].current);
            named.Some? ==> named.value == actual
  {
    hide *;
    var c := ScriptCall(body, home);
    ScriptIs(body, home);
    ScriptFits(body, home);
    ScriptSteady(body, home);
    KnownBounded(c);
    SteadyReadably(c, 0, 0, Size(c), Beginning(known), budget);
    RealScriptIsLabelledRight(body, home, acts, s, known, budget, v, actual);
  }

  lemma KnownBounded(c: Call)
    requires Known(c)
    ensures Bounded(c.parsed, 0, 0, Size(c))
  {
    WholeBounded(c.parsed);
  }
}
