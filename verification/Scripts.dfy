/**
  Scripts of and-or lists, groups, subshells, loops and conditions: what a Bash parser reports
  of them (ember_armor/ledger/shell/bash.py) and what a shell executes of them.
 */
module Scripts {
  import opened Prelude
  import opened Paths
  import opened Moves
  import opened Scopes
  import opened Ranges
  import L = Lists

  // ---- scripts ---------------------------------------------------------------------------

  /**
    `Plain` is commands and perhaps a test (`[[ ... ]]`).  `Loop` is `while` or `until` with a
    condition, or `for` with an empty one; `Choice` is `if`.
   */
  datatype Item =
    | Plain(commands: seq<Command>, test: bool)
    | Group(tag: string, inner: Body)
    | Sub(inner: Body)
    | Loop(cond: Body, inner: Body)
    | Choice(cond: Body, yes: Body, other: Other)

  /** What stands behind the first branch of an `if`: nothing, `else` or `elif`. */
  datatype Other = Fi | Else(no: Body) | Elif(cond: Body, yes: Body, other: Other)

  datatype Body = Body(first: Item, rest: Rest)

  /** `None` stands for a ";" or a newline. */
  datatype Rest = Nothing | More(link: Option<Operator>, item: Item, rest: Rest)

  function Commands(item: Item): seq<Command>
    decreases item
  {
    match item
    case Plain(commands, _) => commands
    case Group(_, inner) => BodyCommands(inner)
    case Sub(inner) => BodyCommands(inner)
    case Loop(cond, inner) => BodyCommands(cond) + BodyCommands(inner)
    case Choice(cond, yes, other) => BodyCommands(cond) + (BodyCommands(yes) + OtherCommands(other))
  }

  function OtherCommands(other: Other): seq<Command>
    decreases other
  {
    match other
    case Fi => []
    case Else(no) => BodyCommands(no)
    case Elif(cond, yes, more) => BodyCommands(cond) + BodyCommands(yes) + OtherCommands(more)
  }

  function BodyCommands(body: Body): seq<Command>
    decreases body
  {
    Commands(body.first) + RestCommands(body.rest)
  }

  function RestCommands(rest: Rest): seq<Command>
    decreases rest
  {
    if rest.Nothing? then [] else Commands(rest.item) + RestCommands(rest.rest)
  }

  // ---- what the parser reports ------------------------------------------------------

  /** The ";" or newline in front of `do`, `then`, `else`, `done` and `fi` ends a list. */
  function ItemEvents(item: Item): seq<Event>
    decreases item
  {
    match item
    case Plain(commands, test) => (if test then [Noted] else []) + L.CommandEvents(commands)
    case Group(tag, inner) => [Entered(tag, None)] + BodyEvents(inner) + [Left(tag)]
    case Sub(inner) => [List(BodyEvents(inner), true)]
    case Loop(cond, inner) =>
      [Entered("loop", Some(Guard.Loop))] + BodyEvents(cond) + [Ended] + BodyEvents(inner) + [Ended] + [Left("loop")]
    case Choice(cond, yes, other) =>
      [Entered("if", None)] + BodyEvents(cond) + [Ended] + [Branched("if", true, true)] + BodyEvents(yes) + [Ended] +
      OtherEvents(other) + [Left("if")]
  }

  function OtherEvents(other: Other): seq<Event>
    decreases other
  {
    match other
    case Fi => []
    case Else(no) => [Branched("if", true, false)] + BodyEvents(no) + [Ended]
    case Elif(cond, yes, more) =>
      [Branched("if", true, false)] + BodyEvents(cond) + [Ended] + [Branched("if", true, true)] + BodyEvents(yes) +
      [Ended] + OtherEvents(more)
  }

  function BodyEvents(body: Body): seq<Event>
    decreases body
  {
    ItemEvents(body.first) + RestEvents(body.rest)
  }

  function LinkEvent(link: Option<Operator>): Event { if link.None? then Ended else Linked(link.value) }

  function RestEvents(rest: Rest): seq<Event>
    decreases rest
  {
    if rest.Nothing? then [] else [LinkEvent(rest.link)] + ItemEvents(rest.item) + RestEvents(rest.rest)
  }

  // ---- what the shell executes --------------------------------------------------------

  /**
    How an item was executed.  `Ran` tells the shell behind each command, and how a plain item
    ended; a loop goes round, stops, or stops behind its condition; of an `if` the branch that
    was taken is told.  What decides a condition is left open.
   */
  datatype Act =
    | Ran(after: seq<Shell>, ok: bool)
    | Inside(acts: Acts)
    | Round(cond: Acts, inner: Acts, next: Act)
    | Stop
    | Tested(cond: Acts)
    | Yes(cond: Acts, yes: Acts)
    | No(cond: Acts, other: Act)

  datatype Acts = Acts(first: Act, rest: RestActs)

  /** `None` for an item that is skipped. */
  datatype RestActs = Over | Onward(act: Option<Act>, rest: RestActs)

  /** The shell afterwards, the commands executed with the shell each found, and the status. */
  datatype Played = Played(after: Shell, seen: seq<(nat, Shell)>, ok: bool)

  /** The next item runs: always in a new list, else on the status of the last item that ran. */
  predicate GoesOn(link: Option<Operator>, ok: bool) { link.None? || link.value.AndThen? == ok }

  function Then(p: Played, q: Played): Played { q.(seen := p.seen + q.seen) }

  /** The commands from `at` on, one after the other. */
  ghost function PlayAll(commands: seq<Command>, after: seq<Shell>, at: nat, s: Shell, home: Option<Dir>)
      : Option<Played>
    decreases commands
  {
    if |after| != |commands| then None
    else if commands == [] then Some(Played(s, [], true))
    else if !Steps(commands[0], home, s, after[0]) then None
    else
      match PlayAll(commands[1..], after[1..], at + 1, after[0], home)
      case None => None
      case Some(more) => Some(Played(more.after, [(at, s)] + more.seen, more.ok))
  }

  /** An item that can fail by itself: a test, or a command that is no move.  Moves are taken to succeed. */
  predicate MayFail(commands: seq<Command>, test: bool) { test || CanFail(commands) }

  /** The execution of an item that begins at command `at`, or `None` if it is none. */
  ghost function Play(item: Item, act: Act, at: nat, s: Shell, home: Option<Dir>): Option<Played>
    decreases act, 2
  {
    match item
    case Plain(commands, test) =>
      if !act.Ran? || (!act.ok && !MayFail(commands, test)) then None
      else
        (match PlayAll(commands, act.after, at, s, home)
         case None => None
         case Some(p) => Some(p.(ok := act.ok)))
    case Group(_, inner) => if act.Inside? then PlayBody(inner, act.acts, at, s, home) else None
    case Sub(inner) =>
      if !act.Inside? then None
      else
        (match PlayBody(inner, act.acts, at, s, home)
         case None => None
         case Some(p) => Some(p.(after := s)))
    case Loop(cond, inner) => PlayLoop(cond, inner, act, at, s, true, home)
    case Choice(cond, yes, other) => PlayChoice(cond, yes, other, act, at, s, home)
  }

  /** The rounds of a loop; its status is that of the last command of its body, or success. */
  ghost function PlayLoop(cond: Body, inner: Body, act: Act, at: nat, s: Shell, ok: bool, home: Option<Dir>)
      : Option<Played>
    decreases act, 1
  {
    match act
    case Stop => Some(Played(s, [], ok))
    case Tested(acts) =>
      (match PlayBody(cond, acts, at, s, home)
       case None => None
       case Some(p) => Some(p.(ok := ok)))
    case Round(test, pass, next) =>
      (match PlayBody(cond, test, at, s, home)
       case None => None
       case Some(p) =>
         (match PlayBody(inner, pass, at + |BodyCommands(cond)|, p.after, home)
          case None => None
          case Some(q) =>
            (match PlayLoop(cond, inner, next, at, q.after, q.ok, home)
             case None => None
             case Some(r) => Some(Then(Then(p, q), r)))))
    case _ => None
  }

  /** `if` and `elif`. */
  ghost function PlayChoice(cond: Body, yes: Body, other: Other, act: Act, at: nat, s: Shell, home: Option<Dir>)
      : Option<Played>
    decreases act, 1
  {
    match act
    case Yes(test, taken) =>
      (match PlayBody(cond, test, at, s, home)
       case None => None
       case Some(p) =>
         (match PlayBody(yes, taken, at + |BodyCommands(cond)|, p.after, home)
          case None => None
          case Some(q) => Some(Then(p, q))))
    case No(test, next) =>
      (match PlayBody(cond, test, at, s, home)
       case None => None
       case Some(p) =>
         (match PlayOther(other, next, at + |BodyCommands(cond)| + |BodyCommands(yes)|, p.after, home)
          case None => None
          case Some(q) => Some(Then(p, q))))
    case _ => None
  }

  ghost function PlayOther(other: Other, act: Act, at: nat, s: Shell, home: Option<Dir>): Option<Played>
    decreases act, 2
  {
    match other
    case Fi => if act.Stop? then Some(Played(s, [], true)) else None
    case Else(no) => if act.Inside? then PlayBody(no, act.acts, at, s, home) else None
    case Elif(cond, yes, more) => PlayChoice(cond, yes, more, act, at, s, home)
  }

  ghost function PlayBody(body: Body, acts: Acts, at: nat, s: Shell, home: Option<Dir>): Option<Played>
    decreases acts, 3
  {
    match Play(body.first, acts.first, at, s, home)
    case None => None
    case Some(p) =>
      match PlayRest(body.rest, acts.rest, at + |Commands(body.first)|, p.after, p.ok, home)
      case None => None
      case Some(q) => Some(Then(p, q))
  }

  /** The rest of a list, with the status so far. */
  ghost function PlayRest(rest: Rest, acts: RestActs, at: nat, s: Shell, ok: bool, home: Option<Dir>): Option<Played>
    decreases acts, 3
  {
    if rest.Nothing? then if acts.Over? then Some(Played(s, [], ok)) else None
    else if acts.Over? || acts.act.Some? != GoesOn(rest.link, ok) then None
    else
      var next := at + |Commands(rest.item)|;
      match acts.act
      case None => PlayRest(rest.rest, acts.rest, next, s, ok, home)
      case Some(act) =>
        match Play(rest.item, act, at, s, home)
        case None => None
        case Some(p) =>
          match PlayRest(rest.rest, acts.rest, next, p.after, p.ok, home)
          case None => None
          case Some(q) => Some(Then(p, q))
  }

  // ---- what the parser hears ------------------------------------------------------------

  /** An item can end badly. */
  predicate CanEndBadly(item: Item)
    decreases item
  {
    match item
    case Plain(commands, test) => MayFail(commands, test)
    case Group(_, inner) => BodyCanEndBadly(inner)
    case Sub(inner) => BodyCanEndBadly(inner)
    case Loop(_, inner) => BodyCanEndBadly(inner)
    case Choice(_, yes, other) => BodyCanEndBadly(yes) || OtherCanEndBadly(other)
  }

  predicate OtherCanEndBadly(other: Other)
    decreases other
  {
    match other
    case Fi => false
    case Else(no) => BodyCanEndBadly(no)
    case Elif(_, yes, more) => BodyCanEndBadly(yes) || OtherCanEndBadly(more)
  }

  /** From a status to a status. */
  predicate BodyCanEndBadly(body: Body)
    decreases body
  {
    RestCanEndBadly(body.rest, true, CanEndBadly(body.first))
  }

  /** The rest can end badly, with success and failure as the statuses possible so far. */
  predicate RestCanEndBadly(rest: Rest, well: bool, badly: bool)
    decreases rest
  {
    if rest.Nothing? then badly
    else
      var runs, skips := rest.link.None? || (if rest.link.value.AndThen? then well else badly),
                         rest.link.Some? && (if rest.link.value.AndThen? then badly else well);
      RestCanEndBadly(rest.rest,
                      runs || (skips && rest.link == Some(OrElse)),
                      (runs && CanEndBadly(rest.item)) || (skips && rest.link == Some(AndThen)))
  }

  /**
    The parser learns that an item can fail: from a command that is no move, or from a test
    of its own.
   */
  predicate Told(item: Item) { item.Plain? || CanFail(Commands(item)) || !CanEndBadly(item) }

  /** Every item before an `&&` is told, at every depth. */
  predicate Heard(item: Item)
    decreases item
  {
    match item
    case Plain(_, _) => true
    case Group(_, inner) => HeardBody(inner)
    case Sub(inner) => HeardBody(inner)
    case Loop(cond, inner) => HeardBody(cond) && HeardBody(inner)
    case Choice(cond, yes, other) => HeardBody(cond) && HeardBody(yes) && HeardOther(other)
  }

  predicate HeardOther(other: Other)
    decreases other
  {
    match other
    case Fi => true
    case Else(no) => HeardBody(no)
    case Elif(cond, yes, more) => HeardBody(cond) && HeardBody(yes) && HeardOther(more)
  }

  predicate HeardBody(body: Body)
    decreases body
  {
    Heard(body.first) && HeardRest(body.first, body.rest)
  }

  predicate HeardRest(before: Item, rest: Rest)
    decreases rest
  {
    rest.Nothing? ||
    ((rest.link == Some(AndThen) ==> Told(before)) && Heard(rest.item) && HeardRest(rest.item, rest.rest))
  }

  // ---- conditions that move nothing ---------------------------------------------------------

  predicate NoMoves(commands: seq<Command>) { forall k :: 0 <= k < |commands| ==> !commands[k].Move? }

  /** The conditions of loops and of `elif` hold no moves: they stand inside a range and may end it. */
  predicate Still(item: Item)
    decreases item
  {
    match item
    case Plain(_, _) => true
    case Group(_, inner) => StillBody(inner)
    case Sub(inner) => StillBody(inner)
    case Loop(cond, inner) => NoMoves(BodyCommands(cond)) && StillBody(cond) && StillBody(inner)
    case Choice(cond, yes, other) => StillBody(cond) && StillBody(yes) && StillOther(other)
  }

  predicate StillOther(other: Other)
    decreases other
  {
    match other
    case Fi => true
    case Else(no) => StillBody(no)
    case Elif(cond, yes, more) =>
      NoMoves(BodyCommands(cond)) && StillBody(cond) && StillBody(yes) && StillOther(more)
  }

  predicate StillBody(body: Body)
    decreases body
  {
    Still(body.first) && StillRest(body.rest)
  }

  predicate StillRest(rest: Rest)
    decreases rest
  {
    rest.Nothing? || (Still(rest.item) && StillRest(rest.rest))
  }
}
