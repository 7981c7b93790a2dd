/**
  And-or lists with brace groups and subshells: what a Bash parser reports of them to `Guards`
  (ember_armor/ledger/shell/core.py), what a shell executes of them, and which of their
  items the parser knows to be able to fail.
 */
module Lists {
  import opened Prelude
  import opened Moves
  import opened Ranges

  // ---- lists ---------------------------------------------------------------------------

  /**
    What stands between two operators: commands and perhaps a test (`[[ ... ]]`), a brace
    group, or a subshell.  `ok` is how a plain item ends if it runs; the parser does not
    look at it.
   */
  datatype Item =
    | Plain(commands: seq<Command>, test: bool, ok: bool)
    | Group(tag: string, inner: Body)
    | Sub(inner: Body)

  /** And-or lists one after the other. */
  datatype Body = Body(first: Item, rest: Rest)

  /** What follows an item; `None` stands for a ";" or a newline between two items.  One
      before a closing brace changes nothing (`AndOr.SeparatorBeforeClose`). */
  datatype Rest = Nothing | More(link: Option<Operator>, item: Item, rest: Rest)

  /** A move is taken to succeed; any other command and a test may fail. */
  predicate MayFail(item: Item)
    requires item.Plain?
  {
    item.test || CanFail(item.commands)
  }

  /** Plain items that cannot fail end well. */
  predicate Possible(item: Item)
    decreases item
  {
    match item
    case Plain(_, _, ok) => !MayFail(item) ==> ok
    case Group(_, inner) => PossibleBody(inner)
    case Sub(inner) => PossibleBody(inner)
  }

  predicate PossibleBody(body: Body)
    decreases body
  {
    Possible(body.first) && PossibleRest(body.rest)
  }

  predicate PossibleRest(rest: Rest)
    decreases rest
  {
    rest.Nothing? || (Possible(rest.item) && PossibleRest(rest.rest))
  }

  function Commands(item: Item): seq<Command>
    decreases item
  {
    match item
    case Plain(commands, _, _) => commands
    case Group(_, inner) => BodyCommands(inner)
    case Sub(inner) => BodyCommands(inner)
  }

  function BodyCommands(body: Body): seq<Command>
    decreases body
  {
    Commands(body.first) + RestCommands(body.rest)
  }

  function RestCommands(rest: Rest): seq<Command>
    decreases rest
  {
    if rest.Nothing? then [] else Commands(rest.item) + RestCommands(rest.rest)
  }

  // ---- what the parser reports ------------------------------------------------------

  function CommandEvents(commands: seq<Command>): seq<Event>
    decreases commands
  {
    if commands == [] then [] else [Reported(commands[0])] + CommandEvents(commands[1..])
  }

  function ItemEvents(item: Item): seq<Event>
    decreases item
  {
    match item
    case Plain(commands, test, _) => (if test then [Noted] else []) + CommandEvents(commands)
    case Group(tag, inner) => [Entered(tag, None)] + BodyEvents(inner) + [Left(tag)]
    case Sub(inner) => [List(BodyEvents(inner), true)]
  }

  function BodyEvents(body: Body): seq<Event>
    decreases body
  {
    ItemEvents(body.first) + RestEvents(body.rest)
  }

  function LinkEvent(link: Option<Operator>): Event { if link.None? then Ended else Linked(link.value) }

  function RestEvents(rest: Rest): seq<Event>
    decreases rest
  {
    if rest.Nothing? then [] else [LinkEvent(rest.link)] + ItemEvents(rest.item) + RestEvents(rest.rest)
  }

  // ---- what the shell executes --------------------------------------------------------

  /** The next item runs: always in a new list, else on the status of the last item that ran. */
  predicate GoesOn(link: Option<Operator>, status: bool) { link.None? || link.value.AndThen? == status }

  /** How an item ends if it runs. */
  predicate EndsWell(item: Item)
    decreases item
  {
    match item
    case Plain(_, _, ok) => ok
    case Group(_, inner) => BodyEndsWell(inner)
    case Sub(inner) => BodyEndsWell(inner)
  }

  predicate BodyEndsWell(body: Body)
    decreases body
  {
    RestEndsWell(body.rest, EndsWell(body.first))
  }

  predicate RestEndsWell(rest: Rest, status: bool)
    decreases rest
  {
    if rest.Nothing? then status
    else RestEndsWell(rest.rest, if GoesOn(rest.link, status) then EndsWell(rest.item) else status)
  }

  function Repeat(flag: bool, n: nat): seq<bool> { seq(n, _ => flag) }

  /** Which commands of an item run, when the item itself runs or does not. */
  function Ran(item: Item, active: bool): (r: seq<bool>)
    ensures |r| == |Commands(item)|
    decreases item
  {
    match item
    case Plain(commands, _, _) => Repeat(active, |commands|)
    case Group(_, inner) => BodyRan(inner, active)
    case Sub(inner) => BodyRan(inner, active)
  }

  function BodyRan(body: Body, active: bool): (r: seq<bool>)
    ensures |r| == |BodyCommands(body)|
    decreases body
  {
    Ran(body.first, active) + RestRan(body.rest, active, EndsWell(body.first))
  }

  function RestRan(rest: Rest, active: bool, status: bool): (r: seq<bool>)
    ensures |r| == |RestCommands(rest)|
    decreases rest
  {
    if rest.Nothing? then []
    else
      var runs := GoesOn(rest.link, status);
      Ran(rest.item, active && runs) + RestRan(rest.rest, active, if runs then EndsWell(rest.item) else status)
  }

  // ---- what the parser hears ------------------------------------------------------------

  /** An item can end this way, for some outcome of what it holds. */
  predicate MayEnd(item: Item, status: bool)
    decreases item
  {
    match item
    case Plain(_, _, _) => status || MayFail(item)
    case Group(_, inner) => BodyMayEnd(inner, status)
    case Sub(inner) => BodyMayEnd(inner, status)
  }

  predicate BodyMayEnd(body: Body, status: bool)
    decreases body
  {
    (MayEnd(body.first, true) && RestMayEnd(body.rest, true, status)) ||
    (MayEnd(body.first, false) && RestMayEnd(body.rest, false, status))
  }

  predicate RestMayEnd(rest: Rest, before: bool, status: bool)
    decreases rest
  {
    if rest.Nothing? then status == before
    else if GoesOn(rest.link, before) then
      (MayEnd(rest.item, true) && RestMayEnd(rest.rest, true, status)) ||
      (MayEnd(rest.item, false) && RestMayEnd(rest.rest, false, status))
    else RestMayEnd(rest.rest, before, status)
  }

  /**
    The parser learns that an item can fail: from a command that is no move, or from a test
    of its own.  A test inside a group or a subshell is noted in a frame that is gone when
    the operator behind the item is read.
   */
  predicate Told(item: Item) { item.Plain? || CanFail(Commands(item)) || !MayEnd(item, false) }

  /** Every item before an `&&` is told, at every depth. */
  predicate Heard(item: Item)
    decreases item
  {
    match item
    case Plain(_, _, _) => true
    case Group(_, inner) => HeardBody(inner)
    case Sub(inner) => HeardBody(inner)
  }

  predicate HeardBody(body: Body)
    decreases body
  {
    Heard(body.first) && HeardRest(body.first, body.rest)
  }

  predicate HeardRest(before: Item, rest: Rest)
    decreases rest
  {
    rest.Nothing? ||
    ((rest.link == Some(AndThen) ==> Told(before)) && Heard(rest.item) && HeardRest(rest.item, rest.rest))
  }
}
