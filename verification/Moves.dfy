/**
  Where a Bash shell is, as far as the gate knows: `_Where` and `_move`
  (ember_armor/ledger/shellpaths.py).  `Place` is the value of a `_Where`
  object, `Shell` is what a real shell holds, and `Matches` says when the
  first describes the second.
 */
module Moves {
  import opened Prelude
  import opened Paths
  import opened DirStacks

  /** `None` stands for a directory the command string does not name; the stack ends with its top. */
  datatype Place = Place(current: Option<Dir>, previous: Option<Dir>, stack: seq<Option<Dir>>)

  /** A running shell.  `previous` is `None` while `OLDPWD` is not set. */
  datatype Shell = Shell(current: Dir, previous: Option<Dir>, stack: seq<Dir>)

  datatype Verb = Cd | Pushd | Popd

  /**
    A parsed command.  A `Move` changes the directory of the shell.  Any other command runs
    where the shell is, moved by its wrappers (`chdir`) and by its own directory options
    (`None` when the gate cannot follow them); a `placed` one is given a file name by `find`.
   */
  datatype Command =
    | Move(verb: Verb, words: seq<Word>, piped: bool)
    | Run(chdir: seq<Target>, options: Option<seq<Target>>, placed: bool)
    | Redirection

  // ---- the abstract state --------------------------------------------------

  function Unknown<T>(n: nat): seq<Option<T>> { seq(n, _ => None) }

  function Lost(w: Place): Place { Place(None, None, Unknown(|w.stack|)) }

  predicate Differs(w: Place, other: Place) {
    w.current != other.current || w.stack != other.stack
  }

  function Arrive(verb: Verb, w: Place, destination: Option<Dir>, stack: seq<Option<Dir>>): Place {
    Place(destination, w.current, if verb.Pushd? then stack + [w.current] else stack)
  }

  /** `_move` for Bash. */
  function Moved(verb: Verb, words: seq<Word>, w: Place, home: Option<Dir>): Place {
    var read := Targets(words);
    if read.None? || |read.value| > 1 then Arrive(verb, w, None, w.stack)
    else
      var targets := read.value;
      if verb.Popd? then
        if targets == [] && w.stack != [] then Arrive(verb, w, Last(w.stack), Init(w.stack))
        else Arrive(verb, w, None, w.stack)
      else if targets == [] then
        if verb.Cd? then Arrive(verb, w, home, w.stack)
        else if w.stack == [] then w
        else Arrive(verb, w, Last(w.stack), Init(w.stack))
      else
        match targets[0]
        case Previous => Arrive(verb, w, w.previous, w.stack)
        case Path(target) => Arrive(verb, w, Directory(target, w.current), w.stack)
        case _ => Arrive(verb, w, None, w.stack)
  }

  /** `_Tracker.step`: a piped move leaves the directory unknown and the stack alone. */
  function Step(c: Command, w: Place, home: Option<Dir>): Place {
    match c
    case Move(verb, words, piped) =>
      if piped then Place(None, None, w.stack) else Moved(verb, words, w, home)
    case _ => w
  }

  /** Where a command runs, for its label (`_run_directory` and `label`). */
  function RunsIn(c: Command, current: Option<Dir>): Option<Dir> {
    match c
    case Run(chdir, options, placed) =>
      if options.None? || (options.value != [] && placed) then None
      else Follow(options.value, Follow(chdir, current))
    case _ => current
  }

  /** A `_Where` object, moved in place. */
  class Where {
    var current: Option<Dir>
    var previous: Option<Dir>
    var stack: seq<Option<Dir>>

    function Value(): Place reads this { Place(current, previous, stack) }

    constructor (w: Place)
      ensures Value() == w
    {
      current, previous, stack := w.current, w.previous, w.stack;
    }

    method Copy() returns (c: Where)
      ensures fresh(c) && c.Value() == Value()
    {
      c := new Where(Place(current, previous, stack));
    }

    method Lose()
      modifies this
      ensures Value() == Lost(old(Value()))
    {
      current, previous := None, None;
      stack := seq(|stack|, _ => None);
    }

    method DiffersFrom(other: Where) returns (r: bool)
      ensures r == Differs(Value(), other.Value())
    {
      r := current != other.current || stack != other.stack;
    }

    method Move(verb: Verb, words: seq<Word>, home: Option<Dir>)
      modifies this
      ensures Value() == Moved(verb, words, old(Value()), home)
    {
      var destination: Option<Dir> := None;
      var targets := LocationTargets(words);
      if targets.None? || |targets.value| > 1 {
      } else if verb.Popd? {
        if targets.value == [] && stack != [] {
          destination, stack := Last(stack), Init(stack);
        }
      } else if targets.value == [] {
        if verb.Pushd? {
          if stack == [] { return; }
          destination, stack := Last(stack), Init(stack);
        } else {
          destination := home;
        }
      } else if targets.value[0].Previous? {
        destination := previous;
      } else if targets.value[0].Path? {
        destination := Directory(targets.value[0].target, current);
      }
      if verb.Pushd? {
        stack := stack + [current];
      }
      previous, current := current, destination;
    }

    method StepOver(c: Command, home: Option<Dir>)
      modifies this
      ensures Value() == Step(c, old(Value()), home)
    {
      if c.Move? {
        if c.piped {
          previous, current := None, None;
        } else {
          Move(c.verb, c.words, home);
        }
      }
    }
  }

  // ---- the real shell --------------------------------------------------------

  predicate MovesTo(verb: Verb, s: Shell, base: seq<Dir>, after: Shell) {
    after.previous == Some(s.current) &&
    after.stack == if verb.Pushd? then base + [s.current] else base
  }

  /** Where one operand leads; a number is no operand of `cd`. */
  predicate Leads(word: Word, s: Shell, d: Dir) {
    match word
    case Previous => s.previous == Some(d)
    case Path(target) => Lands(target, s.current, d)
    case _ => true
  }

  /** `cd` that succeeds; what it does with several operands or other options is left open. */
  predicate Changes(words: seq<Word>, home: Option<Dir>, s: Shell, after: Shell) {
    MovesTo(Cd, s, s.stack, after) &&
    (Targets(words) == Some([]) && home.Some? ==> after.current == home.value) &&
    (Targets(words).Some? && |Targets(words).value| == 1 ==> Leads(Targets(words).value[0], s, after.current))
  }

  /** `pushd +N`, `pushd -N`: the list that `dirs` prints is turned; with `-n` the directory stays. */
  predicate Turns(k: int, stay: bool, s: Shell, after: Shell) {
    0 <= k <= |s.stack| &&
    var turned := Turned(s.stack + [s.current], k);
    after == if stay then s.(stack := Init(turned)) else Shell(Last(turned), Some(s.current), Init(turned))
  }

  /** What `pushd -n` puts on the stack is only resolved when it is popped, in any directory. */
  ghost predicate PutsAside(word: Word, d: Dir) {
    word.Path? ==> exists base: Dir :: Lands(word.target, base, d)
  }

  /** `pushd` that succeeds. */
  ghost predicate Pushes(words: seq<Word>, s: Shell, after: Shell) {
    var lead := Lead(words);
    Understood(lead) && InRange(lead, |s.stack|) &&
    match Number(lead)
    case Some(number) => Turns(Index(number, |s.stack|), Stay in lead, s, after)
    case None =>
      if words == [] then
        s.stack != [] && after.current == Last(s.stack) && MovesTo(Pushd, s, Init(s.stack), after)
      else if lead == words then after == s
      else if Stay in lead then exists d: Dir :: PutsAside(words[|lead|], d) && after == s.(stack := s.stack + [d])
      else |words| == 1 && Leads(words[0], s, after.current) && MovesTo(Pushd, s, s.stack, after)
  }

  /** `popd` counts entry 0, the directory itself, when it is given no number. */
  function Popped(words: seq<Word>): (number: Word)
    ensures Counts(number)
  {
    if Number(words).Some? then Number(words).value else Plus(0)
  }

  /** `popd` that succeeds: entry 0 makes the shell move, any other one is only taken out. */
  predicate Pops(words: seq<Word>, s: Shell, after: Shell) {
    Understood(words) && s.stack != [] &&
    var k := Index(Popped(words), |s.stack|);
    0 <= k <= |s.stack| &&
    if k > 0 then after == s.(stack := Removed(s.stack, |s.stack| - k))
    else if Stay in words then after == s.(stack := Init(s.stack))
    else after.current == Last(s.stack) && MovesTo(Popd, s, Init(s.stack), after)
  }

  /** A move that succeeds takes the shell from `s` to `after`. */
  ghost predicate Succeeds(verb: Verb, words: seq<Word>, home: Option<Dir>, s: Shell, after: Shell) {
    match verb
    case Cd => Changes(words, home, s, after)
    case Pushd => Pushes(words, s, after)
    case Popd => Pops(words, s, after)
  }

  /** One command.  A stage of a pipeline runs in a process of its own; a `cd` there may
      also move the shell (`lastpipe`). */
  ghost predicate Steps(c: Command, home: Option<Dir>, s: Shell, after: Shell) {
    match c
    case Move(verb, words, piped) =>
      (piped && after == s) ||
      ((piped ==> verb.Cd?) && Succeeds(verb, words, home, s, after))
    case _ => after == s
  }

  /** A directory the command may be run in when the shell is in `d`. */
  ghost predicate MayRunIn(c: Command, d: Dir, actual: Dir) {
    match c
    case Run(chdir, options, placed) =>
      options.None? || (options.value != [] && placed) || LandsBy(chdir + options.value, d, actual)
    case _ => actual == d
  }

  // ---- what the analysis knows -------------------------------------------------

  /** Whatever `w` names is what the shell has. */
  predicate Matches(w: Place, s: Shell) {
    Agrees(w.current, s.current) &&
    (s.previous.Some? ==> Agrees(w.previous, s.previous.value)) &&
    StackMatches(w.stack, s.stack)
  }

  lemma LostMatches(w: Place, s: Shell)
    ensures Matches(Lost(w), s)
  {
    assert forall j: nat :: j < |w.stack| ==> Below(Lost(w).stack, j) == None;
  }

  // ---- one move is followed rightly exactly when it is readable ------------------

  predicate Nothing(w: Place) { w.current.None? && Unheld(w.stack, 0) }

  /** Where the shell is and where it was before are known to be the same, or it is not known where it is. */
  predicate Stable(w: Place) { w.current.None? || w.previous == w.current }

  /** A path that names one directory wherever it is resolved. */
  predicate Names(word: Word, d: Dir) {
    word.Path? && word.target.To? && word.target.absolute && Literal(word.target.segments) &&
    Found(word.target, []) == d
  }

  predicate SeenWord(word: Word, w: Place) { word.Path? ==> Seen(word.target, w.current) }

  predicate ReadablePush(words: seq<Word>, w: Place) {
    var lead := Lead(words);
    Understood(lead) ==>
      match Number(lead)
      case Some(number) => Nothing(w) || (number == Minus(0) && (Stay in lead ==> Stable(w)))
      case None =>
        if words == [] then w.stack == [] ==> w.current.None? && w.previous.None?
        else if lead == words then Nothing(w)
        else if Stay in lead then
          w.current.None? || (w.previous == w.current && Names(words[|lead|], w.current.value))
        else |words| == 1 ==> SeenWord(words[0], w)
  }

  predicate ReadablePop(words: seq<Word>, w: Place) {
    Understood(words) && words != [] ==>
      match Popped(words)
      case Plus(n) =>
        Unheld(w.stack, if n == 0 then 0 else n - 1) && ((n == 0 && Stay !in words) || Stable(w))
      case Minus(n) => (n == 0 || Unheld(w.stack, 0)) && Stable(w)
  }

  /**
    The guard under which `Moved` can be believed.  Words the gate does not follow turn the
    stack or take an entry out of it, which must not touch what is remembered; `popd` with a
    number stays where it is, so that the directory before must be the one it is in.  A bare
    `pushd` finds an entry to swap with, and a relative path does not climb out of an unknown
    directory.
   */
  predicate Readable(verb: Verb, words: seq<Word>, w: Place) {
    match verb
    case Cd => Targets(words).Some? && |Targets(words).value| == 1 ==> SeenWord(Targets(words).value[0], w)
    case Pushd => ReadablePush(words, w)
    case Popd => ReadablePop(words, w)
  }

  // ---- what the gate makes of words it does not follow ------------------------------

  lemma {:induction false} FirstOperand(words: seq<Word>)
    requires words != [] && !words[0].Flag?
    ensures Operands(words) != [] && Operands(words)[0] == words[0]
    decreases words
  {
    if |words| > 1 { FirstOperand(Init(words)); }
  }

  lemma UnclearPush(words: seq<Word>, w: Place, home: Option<Dir>)
    requires Understood(Lead(words)) && Lead(words) != []
    ensures Moved(Pushd, words, w, home) == Place(None, w.current, w.stack + [w.current])
  {
    assert words[0] == Lead(words)[0];
    FirstOperand(words);
  }

  lemma UnclearPop(words: seq<Word>, w: Place, home: Option<Dir>)
    requires Understood(words) && words != []
    ensures Moved(Popd, words, w, home) == Place(None, w.current, w.stack)
  {
    FirstOperand(words);
  }

  lemma OneOperand(word: Word)
    requires !word.Flag?
    ensures Operands([word]) == [word]
  {
    assert Init([word]) == [] && Operands([]) == [];
  }

  /** A single operand is what the gate reads, too. */
  lemma ClearPush(word: Word)
    requires IsOperand(word)
    ensures Targets([word]) == Some([word])
  {
    OneOperand(word);
    hide Operands;
    assert forall i :: 0 <= i < |[word]| ==> !Unclear([word][i]);
  }

  // ---- readable moves are followed rightly -------------------------------------------

  lemma ChangeRight(words: seq<Word>, home: Option<Dir>, w: Place, s: Shell, after: Shell)
    requires Readable(Cd, words, w) && Matches(w, s) && Changes(words, home, s, after)
    ensures Matches(Moved(Cd, words, w, home), after)
  {
    if Targets(words).Some? && |Targets(words).value| == 1 && Targets(words).value[0].Path? {
      DirectoryRight(Targets(words).value[0].target, w.current, s.current, after.current);
    }
  }

  lemma SwapRight(w: Place, home: Option<Dir>, s: Shell, after: Shell)
    requires ReadablePush([], w) && Matches(w, s) && Pushes([], s, after)
    ensures Matches(Moved(Pushd, [], w, home), after)
  {
    if w.stack != [] {
      PopMatches(w.stack, s.stack);
      PushMatches(Init(w.stack), Init(s.stack), w.current, s.current);
    }
  }

  lemma UnheldPush(w: Place)
    ensures Nothing(w) <==> Unheld(w.stack + [w.current], 0)
  {
    var known := w.stack + [w.current];
    assert Below(known, 0) == w.current;
    forall j: nat | j < |w.stack| ensures Below(known, j + 1) == Below(w.stack, j) {}
    if Unheld(known, 0) {
      forall j: nat | j < |w.stack| ensures Below(w.stack, j).None? { assert Below(known, j + 1).None?; }
    }
    if Nothing(w) {
      forall j: nat | j < |known| ensures Below(known, j).None? {
        if j > 0 { assert Below(known, j) == Below(w.stack, j - 1); }
      }
    }
  }

  lemma PushRight(words: seq<Word>, home: Option<Dir>, w: Place, s: Shell, after: Shell)
    requires words != [] && ReadablePush(words, w) && Matches(w, s) && Pushes(words, s, after)
    ensures Matches(Moved(Pushd, words, w, home), after)
  {
    hide Targets, Turned, Moved;
    var lead, known := Lead(words), w.stack + [w.current];
    if lead == [] {
      OperandRight(words[0], home, w, s, after);
      assert words == [words[0]];
    } else {
      UnclearPush(words, w, home);
      UnheldPush(w);
      if Number(lead) == Some(Minus(0)) {
        BottomUp(w.stack, s.stack, w.current, s.current);
      } else if Number(lead).None? && lead != words {
        var d: Dir :| PutsAside(words[|lead|], d) && after == s.(stack := s.stack + [d]);
        if w.current.Some? { NamesOne(words[|lead|], w.current.value, d); }
        PushMatches(w.stack, s.stack, w.current, d);
      }
    }
  }

  lemma OperandRight(word: Word, home: Option<Dir>, w: Place, s: Shell, after: Shell)
    requires IsOperand(word) && SeenWord(word, w) && Matches(w, s)
    requires Leads(word, s, after.current) && MovesTo(Pushd, s, s.stack, after)
    ensures Matches(Moved(Pushd, [word], w, home), after)
  {
    ClearPush(word);
    PushMatches(w.stack, s.stack, w.current, s.current);
    if word.Path? { DirectoryRight(word.target, w.current, s.current, after.current); }
  }

  lemma NamesOne(word: Word, c: Dir, d: Dir)
    requires Names(word, c) && PutsAside(word, d)
    ensures d == c
  {
  }

  lemma PopRight(words: seq<Word>, home: Option<Dir>, w: Place, s: Shell, after: Shell)
    requires ReadablePop(words, w) && Matches(w, s) && Pops(words, s, after)
    ensures Matches(Moved(Popd, words, w, home), after)
  {
    var n := |s.stack|;
    if words == [] {
      assert Targets(words) == Some([]);
      if w.stack != [] { PopMatches(w.stack, s.stack); }
    } else {
      UnclearPop(words, w, home);
      hide Targets, Moved, Number;
      match Popped(words)
      case Plus(k) =>
        if k > 0 {
          DeepGone(w.stack, s.stack, k - 1);
        }
      case Minus(k) =>
        if k == 0 {
          BottomGone(w.stack, s.stack);
          assert Removed(s.stack, 0) == s.stack[1..];
        }
    }
  }

  lemma MoveRight(verb: Verb, words: seq<Word>, home: Option<Dir>, w: Place, s: Shell, after: Shell)
    requires Readable(verb, words, w) && Matches(w, s) && Succeeds(verb, words, home, s, after)
    ensures Matches(Moved(verb, words, w, home), after)
  {
    hide Matches, Moved, Pushes, Pops, Changes, ReadablePush, ReadablePop;
    match verb
    case Cd => ChangeRight(words, home, w, s, after);
    case Pushd => if words == [] { SwapRight(w, home, s, after); } else { PushRight(words, home, w, s, after); }
    case Popd => PopRight(words, home, w, s, after);
  }

  // ---- and others are not ---------------------------------------------------------------

  /** A shell the place describes makes this move, and the gate is wrong about it. */
  ghost predicate Misleads(verb: Verb, words: seq<Word>, home: Option<Dir>, w: Place, s: Shell, after: Shell) {
    Matches(w, s) && Succeeds(verb, words, home, s, after) && !Matches(Moved(verb, words, w, home), after)
  }

  /** A shell with `n` entries on its stack that has `d` wherever the place says nothing. */
  function Filler(w: Place, n: nat, d: Dir): (s: Shell)
    ensures Matches(w, s) && |s.stack| == n && s.stack + [s.current] == Filled(w.stack + [w.current], n + 1, d)
    ensures s.previous == w.previous
  {
    var all := Filled(w.stack + [w.current], n + 1, d);
    PopMatches(w.stack + [w.current], all);
    assert Init(w.stack + [w.current]) == w.stack;
    Shell(Last(all), w.previous, Init(all))
  }

  /** Entry `p` of the turned stack. */
  lemma TurnedAt<T>(all: seq<T>, k: nat, p: nat)
    requires k < |all| && p + 1 < |all|
    ensures Below(Init(Turned(all, k)), p) == Below(all, if p + 1 + k < |all| then p + 1 + k else p + 1 + k - |all|)
  {
  }

  lemma StackWrong(known: seq<Option<Dir>>, held: seq<Dir>, p: nat)
    requires p < |known| && p < |held| && !Agrees(Below(known, p), Below(held, p))
    ensures !StackMatches(known, held)
  {
  }

  lemma NumberFits(words: seq<Word>, n: nat)
    requires Number(words).Some? && InRange(words, n)
    ensures Number(words).value.n <= n
  {
    var i :| 0 <= i < |words| && words[i] == Number(words).value;
  }

  lemma TurnWrong(w: Place, number: Word, n: nat, p: nat, d: Dir)
    requires Counts(number) && number != Minus(0) && number.n + |w.stack| + 1 <= n && p <= |w.stack|
    requires var known := w.stack + [w.current];
             Below(known, p).Some? && d != Below(known, p).value &&
             if number.Plus? then Unheld(known, p + 1) else forall q: nat :: q < p ==> Below(known, q).None?
    ensures var s := Filler(w, n, d);
            !StackMatches(w.stack + [w.current], Init(Turned(s.stack + [s.current], Index(number, n))))
  {
    hide Filler, Turned, StackMatches;
    var known, s, k := w.stack + [w.current], Filler(w, n, d), Index(number, n);
    var all := s.stack + [s.current];
    TurnedAt(all, k, p);
    var q := if p + 1 + k < |all| then p + 1 + k else p + 1 + k - |all|;
    assert q < |known| ==> Below(known, q).None?;
    assert all == Filled(known, n + 1, d) && Below(all, q) == d;
    StackWrong(known, Init(Turned(all, k)), p);
  }

  lemma TurnMisleads(words: seq<Word>, home: Option<Dir>, w: Place) returns (s: Shell, after: Shell)
    requires Understood(Lead(words)) && Number(Lead(words)).Some?
    requires !Nothing(w) && Number(Lead(words)) != Some(Minus(0))
    ensures Misleads(Pushd, words, home, w, s, after)
  {
    hide Matches, Moved, Turned, Targets, StackMatches, Agrees, Unheld, Nothing, Filler;
    var lead, known := Lead(words), w.stack + [w.current];
    UnclearPush(words, w, home);
    UnheldPush(w);
    var number, n, p := Number(lead).value, Most(lead) + |known|, 0;
    NumberFits(lead, Most(lead));
    if number.Plus? { p := Deepest(known, 0); } else { p := Shallowest(known); }
    var d := Other(Below(known, p).value);
    s := Filler(w, n, d);
    TurnWrong(w, number, n, p, d);
    var turned := Turned(s.stack + [s.current], Index(number, n));
    after := if Stay in lead then s.(stack := Init(turned)) else Shell(Last(turned), Some(s.current), Init(turned));
    NotMatched(Place(None, w.current, known), after);
  }

  lemma NotMatched(w: Place, s: Shell)
    requires !StackMatches(w.stack, s.stack) || (s.previous.Some? && !Agrees(w.previous, s.previous.value))
    ensures !Matches(w, s)
  {
  }

  /** A shell that was elsewhere before, although the place does not say so. */
  function Stranger(w: Place, n: nat): (s: Shell)
    requires !Stable(w)
    ensures Matches(w, s) && |s.stack| == n && s.previous.Some? && !Agrees(w.current, s.previous.value)
  {
    Filler(w, n, []).(previous := Some(if w.previous.Some? then w.previous.value else Other(w.current.value)))
  }

  lemma StayMisleads(words: seq<Word>, home: Option<Dir>, w: Place) returns (s: Shell, after: Shell)
    requires Understood(Lead(words)) && Number(Lead(words)).Some? && Stay in Lead(words) && !Stable(w)
    ensures Misleads(Pushd, words, home, w, s, after)
  {
    hide Matches, Moved, Turned, Targets, Stable;
    var lead := Lead(words);
    UnclearPush(words, w, home);
    s := Stranger(w, Most(lead));
    NumberFits(lead, Most(lead));
    after := s.(stack := Init(Turned(s.stack + [s.current], Index(Number(lead).value, Most(lead)))));
    NotMatched(Place(None, w.current, w.stack + [w.current]), after);
  }

  lemma IdleMisleads(words: seq<Word>, home: Option<Dir>, w: Place) returns (s: Shell, after: Shell)
    requires words != [] && Lead(words) == words && Understood(words) && Number(words).None? && !Nothing(w)
    ensures Misleads(Pushd, words, home, w, s, after)
  {
    hide Matches, Moved, Targets;
    var known := w.stack + [w.current];
    UnclearPush(words, w, home);
    UnheldPush(w);
    var p := Deepest(known, 0);
    s := Filler(w, |known|, Other(Below(known, p).value));
    after := s;
    assert Below(s.stack, p) == Below(s.stack + [s.current], p + 1);
    StackWrong(known, after.stack, p);
    NotMatched(Place(None, w.current, known), after);
  }

  lemma AnotherPlace(word: Word, c: Dir) returns (d: Dir)
    requires !Names(word, c)
    ensures PutsAside(word, d) && d != c
  {
    if word.Path? && word.target.To? && Literal(word.target.segments) {
      var t := word.target;
      var far: seq<Segment> := seq(|c| + |t.segments| + 1, _ => Name("d"));
      ResolveClean(if t.absolute then [] else far, t.segments);
      ResolveLength(far, t.segments);
      d := Found(t, far);
      assert Lands(t, far, d);
    } else {
      d := Other(c);
      if word.Path? { assert Lands(word.target, [], d); }
    }
  }

  lemma PutMisleads(words: seq<Word>, home: Option<Dir>, w: Place) returns (s: Shell, after: Shell)
    requires Understood(Lead(words)) && Number(Lead(words)).None? && Lead(words) != words && Stay in Lead(words)
    requires w.current.Some? && !(w.previous == w.current && Names(words[|Lead(words)|], w.current.value))
    ensures Misleads(Pushd, words, home, w, s, after)
  {
    hide Matches, Moved, Targets, Names, PutsAside;
    var lead, known := Lead(words), w.stack + [w.current];
    var word := words[|lead|];
    UnclearPush(words, w, home);
    var d: Dir;
    if w.previous != w.current {
      d := SomePlace(word);
      s := Stranger(w, 0);
    } else {
      d := AnotherPlace(word, w.current.value);
      s := Filler(w, 0, []);
    }
    after := s.(stack := s.stack + [d]);
    if w.previous == w.current { StackWrong(known, after.stack, 0); }
    NotMatched(Place(None, w.current, known), after);
  }

  lemma SomePlace(word: Word) returns (d: Dir)
    ensures PutsAside(word, d)
  {
    if word.Path? && word.target.To? && Literal(word.target.segments) {
      ResolveClean([], word.target.segments);
      d := Found(word.target, []);
      assert Lands(word.target, [], d);
    } else {
      d := [];
      if word.Path? { assert Lands(word.target, [], d); }
    }
  }

  lemma SwapMisleads(home: Option<Dir>, w: Place) returns (s: Shell, after: Shell)
    requires w.stack == [] && (w.current.Some? || w.previous.Some?)
    ensures Misleads(Pushd, [], home, w, s, after)
  {
    var here: Dir := if w.current.Some? then w.current.value else Other(w.previous.value);
    var top: Dir := Other(here);
    s := Shell(here, w.previous, [top]);
    after := Shell(top, Some(here), [here]);
    assert Init(s.stack) + [here] == [here];
  }

  lemma ClimbsSomewhere(word: Word, w: Place) returns (d: Dir, landed: Dir)
    requires !SeenWord(word, w)
    ensures w.current.None? && word.Path? && Lands(word.target, d, landed)
    ensures Directory(word.target, None).Some? && landed != Directory(word.target, None).value
  {
    DirectoryIsRightExactlyWhenSeen(word.target, w.current);
    d, landed :| Lands(word.target, d, landed) && Directory(word.target, None).Some? &&
                 landed != Directory(word.target, None).value;
  }

  lemma Elsewhere(w: Place, s: Shell)
    requires w.current.Some? && s.current != w.current.value
    ensures !Matches(w, s)
  {
  }

  lemma ClimbMisleads(verb: Verb, words: seq<Word>, home: Option<Dir>, w: Place) returns (s: Shell, after: Shell)
    requires !verb.Popd? && |Operands(words)| == 1 && Targets(words) == Some(Operands(words))
    requires verb.Pushd? ==> words == Operands(words) && Lead(words) == []
    requires !SeenWord(Operands(words)[0], w)
    ensures Misleads(verb, words, home, w, s, after)
  {
    hide Directory, Lands, SeenWord, Matches, Targets, Operands, Lead;
    var word := Operands(words)[0];
    var d, landed := ClimbsSomewhere(word, w);
    s := Filler(w, |w.stack|, d);
    assert s.current == d by { assert Last(s.stack + [s.current]) == s.current; }
    after := Shell(landed, Some(d), if verb.Pushd? then s.stack + [d] else s.stack);
    Elsewhere(Moved(verb, words, w, home), after);
  }

  /** Entry `j` when one above it is taken out. */
  lemma RemovedAt<T>(held: seq<T>, depth: nat, j: nat)
    requires depth <= j && j + 1 < |held|
    ensures Below(Removed(held, |held| - 1 - depth), j) == Below(held, j + 1)
  {
  }

  lemma FillerBelow(w: Place, n: nat, d: Dir, j: nat)
    requires j < n && (j < |w.stack| ==> Below(w.stack, j).None?)
    ensures Below(Filler(w, n, d).stack, j) == d
  {
    var s, known := Filler(w, n, d), w.stack + [w.current];
    assert Below(s.stack, j) == Below(s.stack + [s.current], j + 1);
    assert j < |w.stack| ==> Below(known, j + 1) == Below(w.stack, j);
  }

  lemma TakeWrong(w: Place, n: nat, gone: nat, j: nat, d: Dir)
    requires gone <= j < |w.stack| && j + 1 < n && Below(w.stack, j).Some? && d != Below(w.stack, j).value
    requires Unheld(w.stack, j + 1)
    ensures !StackMatches(w.stack, Removed(Filler(w, n, d).stack, n - 1 - gone))
  {
    hide Filler, StackMatches;
    FillerBelow(w, n, d, j + 1);
    var held := Filler(w, n, d).stack;
    RemovedAt(held, gone, j);
    StackWrong(w.stack, Removed(held, n - 1 - gone), j);
  }

  /** `popd` takes out an entry above one that is known. */
  lemma TakesMisleads(words: seq<Word>, home: Option<Dir>, w: Place) returns (s: Shell, after: Shell)
    requires Understood(words) && words != [] && Popped(words) != Minus(0)
    requires !Unheld(w.stack, if Popped(words).Plus? && Popped(words).n > 0 then Popped(words).n - 1 else 0)
    ensures Misleads(Popd, words, home, w, s, after)
  {
    hide Matches, Moved, Targets, Number, StackMatches, Agrees, Unheld, Filler, Popped, Understood;
    var number := Popped(words);
    UnclearPop(words, w, home);
    var j := Deepest(w.stack, if number.Plus? && number.n > 0 then number.n - 1 else 0);
    var n: nat := if number.Plus? then number.n + j + 2 else number.n + j + 1;
    var d := Other(Below(w.stack, j).value);
    s := Filler(w, n, d);
    var k: nat := Index(number, n);
    var gone: nat := if k > 0 then k - 1 else 0;
    TakeWrong(w, n, gone, j, d);
    var left := Removed(s.stack, n - 1 - gone);
    assert k == 0 ==> left == Init(s.stack);
    after := if k > 0 || Stay in words then s.(stack := left) else Shell(Last(s.stack), Some(s.current), left);
    NotMatched(Place(None, w.current, w.stack), after);
  }

  /** `popd` that does not move, where the shell may have been elsewhere before. */
  lemma RemainMisleads(words: seq<Word>, home: Option<Dir>, w: Place) returns (s: Shell, after: Shell)
    requires Understood(words) && words != [] && !Stable(w) && (Popped(words) == Plus(0) ==> Stay in words)
    ensures Misleads(Popd, words, home, w, s, after)
  {
    hide Matches, Moved, Targets, Stable, Number;
    UnclearPop(words, w, home);
    var n := Popped(words).n + 1;
    s := Stranger(w, n);
    var k: nat := Index(Popped(words), n);
    after := s.(stack := if k > 0 then Removed(s.stack, n - k) else Init(s.stack));
    NotMatched(Place(None, w.current, w.stack), after);
  }

  lemma NumberOfStays(words: seq<Word>)
    requires Understood(words) && words != [] && Number(words).None?
    ensures Stay in words
  {
    assert words[0].Stay?;
  }

  lemma PushMisread(words: seq<Word>, home: Option<Dir>, w: Place) returns (s: Shell, after: Shell)
    requires !ReadablePush(words, w)
    ensures Misleads(Pushd, words, home, w, s, after)
  {
    hide Misleads, Nothing, Stable, Names;
    var lead := Lead(words);
    if Number(lead).Some? {
      if Number(lead) == Some(Minus(0)) { s, after := StayMisleads(words, home, w); }
      else { s, after := TurnMisleads(words, home, w); }
    } else if words == [] {
      s, after := SwapMisleads(home, w);
    } else if lead == words {
      s, after := IdleMisleads(words, home, w);
    } else if Stay in lead {
      s, after := PutMisleads(words, home, w);
    } else {
      if lead != [] { NumberOfStays(lead); }
      assert words == [words[0]];
      ClearPush(words[0]);
      s, after := ClimbMisleads(Pushd, words, home, w);
    }
  }

  lemma PopMisread(words: seq<Word>, home: Option<Dir>, w: Place) returns (s: Shell, after: Shell)
    requires !ReadablePop(words, w)
    ensures Misleads(Popd, words, home, w, s, after)
  {
    hide Misleads, Stable, Unheld;
    if Number(words).None? { NumberOfStays(words); }
    match Popped(words)
    case Plus(n) =>
      if !Unheld(w.stack, if n == 0 then 0 else n - 1) { s, after := TakesMisleads(words, home, w); }
      else { s, after := RemainMisleads(words, home, w); }
    case Minus(n) =>
      if n > 0 && !Unheld(w.stack, 0) { s, after := TakesMisleads(words, home, w); }
      else { s, after := RemainMisleads(words, home, w); }
  }

  ghost predicate AlwaysRight(verb: Verb, words: seq<Word>, home: Option<Dir>, w: Place) {
    forall s: Shell, after: Shell ::
      Matches(w, s) && Succeeds(verb, words, home, s, after) ==> Matches(Moved(verb, words, w, home), after)
  }

  /** `_move` describes every successful move from every shell it could be, if and only if
      the move is readable where it is made. */
  lemma MoveIsRightExactlyWhenReadable(verb: Verb, words: seq<Word>, home: Option<Dir>, w: Place)
    ensures AlwaysRight(verb, words, home, w) <==> Readable(verb, words, w)
  {
    hide Matches, Moved, Succeeds, ReadablePush, ReadablePop;
    if Readable(verb, words, w) {
      forall s: Shell, after: Shell | Matches(w, s) && Succeeds(verb, words, home, s, after)
        ensures Matches(Moved(verb, words, w, home), after)
      {
        MoveRight(verb, words, home, w, s, after);
      }
    } else {
      var s, after;
      match verb
      case Cd => s, after := ClimbMisleads(Cd, words, home, w);
      case Pushd => s, after := PushMisread(words, home, w);
      case Popd => s, after := PopMisread(words, home, w);
    }
  }

  // ---- one command ---------------------------------------------------------------

  predicate StepReadable(c: Command, w: Place) {
    match c
    case Move(verb, words, piped) => piped || Readable(verb, words, w)
    case Run(chdir, options, placed) =>
      options.Some? && (options.value == [] || !placed) ==> SeenBy(chdir + options.value, w.current)
    case Redirection => true
  }

  lemma StepRight(c: Command, home: Option<Dir>, w: Place, s: Shell, after: Shell)
    requires StepReadable(c, w) && Matches(w, s) && Steps(c, home, s, after)
    ensures Matches(Step(c, w, home), after)
  {
    if c.Move? && !c.piped {
      MoveRight(c.verb, c.words, home, w, s, after);
    }
  }

  lemma {:induction false} FollowTwo(a: seq<Target>, b: seq<Target>, start: Option<Dir>)
    ensures Follow(a + b, start) == Follow(b, Follow(a, start))
    decreases a
  {
    if a == [] { assert a + b == b; }
    else {
      assert (a + b)[1..] == a[1..] + b;
      FollowTwo(a[1..], b, Directory(a[0], start));
    }
  }

  /** A label that names a directory names the one the command runs in. */
  lemma LabelRight(c: Command, w: Place, s: Shell, actual: Dir)
    requires StepReadable(c, w) && Matches(w, s) && MayRunIn(c, s.current, actual)
    ensures RunsIn(c, w.current).Some? ==> actual == RunsIn(c, w.current).value
  {
    if c.Run? && c.options.Some? && (c.options.value == [] || !c.placed) {
      FollowTwo(c.chdir, c.options.value, w.current);
      FollowRight(c.chdir + c.options.value, w.current, s.current, actual);
    }
  }
}
