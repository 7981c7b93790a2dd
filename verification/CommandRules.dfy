/**
  Command predicates: what the gate evaluates (`_command_matches`,
  ember_armor/ledger/engine.py, on the operands and flags of ember_armor/ledger/shell/argv.py)
  and what lint claims about any two of them (`command_implies`, ember_armor/ledger/implies.py).
 */
module CommandRules {
  import opened Prelude

  datatype Shell = Bash | PowerShell | Cmd

  datatype Command = Command(argv: seq<string>, shell: Shell, stdin: string, upstream: seq<string>)

  /** `shell` is `None` for "any". */
  datatype CommandPred = CommandPred(
    program: seq<string>, subcommand: seq<string>,
    flagsAny: seq<string>, flagsAll: seq<string>, flagsNone: seq<string>,
    argsAnyGlob: seq<string>, argsNoneGlob: seq<string>, argsRegex: Option<string>, shell: Option<Shell>)

  /** The functions on text the rules rest on: `str.lower`, `program_name`, the caseless
      programs, the value flags of a program, the shape of a cmdlet, `fnmatchcase` and
      `re.search`. */
  datatype Texts = Texts(
    lower: string -> string, program: (string, bool) -> string, caseless: string -> bool,
    valueFlags: string -> set<string>, cmdlet: string -> bool,
    fnmatch: (string, string) -> bool, search: (string, string) -> bool)

  const TEXT_LIMIT := 20_000

  // ---- argv.py -------------------------------------------------------------------

  predicate StartsWith(s: string, prefix: string) { prefix <= s }

  predicate Optional(arg: string, slash: bool) {
    (StartsWith(arg, "-") && |arg| > 1) || (slash && StartsWith(arg, "/"))
  }

  /** The operands from index `i` on; `only` is set behind a bare "--". */
  function Positions(argv: seq<string>, valueFlags: set<string>, slash: bool, i: nat, only: bool): seq<nat>
    decreases |argv| - i
  {
    if i >= |argv| then []
    else if only then [i] + Positions(argv, valueFlags, slash, i + 1, true)
    else if argv[i] == "--" then Positions(argv, valueFlags, slash, i + 1, true)
    else if argv[i] in valueFlags then Positions(argv, valueFlags, slash, i + 2, false)
    else if Optional(argv[i], slash) then Positions(argv, valueFlags, slash, i + 1, false)
    else [i] + Positions(argv, valueFlags, slash, i + 1, false)
  }

  /** `operand_positions` */
  method OperandPositions(argv: seq<string>, valueFlags: set<string>, slash: bool) returns (found: seq<nat>)
    ensures found == Positions(argv, valueFlags, slash, 1, false)
    ensures InOrder(found, 1, |argv|)
  {
    hide InOrder, Optional;
    found := [];
    var i, only := 1, false;
    while i < |argv|
      invariant i >= 1
      invariant found + Positions(argv, valueFlags, slash, i, only) == Positions(argv, valueFlags, slash, 1, false)
    {
      var arg := argv[i];
      ghost var next := Positions(argv, valueFlags, slash, i + 1, only);
      if only {
        assert found + ([i] + next) == found + [i] + next;
        found := found + [i];
      } else if arg == "--" {
        only := true;
      } else if arg in valueFlags {
        i := i + 1;
      } else if Optional(arg, slash) {
      } else {
        assert found + ([i] + next) == found + [i] + next;
        found := found + [i];
      }
      i := i + 1;
    }
    Ascending(argv, valueFlags, slash, 1, false);
    assert found + [] == found;
  }

  /** Ascending positions from `from` on. */
  predicate InOrder(found: seq<nat>, from: nat, to: nat) {
    (forall q :: 0 <= q < |found| ==> from <= found[q] < to) &&
    (forall q, r :: 0 <= q < r < |found| ==> found[q] < found[r])
  }

  lemma OneMore(i: nat, found: seq<nat>, to: nat)
    requires InOrder(found, i + 1, to) && i < to
    ensures InOrder([i] + found, i, to)
  {
  }

  lemma {:induction false} Ascending(argv: seq<string>, valueFlags: set<string>, slash: bool, i: nat, only: bool)
    ensures InOrder(Positions(argv, valueFlags, slash, i, only), i, |argv|)
    decreases |argv| - i
  {
    if i < |argv| {
      if only {
        Ascending(argv, valueFlags, slash, i + 1, true);
        OneMore(i, Positions(argv, valueFlags, slash, i + 1, true), |argv|);
      } else if argv[i] == "--" {
        Ascending(argv, valueFlags, slash, i + 1, true);
      } else if argv[i] in valueFlags {
        Ascending(argv, valueFlags, slash, i + 2, false);
      } else {
        Ascending(argv, valueFlags, slash, i + 1, false);
        OneMore(i, Positions(argv, valueFlags, slash, i + 1, false), |argv|);
      }
    }
  }

  function Index(s: seq<string>, x: string): (i: nat)
    ensures i <= |s|
  {
    if s == [] || s[0] == x then 0 else 1 + Index(s[1..], x)
  }

  predicate IsCmdlet(t: Texts, c: Command) { c.shell.PowerShell? && c.argv != [] && t.cmdlet(c.argv[0]) }

  /** Arguments in which flags may appear. */
  function OptionArgs(t: Texts, c: Command): seq<string>
    requires c.argv != []
  {
    var args := c.argv[1..];
    if IsCmdlet(t, c) || "--" !in args then args else args[..Index(args, "--")]
  }

  function Before(s: string, c: char): string {
    if s == [] || s[0] == c then [] else [s[0]] + Before(s[1..], c)
  }

  function Unslashed(s: string): string { if s != [] && s[0] == '/' then Unslashed(s[1..]) else s }

  /** `has_flag` */
  predicate HasFlag(t: Texts, c: Command, flag: string)
    requires c.argv != []
  {
    var args := OptionArgs(t, c);
    if IsCmdlet(t, c) then
      exists i :: 0 <= i < |args| &&
        var name := t.lower(Before(args[i], ':')); |name| > 1 && name[0] == '-' && StartsWith(t.lower(flag), name)
    else if StartsWith(flag, "/") then
      exists i :: 0 <= i < |args| && StartsWith(args[i], "/") && t.lower(Unslashed(args[i])) == t.lower(Unslashed(flag))
    else
      exists i :: 0 <= i < |args| &&
        (args[i] == flag ||
         (StartsWith(flag, "--") && StartsWith(args[i], flag + "=")) ||
         (|flag| == 2 && flag[0] == '-' && flag[1] != '-' &&
          |args[i]| > 2 && args[i][0] == '-' && args[i][1] != '-' && flag[1] in args[i][1..]))
  }

  // ---- the engine ------------------------------------------------------------------

  /** Letter case does not count for this command. */
  predicate Folds(t: Texts, c: Command)
    requires c.argv != []
  {
    !c.shell.Bash? || t.caseless(t.program(c.argv[0], true))
  }

  function Norm(t: Texts, fold: bool, s: string): string { if fold then t.lower(s) else s }

  predicate NamesProgram(t: Texts, names: seq<string>, name: string, fold: bool) {
    exists i :: 0 <= i < |names| && Norm(t, fold, names[i]) == name
  }

  /** The first operands are the subcommand. */
  predicate HasSubcommand(t: Texts, c: Command, fold: bool, positions: seq<nat>, wanted: seq<string>) {
    |wanted| <= |positions| &&
    forall i :: 0 <= i < |wanted| ==>
      positions[i] < |c.argv| && Norm(t, fold, c.argv[positions[i]]) == Norm(t, fold, wanted[i])
  }

  predicate AnyFlag(t: Texts, c: Command, flags: seq<string>)
    requires c.argv != []
  {
    exists i :: 0 <= i < |flags| && HasFlag(t, c, flags[i])
  }

  predicate AnyListed(t: Texts, fold: bool, args: seq<string>, globs: seq<string>) {
    exists i, j :: 0 <= i < |args| && 0 <= j < |globs| && t.fnmatch(Norm(t, fold, args[i]), Norm(t, fold, globs[j]))
  }

  function Words(words: seq<string>): string {
    if words == [] then "" else if |words| == 1 then words[0] else words[0] + " " + Words(words[1..])
  }

  function Cut(text: string): string { if |text| > TEXT_LIMIT then text[..TEXT_LIMIT] else text }

  function OperandsOf(t: Texts, c: Command, name: string): seq<nat> {
    Positions(c.argv, t.valueFlags(t.lower(name)), c.shell.Cmd?, 1, false)
  }

  /** What follows the subcommand. */
  function Tail(c: Command, positions: seq<nat>, n: nat): seq<string>
    requires c.argv != []
  {
    if n == 0 then c.argv[1..]
    else if n <= |positions| && positions[n - 1] < |c.argv| then c.argv[positions[n - 1] + 1..] else []
  }

  /** `_command_matches` */
  predicate CommandMatches(t: Texts, c: Command, pred: CommandPred, windows: bool)
    requires c.argv != []
  {
    var fold := Folds(t, c);
    var name := t.program(c.argv[0], fold || windows);
    var positions := OperandsOf(t, c, name);
    var rest := Tail(c, positions, |pred.subcommand|);
    (pred.shell.Some? ==> c.shell == pred.shell.value) &&
    (pred.program != [] ==> NamesProgram(t, pred.program, name, fold || windows)) &&
    (pred.subcommand != [] ==> HasSubcommand(t, c, fold, positions, pred.subcommand)) &&
    (pred.flagsAny != [] ==> AnyFlag(t, c, pred.flagsAny)) &&
    (forall i :: 0 <= i < |pred.flagsAll| ==> HasFlag(t, c, pred.flagsAll[i])) &&
    !AnyFlag(t, c, pred.flagsNone) &&
    (pred.argsAnyGlob != [] ==> AnyListed(t, fold, rest, pred.argsAnyGlob)) &&
    !AnyListed(t, fold, rest, pred.argsNoneGlob) &&
    (pred.argsRegex.Some? ==>
       t.search(pred.argsRegex.value, Cut(Words(rest))) || t.search(pred.argsRegex.value, Cut(c.stdin)) ||
       t.search(pred.argsRegex.value, Cut(Words(c.upstream))))
  }

  // ---- lint ---------------------------------------------------------------------------

  predicate Subset(inner: seq<string>, outer: seq<string>) { forall i :: 0 <= i < |inner| ==> inner[i] in outer }

  function Lowered(t: Texts, names: seq<string>): seq<string> {
    seq(|names|, i requires 0 <= i < |names| => t.lower(names[i]))
  }

  /** `_within` */
  predicate NamesWithin(t: Texts, inner: seq<string>, outer: seq<string>, fold: bool) {
    Subset(inner, outer) || (fold && Subset(Lowered(t, inner), Lowered(t, outer)))
  }

  /** `command_implies` */
  predicate CommandImplies(t: Texts, a: CommandPred, b: CommandPred) {
    var fold := a.shell.Some? && !a.shell.value.Bash?;
    (b.shell.Some? ==> a.shell == b.shell) &&
    (b.program != [] ==> a.program != [] && NamesWithin(t, a.program, b.program, fold)) &&
    |b.subcommand| <= |a.subcommand| &&
    (forall i :: 0 <= i < |b.subcommand| ==> NamesWithin(t, [a.subcommand[i]], [b.subcommand[i]], fold)) &&
    (b.flagsAny != [] ==>
       (a.flagsAny != [] && Subset(a.flagsAny, b.flagsAny)) ||
       exists i :: 0 <= i < |a.flagsAll| && a.flagsAll[i] in b.flagsAny) &&
    (forall i :: 0 <= i < |b.flagsAll| ==> b.flagsAll[i] in a.flagsAll || a.flagsAny == [b.flagsAll[i]]) &&
    Subset(b.flagsNone, a.flagsNone) &&
    (b.argsNoneGlob != [] ==> a.subcommand == b.subcommand && Subset(b.argsNoneGlob, a.argsNoneGlob)) &&
    (b.argsRegex.Some? ==> a.subcommand == b.subcommand && a.argsRegex == b.argsRegex) &&
    (b.argsAnyGlob != [] ==> a.argsAnyGlob != [] && Subset(a.argsAnyGlob, b.argsAnyGlob))
  }

  // ---- the claim holds for every command ---------------------------------------------------

  /** A name of `inner` that fits is, up to case where case does not count, a name of `outer`. */
  lemma NameWithin(t: Texts, inner: seq<string>, outer: seq<string>, fold: bool, norm: bool, i: nat)
    requires NamesWithin(t, inner, outer, fold) && (fold ==> norm) && i < |inner|
    ensures exists j :: 0 <= j < |outer| && Norm(t, norm, outer[j]) == Norm(t, norm, inner[i])
  {
    if Subset(inner, outer) {
      assert inner[i] in outer;
      var j :| 0 <= j < |outer| && outer[j] == inner[i];
    } else {
      var lowered := Lowered(t, outer);
      assert Lowered(t, inner)[i] in lowered;
      var j :| 0 <= j < |lowered| && lowered[j] == t.lower(inner[i]);
      assert Norm(t, norm, outer[j]) == Norm(t, norm, inner[i]);
    }
  }

  /** The shorter subcommand sees a longer argument tail. */
  lemma TailGrows(c: Command, positions: seq<nat>, n: nat, m: nat)
    requires c.argv != [] && m <= n <= |positions|
    requires InOrder(positions, 1, |c.argv|)
    ensures forall arg :: arg in Tail(c, positions, n) ==> arg in Tail(c, positions, m)
  {
    var long, short := Tail(c, positions, m), Tail(c, positions, n);
    var from := if m == 0 then 1 else positions[m - 1] + 1;
    var to := if n == 0 then 1 else positions[n - 1] + 1;
    assert from <= to && long == c.argv[from..] && short == c.argv[to..];
    forall arg | arg in short ensures arg in long {
      var i :| 0 <= i < |short| && short[i] == arg;
      assert long[to - from + i] == arg;
    }
  }

  lemma SubcommandImplied(t: Texts, a: CommandPred, b: CommandPred, c: Command, fold: bool, positions: seq<nat>)
    requires CommandImplies(t, a, b) && HasSubcommand(t, c, fold, positions, a.subcommand)
    requires a.shell.Some? && !a.shell.value.Bash? ==> fold
    ensures HasSubcommand(t, c, fold, positions, b.subcommand)
  {
    forall i | 0 <= i < |b.subcommand|
      ensures positions[i] < |c.argv| && Norm(t, fold, c.argv[positions[i]]) == Norm(t, fold, b.subcommand[i])
    {
      NameWithin(t, [a.subcommand[i]], [b.subcommand[i]], a.shell.Some? && !a.shell.value.Bash?, fold, 0);
    }
  }

  lemma FlagsImplied(t: Texts, a: CommandPred, b: CommandPred, c: Command)
    requires c.argv != [] && CommandImplies(t, a, b)
    requires a.flagsAny != [] ==> AnyFlag(t, c, a.flagsAny)
    requires forall i :: 0 <= i < |a.flagsAll| ==> HasFlag(t, c, a.flagsAll[i])
    requires !AnyFlag(t, c, a.flagsNone)
    ensures b.flagsAny != [] ==> AnyFlag(t, c, b.flagsAny)
    ensures forall i :: 0 <= i < |b.flagsAll| ==> HasFlag(t, c, b.flagsAll[i])
    ensures !AnyFlag(t, c, b.flagsNone)
  {
    hide HasFlag;
    if b.flagsAny != [] {
      var flag;
      if a.flagsAny != [] && Subset(a.flagsAny, b.flagsAny) {
        var i :| 0 <= i < |a.flagsAny| && HasFlag(t, c, a.flagsAny[i]);
        flag := a.flagsAny[i];
      } else {
        var i :| 0 <= i < |a.flagsAll| && a.flagsAll[i] in b.flagsAny;
        flag := a.flagsAll[i];
      }
      var j :| 0 <= j < |b.flagsAny| && b.flagsAny[j] == flag;
    }
    forall i | 0 <= i < |b.flagsAll| ensures HasFlag(t, c, b.flagsAll[i]) {
      if b.flagsAll[i] in a.flagsAll {
        var j :| 0 <= j < |a.flagsAll| && a.flagsAll[j] == b.flagsAll[i];
      }
    }
    forall i | 0 <= i < |b.flagsNone| ensures !HasFlag(t, c, b.flagsNone[i]) {
      var flag := b.flagsNone[i];
      assert flag in a.flagsNone;
    }
  }

  lemma ListedMore(t: Texts, fold: bool, args: seq<string>, more: seq<string>, globs: seq<string>, others: seq<string>)
    requires AnyListed(t, fold, args, globs) && (forall arg :: arg in args ==> arg in more) && Subset(globs, others)
    ensures AnyListed(t, fold, more, others)
  {
    var i, j :| 0 <= i < |args| && 0 <= j < |globs| && t.fnmatch(Norm(t, fold, args[i]), Norm(t, fold, globs[j]));
    assert args[i] in more && globs[j] in others;
    var p :| 0 <= p < |more| && more[p] == args[i];
    var q :| 0 <= q < |others| && others[q] == globs[j];
  }

  /**
    `command_implies` is sound: every simple command that matches `a` matches `b`, whatever
    shell runs it, in which letter case, and with however many words in front of the
    subcommand.
   */
  lemma CommandImpliesIsSound(t: Texts, a: CommandPred, b: CommandPred, c: Command, windows: bool)
    requires c.argv != [] && CommandImplies(t, a, b) && CommandMatches(t, c, a, windows)
    ensures CommandMatches(t, c, b, windows)
  {
    hide HasFlag, Positions, AnyListed, AnyFlag, HasSubcommand, NamesProgram, Words, Cut;
    var fold := Folds(t, c);
    var name := t.program(c.argv[0], fold || windows);
    var positions := OperandsOf(t, c, name);
    Ascending(c.argv, t.valueFlags(t.lower(name)), c.shell.Cmd?, 1, false);
    assert positions == Positions(c.argv, t.valueFlags(t.lower(name)), c.shell.Cmd?, 1, false);
    if b.program != [] { ProgramImplied(t, a, b, name, fold, windows); }
    if a.subcommand != [] {
      SubcommandImplied(t, a, b, c, fold, positions);
      SubcommandFits(t, c, fold, positions, a.subcommand);
    }
    FlagsImplied(t, a, b, c);
    TailGrows(c, positions, |a.subcommand|, |b.subcommand|);
    var mine, theirs := Tail(c, positions, |a.subcommand|), Tail(c, positions, |b.subcommand|);
    if b.argsAnyGlob != [] { ListedMore(t, fold, mine, theirs, a.argsAnyGlob, b.argsAnyGlob); }
    if AnyListed(t, fold, theirs, b.argsNoneGlob) {
      NothingListed(t, fold, theirs, b.argsNoneGlob);
      ListedMore(t, fold, theirs, mine, b.argsNoneGlob, a.argsNoneGlob);
    }
  }

  lemma ProgramImplied(t: Texts, a: CommandPred, b: CommandPred, name: string, fold: bool, windows: bool)
    requires CommandImplies(t, a, b) && b.program != [] && NamesProgram(t, a.program, name, fold || windows)
    requires a.shell.Some? && !a.shell.value.Bash? ==> fold
    ensures NamesProgram(t, b.program, name, fold || windows)
  {
    var i :| 0 <= i < |a.program| && Norm(t, fold || windows, a.program[i]) == name;
    NameWithin(t, a.program, b.program, a.shell.Some? && !a.shell.value.Bash?, fold || windows, i);
  }

  lemma SubcommandFits(t: Texts, c: Command, fold: bool, positions: seq<nat>, wanted: seq<string>)
    requires HasSubcommand(t, c, fold, positions, wanted)
    ensures |wanted| <= |positions|
  {
  }

  lemma NothingListed(t: Texts, fold: bool, args: seq<string>, globs: seq<string>)
    requires AnyListed(t, fold, args, globs)
    ensures globs != []
  {
  }
}
