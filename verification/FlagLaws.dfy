/**
  Laws of the operands, flags and fields of command predicates (`operand_positions`,
  `option_args` and `has_flag` in ember_armor/ledger/shell/argv.py, `_command_matches` in
  ember_armor/ledger/engine.py): how the answer changes with the words of a command.
 */
module FlagLaws {
  import opened Prelude
  import opened CommandRules

  /** The same command with other words behind its name. */
  function With(c: Command, args: seq<string>): Command
    requires c.argv != []
  {
    c.(argv := [c.argv[0]] + args)
  }

  /** A command whose options are read the native way. */
  predicate Native(t: Texts, c: Command) { c.argv != [] && !IsCmdlet(t, c) }

  // ---- options ---------------------------------------------------------------------------

  lemma {:induction false} FirstDashes(args: seq<string>, rest: seq<string>)
    requires "--" !in args
    ensures Index(args + ["--"] + rest, "--") == |args|
    decreases args
  {
    var all := args + ["--"] + rest;
    if args != [] {
      assert all[0] == args[0] && all[1..] == args[1..] + ["--"] + rest;
      FirstDashes(args[1..], rest);
    }
  }

  lemma OptionsOf(t: Texts, c: Command, args: seq<string>)
    requires Native(t, c) && "--" !in args
    ensures Native(t, With(c, args)) && OptionArgs(t, With(c, args)) == args
  {
  }

  /** Nothing behind a bare "--" is an option. */
  lemma NothingBehindDashes(t: Texts, c: Command, args: seq<string>, rest: seq<string>, flag: string)
    requires Native(t, c) && "--" !in args
    ensures HasFlag(t, With(c, args + ["--"] + rest), flag) == HasFlag(t, With(c, args), flag)
  {
    OptionsOf(t, c, args);
    FirstDashes(args, rest);
    var all := args + ["--"] + rest;
    assert all[|args|] == "--" && all[..|args|] == args;
    assert With(c, all).argv[1..] == all;
    assert OptionArgs(t, With(c, all)) == args;
  }

  /** One argument carries the flag. */
  predicate Carries(t: Texts, arg: string, flag: string) {
    if "/" <= flag then "/" <= arg && t.lower(Unslashed(arg)) == t.lower(Unslashed(flag))
    else arg == flag || ("--" <= flag && flag + "=" <= arg) || (Short(flag) && Cluster(arg) && flag[1] in arg[1..])
  }

  predicate Short(flag: string) { |flag| == 2 && flag[0] == '-' && flag[1] != '-' }

  /** Several short flags in one argument. */
  predicate Cluster(arg: string) { |arg| > 2 && arg[0] == '-' && arg[1] != '-' }

  lemma FlagIsCarried(t: Texts, c: Command, args: seq<string>, flag: string)
    requires Native(t, c) && "--" !in args
    ensures HasFlag(t, With(c, args), flag) <==> exists arg :: arg in args && Carries(t, arg, flag)
  {
    OptionsOf(t, c, args);
    forall i | 0 <= i < |args| ensures args[i] in args {}
  }

  /** The order of the options does not matter, nor how often one is given. */
  lemma OrderDoesNotMatter(t: Texts, c: Command, args: seq<string>, others: seq<string>, flag: string)
    requires Native(t, c) && "--" !in args && "--" !in others && (forall arg :: arg in args <==> arg in others)
    ensures HasFlag(t, With(c, args), flag) == HasFlag(t, With(c, others), flag)
  {
    FlagIsCarried(t, c, args, flag);
    FlagIsCarried(t, c, others, flag);
    hide Carries, HasFlag;
  }

  /** Operands are no flags. */
  lemma OperandsAreNoFlags(t: Texts, c: Command, before: seq<string>, word: string, after: seq<string>, flag: string)
    requires Native(t, c) && "--" !in before + after && !("-" <= word) && "-" <= flag
    ensures HasFlag(t, With(c, before + [word] + after), flag) == HasFlag(t, With(c, before + after), flag)
  {
    FlagIsCarried(t, c, before + after, flag);
    FlagIsCarried(t, c, before + [word] + after, flag);
    assert !Carries(t, word, flag);
    hide Carries, HasFlag;
  }

  /** One flag for each letter. */
  function Apart(letters: string): seq<string> {
    seq(|letters|, i requires 0 <= i < |letters| => ['-', letters[i]])
  }

  /** `-xyz` is `-x -y -z`. */
  lemma ClustersComeApart(t: Texts, c: Command, before: seq<string>, letters: string, after: seq<string>, flag: string)
    requires Native(t, c) && "--" !in before + after && Short(flag) && |letters| > 1 && '-' !in letters
    ensures HasFlag(t, With(c, before + ["-" + letters] + after), flag) ==
            HasFlag(t, With(c, before + Apart(letters) + after), flag)
  {
    var one, many := before + ["-" + letters] + after, before + Apart(letters) + after;
    forall arg | arg in Apart(letters) ensures arg != "--" {
      var i :| 0 <= i < |letters| && arg == ['-', letters[i]];
      assert arg[1] == letters[i];
    }
    FlagIsCarried(t, c, one, flag);
    FlagIsCarried(t, c, many, flag);
    ClusterCarries(t, letters, flag);
    hide Carries, HasFlag, Apart;
    assert forall arg :: arg in one <==> arg in before || arg == "-" + letters || arg in after;
    assert forall arg :: arg in many <==> arg in before || arg in Apart(letters) || arg in after;
  }

  lemma ClusterCarries(t: Texts, letters: string, flag: string)
    requires Short(flag) && |letters| > 1 && '-' !in letters
    ensures Carries(t, "-" + letters, flag) <==> exists arg :: arg in Apart(letters) && Carries(t, arg, flag)
  {
    var arg := "-" + letters;
    assert arg[1..] == letters && arg[1] == letters[0];
    if Carries(t, arg, flag) {
      var i :| 0 <= i < |letters| && letters[i] == flag[1];
      assert Apart(letters)[i] == flag;
      assert flag in Apart(letters) && Carries(t, flag, flag);
    }
    assert !("--" <= flag) && !("/" <= flag);
    if a :| a in Apart(letters) && Carries(t, a, flag) {
      var i :| 0 <= i < |letters| && a == ['-', letters[i]];
      assert a == flag && letters[i] == flag[1] && letters[i] in letters;
      assert letters[0] in letters && Cluster(arg);
    }
  }

  /** `--name=value` carries `--name`, and is no other flag of its kind. */
  lemma ValuesCarryNames(t: Texts, c: Command, name: string, value: string, other: string)
    requires Native(t, c) && "--" <= name && '=' !in name && "--" <= other && '=' !in other && name != "--"
    ensures HasFlag(t, With(c, [name + "=" + value]), other) <==> other == name
  {
    var arg := name + "=" + value;
    assert arg != "--" by { assert '=' in arg; }
    FlagIsCarried(t, c, [arg], other);
    assert arg in [arg] && '=' in arg;
    if other + "=" <= arg { NamesEnd(name, other, value); }
    if other == name { assert other + "=" <= arg; }
  }

  lemma NamesEnd(name: string, other: string, value: string)
    requires '=' !in name && '=' !in other && other + "=" <= name + "=" + value
    ensures other == name
  {
    var arg := name + "=" + value;
    assert (other + "=")[|other|] == '=' && arg[|other|] == '=' && arg[|name|] == '=';
    assert forall k :: 0 <= k < |name| ==> arg[k] == name[k] && name[k] in name;
    assert forall k :: 0 <= k < |other| ==> arg[k] == (other + "=")[k] == other[k] && other[k] in other;
    assert |other| == |name|;
  }

  /** In cmd.exe neither letter case nor the number of slashes matters. */
  lemma SlashFlags(t: Texts, c: Command, args: seq<string>, flag: string, other: string)
    requires Native(t, c) && "--" !in args && "/" <= flag && "/" <= other
    requires t.lower(Unslashed(flag)) == t.lower(Unslashed(other))
    ensures HasFlag(t, With(c, args), flag) == HasFlag(t, With(c, args), other)
    ensures flag in args ==> HasFlag(t, With(c, args), other)
  {
    FlagIsCarried(t, c, args, flag);
    FlagIsCarried(t, c, args, other);
    assert forall arg :: Carries(t, arg, flag) == Carries(t, arg, other);
    hide HasFlag;
  }

  /** A cmdlet takes any beginning of a parameter, with or without a value behind a colon. */
  lemma ParametersMayBeShort(t: Texts, c: Command, args: seq<string>, arg: string, flag: string, n: nat)
    requires c.argv != [] && IsCmdlet(t, c) && arg in args && 1 < n <= |t.lower(flag)|
    requires t.lower(Before(arg, ':')) == t.lower(flag)[..n] && t.lower(flag)[0] == '-'
    ensures HasFlag(t, With(c, args), flag)
  {
    var i :| 0 <= i < |args| && args[i] == arg;
    assert OptionArgs(t, With(c, args)) == args;
  }

  lemma LongerParametersDoNot(t: Texts, c: Command, arg: string, flag: string)
    requires c.argv != [] && IsCmdlet(t, c) && |t.lower(Before(arg, ':'))| > |t.lower(flag)|
    ensures !HasFlag(t, With(c, [arg]), flag)
  {
    assert OptionArgs(t, With(c, [arg])) == [arg];
  }

  lemma {:induction false} ColonsEndNames(name: string, value: string)
    requires ':' !in name
    ensures Before(name + ":" + value, ':') == name && Before(name, ':') == name
    decreases name
  {
    var arg := name + ":" + value;
    if name == "" {
      assert arg[0] == ':';
    } else {
      assert arg[0] == name[0] && arg[1..] == name[1..] + ":" + value;
      ColonsEndNames(name[1..], value);
    }
  }

  /** For a cmdlet, `-Name:value` is `-Name`, whatever the value. */
  lemma ValuesBehindColons(t: Texts, c: Command, before: seq<string>, name: string, value: string, after: seq<string>,
                           flag: string)
    requires c.argv != [] && IsCmdlet(t, c) && ':' !in name
    ensures HasFlag(t, With(c, before + [name + ":" + value] + after), flag) ==
            HasFlag(t, With(c, before + [name] + after), flag)
  {
    ColonsEndNames(name, value);
    var x, y := before + [name + ":" + value] + after, before + [name] + after;
    assert OptionArgs(t, With(c, x)) == x && OptionArgs(t, With(c, y)) == y;
    forall i | 0 <= i < |x| ensures Before(x[i], ':') == Before(y[i], ':') {}
    hide Before;
  }

  /** Two slashes are as good as one, in the flag and in the argument. */
  lemma SlashesCountOnce(t: Texts, c: Command, before: seq<string>, arg: string, after: seq<string>, flag: string)
    requires Native(t, c) && "--" !in before + after && "/" <= arg && "/" <= flag
    ensures HasFlag(t, With(c, before + ["/" + arg] + after), flag) == HasFlag(t, With(c, before + [arg] + after), flag)
    ensures HasFlag(t, With(c, before + [arg] + after), "/" + flag) == HasFlag(t, With(c, before + [arg] + after), flag)
  {
    assert ("/" + arg)[1..] == arg && ("/" + flag)[1..] == flag;
    assert Unslashed("/" + arg) == Unslashed(arg) && Unslashed("/" + flag) == Unslashed(flag);
    var x, y := before + ["/" + arg] + after, before + [arg] + after;
    assert OptionArgs(t, With(c, x)) == x && OptionArgs(t, With(c, y)) == y;
    hide Unslashed;
    forall i | 0 <= i < |x|
      ensures StartsWith(x[i], "/") == StartsWith(y[i], "/") && Unslashed(x[i]) == Unslashed(y[i])
    {
    }
  }

  // ---- operands ------------------------------------------------------------------------------

  /** The operands among some arguments. */
  function Operands(args: seq<string>, values: set<string>, slash: bool): seq<string> {
    At(args, Positions(args, values, slash, 0, false))
  }

  function At(args: seq<string>, positions: seq<nat>): seq<string> {
    seq(|positions|, i requires 0 <= i < |positions| => if positions[i] < |args| then args[positions[i]] else "")
  }

  function Shifted(positions: seq<nat>, n: nat): seq<nat> {
    seq(|positions|, i requires 0 <= i < |positions| => positions[i] + n)
  }

  lemma {:induction false} PositionsShift(
    front: seq<string>, args: seq<string>, values: set<string>, slash: bool, i: nat, only: bool)
    ensures Positions(front + args, values, slash, |front| + i, only) ==
            Shifted(Positions(args, values, slash, i, only), |front|)
    decreases |args| - i
  {
    var all := front + args;
    if i < |args| {
      assert all[|front| + i] == args[i];
      PositionsShift(front, args, values, slash, i + 1, true);
      PositionsShift(front, args, values, slash, i + 1, false);
      PositionsShift(front, args, values, slash, i + 2, false);
      assert forall rest :: Shifted([i] + rest, |front|) == [|front| + i] + Shifted(rest, |front|);
    }
  }

  lemma AtShifted(front: seq<string>, args: seq<string>, positions: seq<nat>)
    ensures At(front + args, Shifted(positions, |front|)) == At(args, positions)
  {
  }

  lemma {:induction false} AllOperands(args: seq<string>, values: set<string>, slash: bool, i: nat)
    requires i <= |args|
    ensures At(args, Positions(args, values, slash, i, true)) == args[i..]
    decreases |args| - i
  {
    if i < |args| {
      AllOperands(args, values, slash, i + 1);
      assert At(args, [i] + Positions(args, values, slash, i + 1, true)) ==
             [args[i]] + At(args, Positions(args, values, slash, i + 1, true));
    }
  }

  /** The words of a command are read from the left: a value flag takes the next word with it. */
  lemma OperandsOfValueFlag(flag: string, value: string, rest: seq<string>, values: set<string>, slash: bool)
    requires flag in values && flag != "--"
    ensures Operands([flag, value] + rest, values, slash) == Operands(rest, values, slash)
  {
    PositionsShift([flag, value], rest, values, slash, 0, false);
    AtShifted([flag, value], rest, Positions(rest, values, slash, 0, false));
  }

  lemma OperandsOfOption(flag: string, rest: seq<string>, values: set<string>, slash: bool)
    requires flag !in values && flag != "--" && Optional(flag, slash)
    ensures Operands([flag] + rest, values, slash) == Operands(rest, values, slash)
  {
    PositionsShift([flag], rest, values, slash, 0, false);
    AtShifted([flag], rest, Positions(rest, values, slash, 0, false));
  }

  lemma OperandsOfWord(word: string, rest: seq<string>, values: set<string>, slash: bool)
    requires word !in values && !Optional(word, slash)
    ensures Operands([word] + rest, values, slash) == [word] + Operands(rest, values, slash)
  {
    PositionsShift([word], rest, values, slash, 0, false);
    var positions := Positions(rest, values, slash, 0, false);
    AtShifted([word], rest, positions);
    assert At([word] + rest, [0] + Shifted(positions, 1)) == [word] + At([word] + rest, Shifted(positions, 1));
  }

  /** Behind a bare "--" every word is an operand. */
  lemma OperandsBehindDashes(rest: seq<string>, values: set<string>, slash: bool)
    ensures Operands(["--"] + rest, values, slash) == rest
  {
    PositionsShift(["--"], rest, values, slash, 0, true);
    AtShifted(["--"], rest, Positions(rest, values, slash, 0, true));
    AllOperands(rest, values, slash, 0);
    assert rest[0..] == rest;
  }

  /** A command's name is no operand. */
  lemma OperandsOfCommand(c: Command, values: set<string>)
    requires c.argv != []
    ensures At(c.argv, Positions(c.argv, values, c.shell.Cmd?, 1, false)) == Operands(c.argv[1..], values, c.shell.Cmd?)
  {
    var front, args := [c.argv[0]], c.argv[1..];
    assert front + args == c.argv;
    PositionsShift(front, args, values, c.shell.Cmd?, 0, false);
    AtShifted(front, args, Positions(args, values, c.shell.Cmd?, 0, false));
  }

  // ---- fields ----------------------------------------------------------------------------------

  /** A predicate that every command matches. */
  const ANYTHING := CommandPred([], [], [], [], [], [], [], None, None)

  /** A predicate says what each of its fields says alone; the fields on arguments go with the subcommand. */
  lemma FieldsApart(t: Texts, c: Command, pred: CommandPred, windows: bool)
    requires c.argv != []
    ensures CommandMatches(t, c, pred, windows) <==>
            CommandMatches(t, c, ANYTHING.(shell := pred.shell), windows) &&
            CommandMatches(t, c, ANYTHING.(program := pred.program), windows) &&
            CommandMatches(t, c, ANYTHING.(subcommand := pred.subcommand), windows) &&
            CommandMatches(t, c, ANYTHING.(flagsAny := pred.flagsAny), windows) &&
            CommandMatches(t, c, ANYTHING.(flagsAll := pred.flagsAll), windows) &&
            CommandMatches(t, c, ANYTHING.(flagsNone := pred.flagsNone), windows) &&
            var behind := ANYTHING.(subcommand := pred.subcommand);
            CommandMatches(t, c, behind.(argsAnyGlob := pred.argsAnyGlob), windows) &&
            CommandMatches(t, c, behind.(argsNoneGlob := pred.argsNoneGlob), windows) &&
            CommandMatches(t, c, behind.(argsRegex := pred.argsRegex), windows)
  {
    hide HasFlag, Tail, OperandsOf, Folds, Words, Cut, Norm;
  }

  lemma ShellField(t: Texts, c: Command, shell: Shell, windows: bool)
    requires c.argv != []
    ensures CommandMatches(t, c, ANYTHING.(shell := Some(shell)), windows) <==> c.shell == shell
  {
  }

  /** Flags that are wanted all, in part or not at all. */
  lemma FlagFields(t: Texts, c: Command, flags: seq<string>, windows: bool)
    requires c.argv != [] && flags != []
    ensures CommandMatches(t, c, ANYTHING.(flagsAll := flags), windows) <==> forall f :: f in flags ==> HasFlag(t, c, f)
    ensures CommandMatches(t, c, ANYTHING.(flagsAny := flags), windows) <==> exists f :: f in flags && HasFlag(t, c, f)
    ensures CommandMatches(t, c, ANYTHING.(flagsNone := flags), windows) <==>
            forall f :: f in flags ==> !HasFlag(t, c, f)
  {
    hide HasFlag, Tail, OperandsOf, Folds, Words, Cut, Norm;
    forall i | 0 <= i < |flags| ensures flags[i] in flags {}
  }

  /** The program's name is one of those wanted, up to letter case where it does not count. */
  lemma ProgramField(t: Texts, c: Command, names: seq<string>, windows: bool)
    requires c.argv != [] && names != []
    ensures var fold := c.shell != Bash || t.caseless(t.program(c.argv[0], true)) || windows;
            CommandMatches(t, c, ANYTHING.(program := names), windows) <==>
            exists name :: name in names && (if fold then t.lower(name) else name) == t.program(c.argv[0], fold)
  {
    hide HasFlag, Tail, OperandsOf, Words, Cut;
    forall i | 0 <= i < |names| ensures names[i] in names {}
  }

  /** The wanted subcommand is where the operands begin. */
  lemma SubcommandField(t: Texts, c: Command, wanted: seq<string>, windows: bool)
    requires c.argv != [] && wanted != []
    ensures var fold := c.shell != Bash || t.caseless(t.program(c.argv[0], true));
            var values := t.valueFlags(t.lower(t.program(c.argv[0], fold || windows)));
            var words := Operands(c.argv[1..], values, c.shell == Cmd);
            CommandMatches(t, c, ANYTHING.(subcommand := wanted), windows) <==>
            |wanted| <= |words| && forall i :: 0 <= i < |wanted| ==>
              if fold then t.lower(words[i]) == t.lower(wanted[i]) else words[i] == wanted[i]
  {
    var fold := Folds(t, c);
    var name := t.program(c.argv[0], fold || windows);
    var values := t.valueFlags(t.lower(name));
    OperandsOfCommand(c, values);
    var positions := OperandsOf(t, c, name);
    Ascending(c.argv, values, c.shell.Cmd?, 1, false);
    var words := Operands(c.argv[1..], values, c.shell.Cmd?);
    assert At(c.argv, positions) == words;
    assert forall i :: 0 <= i < |words| ==> words[i] == At(c.argv, positions)[i] == c.argv[positions[i]];
    hide HasFlag, Tail, Words, Cut, Positions, Operands, At, InOrder;
  }

  /** What the fields on arguments look at: everything behind the subcommand's last word. */
  function Arguments(t: Texts, c: Command, n: nat, windows: bool): seq<string>
    requires c.argv != []
  {
    Tail(c, OperandsOf(t, c, t.program(c.argv[0], Folds(t, c) || windows)), n)
  }

  /** The operands of a beginning of the command are a beginning of its operands. */
  lemma {:induction false} PositionsCut(s: seq<string>, m: nat, values: set<string>, slash: bool, i: nat, only: bool)
    requires m <= |s|
    ensures var all, some := Positions(s, values, slash, i, only), Positions(s[..m], values, slash, i, only);
            some <= all && (forall j :: 0 <= j < |some| ==> some[j] < m) &&
            (forall j :: |some| <= j < |all| ==> all[j] >= m)
    decreases |s| - i
  {
    hide Optional;
    if i < |s| {
      PositionsCut(s, m, values, slash, i + 1, true);
      PositionsCut(s, m, values, slash, i + 1, false);
      PositionsCut(s, m, values, slash, i + 2, false);
      if i < m { assert s[..m][i] == s[i]; } else { Later(s, values, slash, i, only, m); }
    }
  }

  lemma Later(s: seq<string>, values: set<string>, slash: bool, i: nat, only: bool, m: nat)
    requires m <= i
    ensures forall j :: 0 <= j < |Positions(s, values, slash, i, only)| ==> Positions(s, values, slash, i, only)[j] >= m
  {
    hide Positions;
    Ascending(s, values, slash, i, only);
  }

  /** The arguments are what stands behind the `n`-th operand. */
  lemma ArgumentsFollow(t: Texts, c: Command, n: nat, windows: bool) returns (k: nat)
    requires c.argv != []
    ensures var fold := c.shell != Bash || t.caseless(t.program(c.argv[0], true));
            var values := t.valueFlags(t.lower(t.program(c.argv[0], fold || windows)));
            var words := Operands(c.argv[1..], values, c.shell == Cmd);
            n <= |words| ==>
              k < |c.argv| && Arguments(t, c, n, windows) == c.argv[k + 1..] && (n > 0 ==> c.argv[k] == words[n - 1]) &&
              |Positions(c.argv[..k + 1], values, c.shell == Cmd, 1, false)| == n
  {
    var fold := Folds(t, c);
    var name := t.program(c.argv[0], fold || windows);
    var values := t.valueFlags(t.lower(name));
    OperandsOfCommand(c, values);
    var positions := OperandsOf(t, c, name);
    var words := Operands(c.argv[1..], values, c.shell.Cmd?);
    Ascending(c.argv, values, c.shell.Cmd?, 1, false);
    k := if 0 < n <= |positions| then positions[n - 1] else 0;
    if n <= |words| {
      PositionsCut(c.argv, k + 1, values, c.shell.Cmd?, 1, false);
      CutAt(positions, Positions(c.argv[..k + 1], values, c.shell.Cmd?, 1, false), n, k);
      assert n > 0 ==> At(c.argv, positions)[n - 1] == c.argv[k];
    }
  }

  lemma CutAt(all: seq<nat>, some: seq<nat>, n: nat, k: nat)
    requires n <= |all| && k == (if n > 0 then all[n - 1] else 0)
    requires (forall i :: 0 <= i < |all| ==> all[i] >= 1) && forall i, j :: 0 <= i < j < |all| ==> all[i] < all[j]
    requires some <= all && (forall j :: 0 <= j < |some| ==> some[j] < k + 1)
    requires forall j :: |some| <= j < |all| ==> all[j] >= k + 1
    ensures |some| == n
  {
    assert n > 0 ==> all[n - 1] == k;
    assert n < |all| ==> all[n] > k;
    assert forall j :: 0 <= j < |some| ==> all[j] == some[j] && some[j] <= k;
  }

  lemma ArgumentFields(t: Texts, c: Command, wanted: seq<string>, globs: seq<string>, windows: bool)
    requires c.argv != [] && globs != []
    requires CommandMatches(t, c, ANYTHING.(subcommand := wanted), windows)
    ensures var fold := c.shell != Bash || t.caseless(t.program(c.argv[0], true));
            var found := exists arg, glob :: arg in Arguments(t, c, |wanted|, windows) && glob in globs &&
                           t.fnmatch(if fold then t.lower(arg) else arg, if fold then t.lower(glob) else glob);
            (CommandMatches(t, c, ANYTHING.(subcommand := wanted, argsAnyGlob := globs), windows) <==> found) &&
            (CommandMatches(t, c, ANYTHING.(subcommand := wanted, argsNoneGlob := globs), windows) <==> !found)
  {
    var rest := Arguments(t, c, |wanted|, windows);
    hide HasFlag, Tail, Words, Cut, OperandsOf, HasSubcommand;
    forall i | 0 <= i < |rest| ensures rest[i] in rest {}
    forall i | 0 <= i < |globs| ensures globs[i] in globs {}
  }

  /** A pattern is searched in the arguments, in what the command is given and in what is piped into it. */
  lemma RegexField(t: Texts, c: Command, wanted: seq<string>, pattern: string, windows: bool)
    requires c.argv != [] && CommandMatches(t, c, ANYTHING.(subcommand := wanted), windows)
    ensures CommandMatches(t, c, ANYTHING.(subcommand := wanted, argsRegex := Some(pattern)), windows) <==>
            exists text :: text in {Words(Arguments(t, c, |wanted|, windows)), c.stdin, Words(c.upstream)} &&
                           t.search(pattern, Cut(text))
  {
    hide HasFlag, Tail, OperandsOf, HasSubcommand, Words, Cut;
  }

  lemma CutIsABeginning(text: string)
    ensures Cut(text) <= text && |Cut(text)| == if |text| < TEXT_LIMIT then |text| else TEXT_LIMIT
  {
  }
}
