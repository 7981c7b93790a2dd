# EmberArmor ledger: a verified model

EmberArmor's ledger gate decides, from the text of a tool call, which stored rules apply to
it. These Dafny modules model the parts of the gate whose correctness is not visible from
any single function, and prove what they promise for all inputs and all runs. The POSIX path
flavour and Bash are modelled throughout, except where a flavour or shell only changes how
names are compared.

| part | modules |
|---|---|
| directories and moves of a shell, and the laws of paths, words and moves | Paths, DirStacks, Moves, MoveLaws |
| the directory of every command: scopes, recursive analysis, soundness, the in-place walk | Scopes, Analysis, Soundness, GoingBack, Tracker |
| what the analysis does not forget: labels against an execution command by command | Precision, Simulation |
| the index ranges a parser records, and what is recorded of nested compound commands | Ranges, Guards, Nesting, Trees |
| and-or lists, groups and subshells: from operators to ranges, runs and labels | Lists, AndOr, RealLists, UnheardTests |
| scripts with loops and conditions: from their text to the forest of ranges, to runs and labels | Scripts, Forests, Readings, Fitting, ScriptRuns, MovingTests |
| globs, abbreviations, path, command and argument predicates, and what lint claims about two of them | Globs, WildTokens, Abbreviations, PathRules, CommandRules, Arguments |
| laws of those predicates: which differences of two texts matter and which do not | GlobLaws, PathLaws, FlagLaws, ArgumentLaws, ImplicationLaws |
| directory scopes of rules: what a scoped rule sees of a call | Views, ViewsAgree, ViewLaws |
| lint: encoding, axioms, findings, contradictions, shadowed rules, and where it is wrong | Lint, LintModel, Findings, LintFinds, Cores, Shadows, LintLimits |
| the hash-chained audit log | Audit, AuditStore, AuditLaws |
| reminders and their replay | Reminders, ReminderLaws, ReminderRuns |
| the circuit breaker | Breaker |
| the repository walk | Repositories |
| judging a call by one rule and by a whole ledger | Evaluation, JudgeLaws, VerdictLaws, LedgerOrder, LedgerGrowth |

`dafny verify dfyconfig.toml` checks everything. Classes and loops follow the program where
it changes state; each of their methods is proved against a function of the same module (or
of the module before it), and the theorems are about those functions.

Conventions. `None` stands for a directory the command string does not name. Character-level
work (regular expressions, `fnmatch`, letter case, character classes, JSON) enters as
functions that both sides of a theorem share. SHA-256 enters as an injective constructor that
is never the genesis word. Locked sections of the circuit breaker are the steps of a run;
clocks, the filesystem probe and the solver are parameters. In the modules on a whole ledger
the scopes and atoms of rules are names that a world interprets; Views has them as patterns.

## What the proofs found

- `cd ..` from an unknown directory: a relative path that climbs above the directory it
  starts from pops both stand-ins, so the two answers agree and a directory is named that
  the shell need not be in (Paths.DirectoryIsRightExactlyWhenSeen).
- A bare `pushd` with nothing on the known stack leaves the place as it was although a real
  shell swaps. `-n`, `+N` and `-N` turn the stack or take an entry out of it, and what the gate
  remembers is then right only in the cases the guard names: always for `pushd -0`, for
  `popd +N` when nothing is known from entry N on and the directory before is the present one,
  and for most forms only when nothing is remembered (Moves.MoveIsRightExactlyWhenReadable).
- `cd -` in a loop: the trial pass compares directory and stack only, so a pass that ends
  where it began can send the next one elsewhere (GoingBack.GoingBackInALoopMisleads).
- The condition of a loop is tested once more than its body runs. When it moves the shell, as in
  `while cd T && [[ ... ]]; do cd D; done; make`, and the body comes back, the trial pass ends
  where it began and `make` is labelled with that directory, which the last condition has left
  (MovingTests.MovingTestMisleadsExactly). Without moves in the conditions of loops and of `elif`
  every execution of a script is one of the runs the labels are right for
  (ScriptRuns.RealScriptIsARun).
- A `head` file that is present but empty reads as absent when an entry is linked, and an
  append then hides a truncation (Audit.AppendHidesExactly, Audit.EmptyHeadHappens).
- Lint takes a path condition in a narrow directory scope to imply the same condition in a
  wider one. With `spared_beside` that is wrong: the wide rule sees the sibling that spares the
  path, the narrow one need not, so lint reports a rule as shadowed that fires where the other
  does not (Views.PathsCarryExactly, Views.BinsCanBeSpared, LintLimits.SparedRuleIsNotShadowed).
- The gate recognises shell tools in any letter case, lint only as they are spelled: a call of a
  tool named `bash` is none that lint knows of, and a rule for all tools is reported as shadowed
  by the same rule for the listed shell tools (LintLimits.ToolsAreRightExactly,
  LintLimits.BashIsNotShadowed).
- `/` counts as inside a pattern such as `**/[!a]`, because a negated class takes a slash
  (PathRules.InsideIsRightExactly).
- Reminders are limited by times cut to the millisecond in the log, so one can come up to a
  millisecond early, and the replay, which keeps exact times, then disagrees
  (ReminderRuns.TwoCallsExactly).
- The comment in the breaker's `call` speaks of one trial call while half open. The code
  admits every call then, and a failing one opens the circuit again only when the window
  still holds enough failures (Breaker.TrialFailureMayStayHalfOpen).
- A test inside a group or a subshell, as in `( [[ -d x ]] ) && cd y; make`, is noted in a
  frame that is gone when the `&&` is read, so no range opens: `cd y` counts as always run,
  and `make` is labelled `y` when it runs elsewhere (UnheardTests.UnheardTestMislabels). The
  ranges of `x && y` explain every outcome exactly when a group or subshell `x` that can fail
  holds a command that is no move (UnheardTests.UnheardTestMisleadsExactly).
- A scoped `require` and another rule on `unknown_directory` can make the decision depend on
  the order of the rules (LedgerOrder.OrderMattersExactly, LedgerOrder.ClashHappens).
- Adding a rule never takes away one that fired, exactly when the ledger has no `require` on
  `unknown_directory` (LedgerGrowth.MoreRulesKeepExactly); otherwise one more rule can leave
  no effect at all (LedgerGrowth.DecisionCanFall).

## Model

| member | source | states |
|---|---|---|
| Paths.Normalize | ember_armor/ledger/paths.py:198-211 | the segment loop gives the same as resolving the base first and the rest on top of it, one segment at a time |
| Paths.ResolveClean | ember_armor/ledger/paths.py:198-211 | a path without unresolved segments normalises to plain names below the root |
| Paths.NormalStays | ember_armor/ledger/paths.py:198-211 | a normalised path, resolved below any directory, is appended as it stands: normalising twice changes nothing |
| Paths.OpenSurvives | ember_armor/ledger/paths.py:202-209 | a segment with an unresolved variable is never climbed over: `$DIR/..` is still unresolved at the end |
| Paths.FollowChain | ember_armor/ledger/shellpaths.py:773-780 | the loop of `follow` is the chain of single moves, each from the directory before |
| Paths.DirectoryIsRightExactlyWhenSeen | ember_armor/ledger/shellpaths.py:737-771 | `directory` names only the directory a move really reaches, from every directory the shell could be in, if and only if a relative path does not climb out of an unknown directory |
| Paths.FollowRight | ember_armor/ledger/shellpaths.py:773-780 | a chain whose moves can each be seen ends where every real chain of moves ends, when it names a directory |
| Moves.Where.constructor | ember_armor/ledger/shellpaths.py:380-390 | a place starts with the directory, the previous one and the stack it is given |
| Moves.Where.Copy | ember_armor/ledger/shellpaths.py:392-394 | a copy is a new object with the same directory, previous directory and stack |
| Moves.Where.Lose | ember_armor/ledger/shellpaths.py:396-400 | afterwards nothing is known, and the stack is as deep as before |
| Moves.Where.DiffersFrom | ember_armor/ledger/shellpaths.py:402-404 | two places differ when directory or stack do; the previous directory is not compared |
| DirStacks.LocationTargets | ember_armor/ledger/shellpaths.py:791-829 | the words behind a move are its operands, or unclear as soon as one is an option that changes what the command does |
| Moves.Where.Move | ember_armor/ledger/shellpaths.py:832-877 | `cd`, `pushd` and `popd` with any words: the directory becomes the previous one, `pushd` keeps it on the stack, and whatever cannot be read leaves the directory unknown and the stack as deep as the gate can tell |
| Moves.Where.StepOver | ember_armor/ledger/shellpaths.py:1077-1094 | only a move changes the place; a piped one makes directory and previous directory unknown and leaves the stack |
| Moves.MoveRight | ember_armor/ledger/shellpaths.py:832-877 | from a place that describes the shell, a readable move that succeeds leads to a place that describes the moved shell: directory, `OLDPWD` and each known stack entry at its depth from the top |
| Moves.MoveIsRightExactlyWhenReadable | ember_armor/ledger/shellpaths.py:832-877 | for `cd`, `pushd` and `popd` with any words, against what Bash does with each form (swap, `+N`, `-N`, `-n`, paths): `_move` describes every successful move of every shell it could be, if and only if a condition on words and remembered place holds; otherwise a shell is given that makes the move and is described wrong |
| Moves.StepRight | ember_armor/ledger/shellpaths.py:1077-1094 | every kind of command, moves in pipelines included, keeps the place a description of the shell |
| Moves.LabelRight | ember_armor/ledger/shellpaths.py:933-951 | a command labelled with a directory runs in it, moved by its wrappers and its own directory options |
| MoveLaws.ValuesMayComeLater | ember_armor/ledger/paths.py:198-211 | a path may be normalised before its variables are known: filling them in afterwards and normalising again gives what filling them in first gives, for all values |
| MoveLaws.FlagsMakeNoDifference | ember_armor/ledger/shellpaths.py:791-829 | a word such as `-L` makes no difference to a move, wherever it stands |
| MoveLaws.OthersAreTargets | ember_armor/ledger/shellpaths.py:791-829 | every other word that is clear is an operand in its place, and one unclear word anywhere leaves no operands |
| MoveLaws.PipesLeaveTheStack | ember_armor/ledger/shellpaths.py:1077-1094 | a `popd` behind a move in a pipe goes where the top of the stack says |
| MoveLaws.ThereAndBack | ember_armor/ledger/shellpaths.py:832-877 | `cd` keeps the stack, and `cd -` behind it comes back |
| MoveLaws.ReadableCommandsAreNamed | ember_armor/ledger/shellpaths.py:933-951 | from a known directory a command whose wrappers and directory options can all be read is named a directory, and it is the only one it may run in |
| Scopes.OpeningFacts | ember_armor/ledger/shellpaths.py:982-988 | the table of opening scopes holds exactly the scopes with commands that begin at an index, by descending end and number |
| Scopes.InnerBounded | ember_armor/ledger/shellpaths.py:982-988 | of laminar ranges numbered from the inside out, each scope of an index ends within the one opened before it |
| Analysis.Sound | ember_armor/ledger/shellpaths.py:997-1075 | by recursion over scopes: if the state before describes the shell, then every run the scopes allow ends in a shell the analysis describes, and every command of it meets the state it is labelled with |
| Analysis.SoundLoop | ember_armor/ledger/shellpaths.py:1014-1023 | from the beginning of any pass over a loop the state inside it and behind it describes the shell, for any number of whole passes |
| Analysis.LabelCount | ember_armor/ledger/shellpaths.py:997-1003 | each command of a stretch gets exactly one label |
| Soundness.LabelsAreRight | ember_armor/ledger/shellpaths.py:954-1101 | when a command is labelled with a directory, every run allowed by the recorded scopes (own process, maybe, loop, eval) executes it in exactly that directory, over any nesting and any trial budget |
| Soundness.PreviousIsIdle | ember_armor/ledger/shellpaths.py:402-404 | without `cd -`, two states that agree on directory and stack stay so: the comparison after a trial pass may leave out where the shell was before |
| Soundness.SteadyReadably | ember_armor/ledger/shellpaths.py:1014-1023 | a script without stack rearrangement, bare `pushd`, climbing relative paths and `cd -` in loops meets the conditions of the soundness theorem at every command and every loop |
| Soundness.SteadyScriptsAreLabelledRight | ember_armor/ledger/shellpaths.py:954-1101 | for such scripts, recognised by looking at their commands one by one, every label that names a directory is right in every run |
| Precision.StillSkips | ember_armor/ledger/shellpaths.py:1047-1051 | behind a scope in which nothing moves the state is the one before it, whatever its kind |
| Precision.StillBody | ember_armor/ledger/shellpaths.py:997-1051 | in a stretch without moves and entered chains every command is labelled with the state it began with, which is also the state behind it, while the trial budget lasts |
| Precision.BalancedStays | ember_armor/ledger/shellpaths.py:1014-1051 | a scope that may be left out or repeated and whose commands end in the directory and stack they began with leaves both known |
| Precision.PushedAndPoppedStays | ember_armor/ledger/shellpaths.py:832-877 | in particular `pushd d`, anything that does not move, and `popd` |
| Precision.LabelBehindIsKept | ember_armor/ledger/shellpaths.py:997-1051 | so the command behind such a scope is labelled with the known directory |
| Simulation.LabelsAreSimulated | ember_armor/ledger/shellpaths.py:954-1101 | for scripts whose moves can all be read and whose loops and optional parts come back, the labels are the shells found by executing the script command by command |
| Simulation.SimulationIsARun | ember_armor/ledger/shellpaths.py:954-1101 | that execution is one of the runs the scopes allow, and it meets every command once, in order |
| Simulation.SimpleScriptsAreKnown | ember_armor/ledger/shellpaths.py:954-1101 | so in such a script every command is labelled with a directory, and in some run it is executed there |
| GoingBack.GoingBackInALoopMisleads | ember_armor/ledger/shellpaths.py:402-404 | a script with `cd -` in a loop, a run of it and a command of that run whose label names another directory |
| Tracker.Tracker.constructor | ember_armor/ledger/shellpaths.py:977-995 | the table built from the scopes, the full budget and no cost so far |
| Tracker.Tracker.Arrive | ember_armor/ledger/shellpaths.py:997-1003 | closing and opening scopes in place, the walk stays one step of the recursive analysis, and the cost of trials never exceeds the budget it uses up |
| Tracker.Tracker.Enter | ember_armor/ledger/shellpaths.py:1005-1032 | entering a scope pushes its end, number and state, and begins it as the recursive analysis does |
| Tracker.Tracker.Begin | ember_armor/ledger/shellpaths.py:1014-1031 | a loop is begun after its trial pass, `eval` keeps no state, a nested shell starts where its starter puts it |
| Tracker.Tracker.Leave | ember_armor/ledger/shellpaths.py:1034-1051 | leaving a scope gives the state behind it: unchanged for `eval`, the earlier one for a process of its own, the join otherwise |
| Tracker.Tracker.Trial | ember_armor/ledger/shellpaths.py:1053-1075 | a trial pass ends where the recursive analysis of the loop body ends, is refused exactly when it costs more than is left, and its recursion with `_enter` terminates |
| Tracker.Tracker.Directories | ember_armor/ledger/shellpaths.py:1155-1246 | the flat walk over the command list with its stack of open scopes labels every command as the recursive analysis does, and all trial passes together step over at most as many commands as the budget |
| Tracker.ResumeEnter | ember_armor/ledger/shellpaths.py:1001-1032 | entering a scope on the stack of open ones does not change what the walk will compute |
| Tracker.ResumePop | ember_armor/ledger/shellpaths.py:999-1000 | closing the innermost scope at its end does not change what the walk will compute |
| Tracker.ResumeStep | ember_armor/ledger/shellpaths.py:1067-1070 | a command yields its label and the rest of the walk from the moved state |
| Guards.ParseResult.GuardFrom | ember_armor/ledger/shell/core.py:151-163 | a range that holds a command is recorded with its kind under the next number, an empty one is not |
| Guards.ParseResult.MergeIn | ember_armor/ledger/shell/core.py:187-230 | the scopes of a nested shell are shifted and renumbered and come before the nested shell's own |
| Guards.Guards.constructor | ember_armor/ledger/shell/core.py:280-282 | a list begins with one frame at the commands read so far |
| Guards.Guards.CloseRanges | ember_armor/ledger/shell/core.py:284-291 | exactly the ranges that the operator ends are recorded, the innermost first |
| Guards.Guards.LinkOn | ember_armor/ledger/shell/core.py:297-315 | what follows the second operator is a range up to the next first one; what follows the first is a range up to the next second one, and only when something that can fail was read since the last range opened |
| Guards.Guards.BranchOff | ember_armor/ledger/shell/core.py:334-350 | a branch ends the frames inside it, records the branch before it and may start another |
| Guards.Guards.Leave | ember_armor/ledger/shell/core.py:352-361 | a frame records its ranges, its branch and itself, from the inside out |
| Guards.Guards.LeaveTagged | ember_armor/ledger/shell/core.py:363-368 | the innermost frame of that name and the frames inside it close, and nothing when there is none |
| Guards.Guards.FinishList | ember_armor/ledger/shell/core.py:370-380 | at the end of a list everything that is open is recorded |
| Guards.ParseEvents | ember_armor/ledger/shell/core.py:264-380 | the classes, fed any stream of events with nested lists and merged scripts, leave the parse result the functions give |
| Nesting.EveryParseNests | ember_armor/ledger/shell/core.py:187-380 | for every stream of events, nested and merged to any depth, the ranges are laminar, numbered from the inside out, and of two equal ranges the later-numbered one opened first |
| Nesting.MergeTidy | ember_armor/ledger/shell/core.py:187-230 | merging a nested shell keeps all of that |
| Trees.EveryParseIsMarked | ember_armor/ledger/shell/core.py:187-380 | for every text of nested lists, compound commands and scripts: the scopes that are no optional ranges are its subshells, scripts and loops, with kind, `kept` and chain, exactly and in the order in which they end, and every branch is an optional range |
| Trees.KindIsRecorded | ember_armor/ledger/shell/core.py:352-368 | a compound command that holds a command is recorded over exactly its commands with the kind it was entered with, and each of its branches that holds one as a `maybe` range |
| AndOr.CalmListsAreCertain | ember_armor/ledger/shell/core.py:297-315 | moves joined by `&&`, with anything behind the last of them, record no range that may be left out |
| AndOr.ListExplained | ember_armor/ledger/shell/core.py:284-324 | for all and-or lists, with groups and subshells to any depth, in which no unheard test stands before an `&&`, and every way their items can end: the recorded ranges can be entered or left out so that each command runs exactly if all ranges around it are entered, and only `maybe` ranges are left out |
| AndOr.OutsideAlwaysRuns | ember_armor/ledger/shell/core.py:284-324 | a command outside all recorded `maybe` ranges runs in every execution of such a list |
| AndOr.SeparatorBeforeClose | ember_armor/ledger/shell/core.py:321-380 | a separator before a closing brace or at the end of a list changes no range |
| AndOr.Links | ember_armor/ledger/shell/core.py:297-315 | after an operator the next item runs exactly if all open ranges are entered, provided the frame has heard of what can fail, and the ranges that were closed still explain what ran before |
| RealLists.ListOwns | ember_armor/ledger/shell/bash.py:578-593 | the scopes of a parsed list that are processes of their own are exactly the subshells of its text, at their command ranges |
| RealLists.RealListIsARun | ember_armor/ledger/shell/core.py:284-324 | what a shell executes of such a list, groups and subshells included, when its moves succeed, is one of the runs the recorded ranges allow, and that run visits every command that was executed |
| RealLists.RealListIsLabelledRight | ember_armor/ledger/shellpaths.py:954-1101 | so from operators to labels: a command of such a list that is executed and labelled with a directory runs there, when every move can be read where it is met |
| RealLists.SteadyListIsLabelledRight | ember_armor/ledger/shellpaths.py:954-1101 | the same with conditions on the commands one by one, read off the text |
| UnheardTests.UnheardTestMisleadsExactly | ember_armor/ledger/shell/core.py:297-319 | for `x && y` the recorded ranges explain every outcome of `x` if and only if `x` is plain, holds a command that is no move, or cannot fail |
| UnheardTests.UnheardTestMislabels | ember_armor/ledger/shell/bash.py:612-616 | the parse of `( [[ ... ]] ) && cd y; make`, an execution of it, and the label of `make` that names another directory than the one it runs in |
| Forests.Stops | ember_armor/ledger/shell/core.py:284-315 | a range of a list reaches up to the other operator or the end of the list |
| Readings.ScriptIsItsForest | ember_armor/ledger/shell/core.py:264-380 | the parse of every script of lists, groups, subshells, loops and conditions records exactly the ranges of its forest, with their kinds, in the order in which they end |
| Readings.ReadRest | ember_armor/ledger/shell/core.py:284-315 | reading a list up to the end of its open range records the trees of that stretch and leaves the frame as it was |
| Fitting.ParseFits | ember_armor/ledger/shellpaths.py:982-988 | at every command the table of opening scopes holds the ranges of the forest that begin there, the outer one first |
| ScriptRuns.RealScriptIsARun | ember_armor/ledger/shell/bash.py:652-683 | every execution of every such script, with any number of rounds and any choice of branches, whose moves succeed, is a run of the recorded scopes: the same commands in the same order, the same shell at each, the same shell at the end; provided no unheard test stands before an `&&` and the conditions of loops and of `elif` move nothing |
| ScriptRuns.RealScriptIsLabelledRight | ember_armor/ledger/shellpaths.py:954-1101 | so a label that names a directory names the one in which its command is executed, each time it is |
| ScriptRuns.SteadyScriptIsLabelledRight | ember_armor/ledger/shellpaths.py:954-1101 | the same with conditions on the commands one by one, read off the text |
| ScriptRuns.Joined | ember_armor/ledger/shellpaths.py:997-1003 | runs of two stretches that follow each other are a run of both |
| MovingTests.MovingTestMisleadsExactly | ember_armor/ledger/shellpaths.py:1014-1023 | for all targets: some execution of a loop whose condition moves by one and whose body moves by the other runs the command behind it elsewhere than labelled, if and only if the body comes back to where the loop began and the condition leads away from there |
| Globs.Compile | ember_armor/ledger/paths.py:261-292 | the loop over a pattern gives its tokens, and for `is_under` those of the pattern without its last slashes |
| Globs.PlainMatchesItself | ember_armor/ledger/paths.py:295-301 | a pattern without wildcards matches itself only |
| Globs.TailTakesMore | ember_armor/ledger/paths.py:261-292 | a pattern that ends in a star goes on matching when text without a slash is added |
| GlobLaws.StarMeans | ember_armor/ledger/paths.py:261-292 | `*` in front of the rest of a pattern stands for any text without a slash |
| GlobLaws.AnyMeans | ember_armor/ledger/paths.py:261-292 | `**` stands for any text |
| GlobLaws.DeepMeans | ember_armor/ledger/paths.py:261-292 | `**/` stands for nothing or for whole segments |
| GlobLaws.OneMeans | ember_armor/ledger/paths.py:261-292 | `?` stands for one character that is no slash |
| GlobLaws.ClassMeans | ember_armor/ledger/paths.py:241-292 | a class, whose first character may be a closing bracket, stands for one of its characters |
| GlobLaws.BadClassMeans | ember_armor/ledger/paths.py:241-292 | a bracket whose body is no class stands for itself |
| WildTokens.AnythingIsTaken | ember_armor/ledger/paths.py:261-292 | wildcards with a `**`, or a `**/` and a later `*`, match every text |
| Abbreviations.Abbreviates | ember_armor/ledger/paths.py:315-336 | the worklist search terminates and answers whether its step relation leads from the start to the end of both names |
| Abbreviations.AbbreviatesSomeName | ember_armor/ledger/paths.py:304-336 | when it says yes, some name fits the operand and the pattern |
| Abbreviations.WildcardsShareANameExactly | ember_armor/ledger/paths.py:304-336 | against a pattern that is only wildcards it says yes if and only if such a name exists |
| Abbreviations.AbbreviatesExactly | ember_armor/ledger/paths.py:304-336 | for all operands and patterns: it says yes if and only if some name fits both by an alignment in which no literal character of the operand lies under a star of the pattern, unless the pattern is only wildcards |
| Abbreviations.LiteralsMustMeet | ember_armor/ledger/paths.py:304-314 | the pair `r*` and `*k` shares a name and is no abbreviation |
| PathRules.InsideIsRightExactly | ember_armor/ledger/implies.py:44-63 | what `directory_inside` calls inside is inside for every literal path, if and only if the inner pattern is not `/` or the outer one, when its last class takes a slash, takes everything |
| PathRules.UnderFromRoot | ember_armor/ledger/paths.py:362-368 | a pattern that does not end in such a class and covers `/` covers every absolute path |
| PathRules.RootInsideSlashClass | ember_armor/ledger/implies.py:44-63 | `/` and `**/[!a]` do not meet that condition |
| PathRules.JoinSplit | ember_armor/ledger/engine.py:333-349 | splitting a path at its slashes and joining the segments gives the path back |
| PathRules.WithinIsUnder | ember_armor/ledger/engine.py:333-349 | a directory that spares a path below the working directory also contains it |
| PathRules.SparedToo | ember_armor/ledger/engine.py:352-384 | a table that names at least the siblings of another spares every path the other spares |
| PathRules.PathImpliesIsSound | ember_armor/ledger/implies.py:111-166 | every literal path that `_path_holds` accepts for `a` it accepts for `b`, through every field, whenever lint says that `a` implies `b` |
| PathLaws.FieldsApart | ember_armor/ledger/engine.py:387-427 | a path is accepted exactly if it is accepted by each field of the predicate alone |
| PathLaws.OperationsApart | ember_armor/ledger/engine.py:399-402 | predicates with different operations, or different recursion, accept no common path |
| PathLaws.ExceptionFields | ember_armor/ledger/engine.py:407-424 | a path under an excepted directory or matching an excepted pattern is never accepted |
| PathLaws.WithinField | ember_armor/ledger/engine.py:333-349 | an exception for directories below the working directory spares exactly the paths below a match that is itself below it |
| PathLaws.SparedIsBeside | ember_armor/ledger/engine.py:352-384 | a path that is spared has a sibling from the table that the call touches in the same way |
| PathLaws.BesideIsSpared | ember_armor/ledger/engine.py:352-384 | and each such path is spared |
| PathLaws.ExpandsToAName | ember_armor/ledger/paths.py:339-360 | an operand with wildcards is taken for a pattern it does not match as it stands only if some name fits the operand and the last segment of the pattern, each in its place |
| PathLaws.NamesExpand | ember_armor/ledger/paths.py:339-360 | and each such name makes it be taken |
| ImplicationLaws.PlainInsideExactly | ember_armor/ledger/implies.py:44-63 | lint finds a plain directory inside another pattern exactly when it lies under it |
| ImplicationLaws.AnywhereInsideExactly | ember_armor/ledger/implies.py:44-63 | and a directory anywhere inside a pattern anywhere exactly when what stands behind the stars lies under it |
| ImplicationLaws.RelaxedPathsAreImplied | ember_armor/ledger/implies.py:111-166 | lint sees that a predicate with conditions left out, alternatives added and exceptions dropped is implied |
| CommandRules.OperandPositions | ember_armor/ledger/shell/argv.py:67-103 | the loop finds the operands its recursive description names, in ascending order and inside the command |
| CommandRules.TailGrows | ember_armor/ledger/engine.py:247-290 | a shorter subcommand leaves a longer argument tail that ends with the shorter one |
| CommandRules.FlagsImplied | ember_armor/ledger/implies.py:86-94 | the flag fields of the implied predicate hold of every command the other accepts |
| CommandRules.CommandImpliesIsSound | ember_armor/ledger/implies.py:73-108 | every simple command that `_command_matches` accepts for `a` it accepts for `b`, with case folding by shell and flavour, subcommand prefixes, flags and argument patterns |
| FlagLaws.NothingBehindDashes | ember_armor/ledger/shell/argv.py:34-39 | nothing behind a bare `--` counts as a flag |
| FlagLaws.OrderDoesNotMatter | ember_armor/ledger/shell/argv.py:42-64 | neither the order of the options nor how often one is given changes the answer |
| FlagLaws.OperandsAreNoFlags | ember_armor/ledger/shell/argv.py:42-64 | an operand carries no flag |
| FlagLaws.ClustersComeApart | ember_armor/ledger/shell/argv.py:61-63 | a cluster such as `-xyz` can be split into its letters without changing the answer for any short flag |
| FlagLaws.ValuesCarryNames | ember_armor/ledger/shell/argv.py:58-60 | `--name=value` carries `--name` and no other long flag |
| FlagLaws.SlashesCountOnce | ember_armor/ledger/shell/argv.py:52-57 | two slashes in front of a flag are as good as one |
| FlagLaws.ParametersMayBeShort | ember_armor/ledger/shell/argv.py:45-51 | a cmdlet takes any beginning of a parameter |
| FlagLaws.ValuesBehindColons | ember_armor/ledger/shell/argv.py:45-51 | and a value behind a colon changes nothing |
| FlagLaws.OperandsOfValueFlag | ember_armor/ledger/shell/argv.py:88-103 | the word behind a flag that takes a value is no operand |
| FlagLaws.OperandsBehindDashes | ember_armor/ledger/shell/argv.py:88-103 | everything behind a bare `--` is one |
| FlagLaws.FieldsApart | ember_armor/ledger/engine.py:247-290 | a command is accepted exactly if it is accepted by each field alone, the argument fields together with the subcommand |
| FlagLaws.ArgumentsFollow | ember_armor/ledger/engine.py:262-290 | the arguments that are looked at are those behind the words of the subcommand |
| ImplicationLaws.RelaxedCommandsAreImplied | ember_armor/ledger/implies.py:73-108 | lint sees that a command predicate with less asked for is implied, in any letter case where case does not count |
| Arguments.SumOf | ember_armor/ledger/engine.py:496-504 | the loop adds exact numbers and gives up at the first argument that is none |
| ArgumentLaws.ComparedOrNot | ember_armor/ledger/engine.py:477-493 | of a comparison with a number and its converse exactly one holds of a number, and neither order holds of anything else |
| ArgumentLaws.SpelledNumbersCompare | ember_armor/ledger/engine.py:477-493 | a text that spells a number compares as that number |
| ArgumentLaws.OneOfTheValues | ember_armor/ledger/engine.py:477-493 | one of several values holds exactly if one of them alone does |
| ArgumentLaws.SameExactly | ember_armor/ledger/engine.py:477-493 | truth values are the numbers 0 and 1 and nothing else is confused |
| ArgumentLaws.OneAddend | ember_armor/ledger/engine.py:496-504 | a condition on one number is a sum with one addend |
| ArgumentLaws.AddendsChangePlaces | ember_armor/ledger/engine.py:496-504 | the order of the addends does not matter |
| ArgumentLaws.SumsScale | ember_armor/ledger/engine.py:496-504 | a condition may be multiplied by a positive number |
| Views.NarrowSeesLess | ember_armor/ledger/lint.py:347-386 | `_sees_less` is right: for every call, shell or file, a rule with the narrow scope sees nothing a rule with the wide one does not |
| ImplicationLaws.RelaxedScopesSeeMore | ember_armor/ledger/lint.py:347-386 | lint sees that a scope whose parts hold those of another sees at least as much |
| Views.PathsCarryExactly | ember_armor/ledger/lint.py:415-420 | for any two path predicates: where the first holds in a narrower scope the second holds in a wider one, for all calls and scopes, if and only if no call can touch a path the first means together with siblings that spare all the second means |
| Views.ImpliedNeverEscapes | ember_armor/ledger/lint.py:415-420 | a predicate that lint finds implied by another meets that condition when it cannot be spared on its own |
| Views.NoSiblingsNeverSpared | ember_armor/ledger/engine.py:352-384 | a predicate without `spared_beside` entries meets that condition |
| Views.BinsCanBeSpared | ember_armor/ledger/engine.py:352-384 | a predicate with the built-in entry for `bin` beside `obj` does not |
| ViewsAgree.ViewsAreOne | ember_armor/ledger/engine.py:673-748 | the part of a call that lies in a scope is the same in the description by patterns and in the one the ledger is judged with |
| ViewLaws.InsideExactly | ember_armor/ledger/engine.py:634-670 | a directory is inside a scope exactly if it is inside the scope of one of its directories, of none of its exceptions, and of one of its repositories, each alone; only an unknown repository leaves that open |
| ViewLaws.ShellViewExactly | ember_armor/ledger/engine.py:673-748 | a scoped rule sees exactly the commands and paths of a shell call that are inside |
| ViewLaws.FileViewExactly | ember_armor/ledger/engine.py:694-733 | a call of a file tool is seen as a whole by its directory, and of it by repository the paths that lie in one, or without any path its directory |
| LintModel.Model.Argument | ember_armor/ledger/lint.py:211-233 | the term of an argument predicate, with an equality atom for each constant it is compared with as a value |
| LintModel.Model.Sum | ember_armor/ledger/lint.py:235-240 | the term of linear arithmetic over arguments |
| LintModel.Model.Encode | ember_armor/ledger/lint.py:242-271 | encoding adds atoms only, keeps the tables free of duplicates and gives the term of the predicate over them, with atoms of its own for each scope |
| LintModel.Model.Scope | ember_armor/ledger/lint.py:273-298 | tools, and directories or repositories as a choice of atoms, or their combination as one atom |
| LintModel.Model.EncaseAll | ember_armor/ledger/lint.py:429-445 | the case of every rule of a ledger, its terms unchanged by the rules that come after it |
| LintModel.Model.Axioms | ember_armor/ledger/lint.py:301-423 | the axioms about areas, tools, arguments, commands, paths and directories: for each table the ones about single atoms and about ordered pairs of different atoms, and nothing else |
| Lint.EncodedStays | ember_armor/ledger/lint.py:183-186 | a term that was built earlier is still the term of its predicate when more atoms were numbered |
| Lint.CaseStays | ember_armor/ledger/lint.py:439-445 | and so are the scope and the condition of a rule |
| Findings.DynamicAgreesExactly | ember_armor/ledger/lint.py:262-266 | `dynamic_shell` and its atoms agree if and only if a marked call has a kind lint knows, when the rule names none |
| Findings.ArgumentAgrees | ember_armor/ledger/lint.py:211-233 | the term of an argument predicate says what `_arg_holds` computes, for missing values, texts, truth values and exact numbers |
| Findings.SumAgrees | ember_armor/ledger/lint.py:235-240 | the term of a sum says what `_expr_holds` computes |
| Findings.EncodingAgrees | ember_armor/ledger/lint.py:242-271 | on the valuation a call induces, the term of a predicate has the value `_holds` computes on what the rule sees |
| Findings.ScopeAgrees | ember_armor/ledger/lint.py:273-298 | the term of a scope is true of exactly the calls it covers |
| Findings.FiresAgrees | ember_armor/ledger/lint.py:439-445 | so the term of a rule is true of exactly the calls it fires on |
| Findings.AxiomsTrue | ember_armor/ledger/lint.py:301-423 | every call satisfies every axiom: of areas, tools, arguments, commands, paths and directories |
| LintFinds.AxiomsExactly | ember_armor/ledger/lint.py:301-423 | a description satisfies the axioms if and only if it obeys, entry by entry and pair by pair, what is certain of each table |
| LintFinds.FindingsExactly | ember_armor/ledger/lint.py:447-480 | a rule is found dead, or covering another, if and only if these conditions rule the opposite out |
| LintFinds.ImpliedCommandsAreFound | ember_armor/ledger/lint.py:405-414 | every rule on a command that implies another such rule in the same or no scope is found to be shadowed by it |
| LintFinds.ImpliedPathsAreFound | ember_armor/ledger/lint.py:415-420 | and every rule on a path |
| LintFinds.CommandsOfOtherToolsAreFoundDead | ember_armor/ledger/lint.py:301-345 | a rule on the commands of a tool that carries none is found dead |
| Findings.DeadRulesNeverFire | ember_armor/ledger/lint.py:459-475 | a rule reported as dead fires on no call |
| Findings.BlanketRulesAlwaysFire | ember_armor/ledger/lint.py:467-480 | a rule reported as blanket fires on every call in its scope |
| Findings.CoveringRulesFireToo | ember_armor/ledger/lint.py:455-457 | when `_covers(a, b)`, `a` fires on every call `b` fires on |
| Shadows.ShadowingOf | ember_armor/ledger/lint.py:487-500 | the loop finds the rules that make one redundant: at least as severe, alive, covering it, and earlier when the two are equivalent |
| Shadows.Run | ember_armor/ledger/lint.py:459-485 | the loop over the ledger reports exactly the dead and the shadowed rules that are not built in |
| Shadows.ARuleIsKept | ember_armor/ledger/lint.py:487-510 | dropping all dead and all shadowed rules at once weakens no decision: of the rules that fire on a call one that is kept is at least as severe |
| Shadows.NothingSuperfluousIsKept | ember_armor/ledger/lint.py:487-510 | of the rules that are kept none is dead and none covers another that is no more severe, and built-in rules are never dropped |
| LintLimits.ToolsAreRightExactly | ember_armor/ledger/lint.py:301-328 | a call of a shell tool satisfies what lint knows about shell tools if and only if the user lists tools, or a listed or named tool matches its name as it is spelled |
| LintLimits.OtherCaseIsNotShadowed | ember_armor/ledger/lint.py:301-328 | for a shell tool in another letter case lint reports a rule as shadowed that fires alone |
| LintLimits.BashIsNotShadowed | ember_armor/ledger/facts.py:47-54 | a concrete world, call and pair of rules: the call is of a tool named `bash` |
| LintLimits.UnrelatedScopesAreTrusted | ember_armor/ledger/lint.py:415-420 | a predicate that can be spared beside an unrelated one in another scope leaves the findings sound |
| LintLimits.SparedRuleIsNotShadowed | ember_armor/ledger/lint.py:405-423 | for every path predicate that can be spared, lint reports the rule for one directory as shadowed by the rule for all, and on some call it fires alone |
| Cores.Core | ember_armor/ledger/lint.py:580-597 | given an exact oracle the deletion loop returns a set that is unsatisfiable and from which no mark can be dropped, and nothing when a call is allowed or a reported set explains the scope |
| Cores.ReportedSetsDenyEveryCall | ember_armor/ledger/lint.py:533-578 | every call in the scope is denied by a rule of a reported set |
| Cores.EachRuleIsNeeded | ember_armor/ledger/lint.py:580-597 | for each rule of an irreducible set the axioms leave a description of a call that only this rule denies |
| Cores.CoreIsAContradiction | ember_armor/ledger/lint.py:533-597 | for a solver that answers what the encoded rules say, every irreducible set denies every call in its scope, and each of its rules is needed |
| Cores.Contradictions | ember_armor/ledger/lint.py:533-578 | the loop over all scopes: each reported set is such a contradiction, and a scope without one has an allowed call, is empty or is explained by a reported set |
| AuditStore.AuditLog.LinkNext | ember_armor/ledger/audit.py:329-349 | reading the files backwards gives the hash of the last entry, or `head` when the last line is an entry |
| AuditStore.AuditLog.AppendEntry | ember_armor/ledger/audit.py:351-401 | an append adds its entry behind all others, whatever the clock says, and leaves `head` at its hash and the marker at the file's size |
| AuditStore.AuditLog.Verify | ember_armor/ledger/audit.py:415-444 | the nested loops report exactly the lines that are no entry, do not link or were modified, and a head that differs |
| Audit.VerifyAccepts | ember_armor/ledger/audit.py:415-444 | nothing is reported if and only if all lines form one chain and `head`, when present, is the hash of the last one |
| Audit.HeadFixesHistory | ember_armor/ledger/audit.py:186-195 | two logs that both pass and have the same head hold the same entries in the same order, however they are spread over files |
| Audit.FastIsSlow | ember_armor/ledger/audit.py:287-306 | in every log appends built, the marker gives the same link as reading the files |
| Audit.AppendBuilds | ember_armor/ledger/audit.py:351-401 | an append to such a log leaves such a log, with one entry more at the end |
| Audit.EveryRunVerifies | ember_armor/ledger/audit.py:351-401 | any run of appends from an empty directory, with months going forward or back, passes `verify` and holds what was appended in that order |
| Audit.MarkerMisses | ember_armor/ledger/audit.py:372-379 | after a truncation the marker never matches what is left of the newest file |
| Audit.TruncationStaysVisible | ember_armor/ledger/audit.py:329-349 | after entries were removed from the end `verify` fails, and still fails after any further appends in any months |
| Audit.AppendHidesExactly | ember_armor/ledger/audit.py:329-349 | a failing log passes after one more append if and only if its entries are chained and either the marker matches and names the last one, or the marker does not match and `head` is an empty file |
| Audit.EmptyHeadHides | ember_armor/ledger/audit.py:329-349 | every truncation of a built log whose `head` is left empty fails `verify`, and any append hides it |
| Audit.EmptyHeadHappens | ember_armor/ledger/audit.py:322-349 | two appends, the second cut off and `head` emptied: a log that fails and passes after a third |
| AuditLaws.EntriesGoToTheLatestMonth | ember_armor/ledger/audit.py:364-371 | in every run of appends each entry goes to the file of the latest month any clock has shown so far |
| AuditLaws.MarkerServesTheMonth | ember_armor/ledger/audit.py:372-401 | behind an append the marker is believed until the month changes, and no longer |
| AuditLaws.LinkExactly | ember_armor/ledger/audit.py:329-349 | for any files: reading picks the recorded head behind an entry or in an empty log, and the last line otherwise |
| AuditLaws.DamageIsFixed | ember_armor/ledger/audit.py:219-222 | replacing a damaged line by another one breaks the entry behind it |
| AuditLaws.FileListedExactly | ember_armor/ledger/audit.py:415-444 | a file is reported on line by line: each line that is no entry, does not follow or was modified, once, by kind and number and in order, and nothing else |
| AuditLaws.EveryFileIsListed | ember_armor/ledger/audit.py:415-444 | and so is the log, the first line of a file following the last line before it in whatever file |
| AuditLaws.AppendKeepsTheReports | ember_armor/ledger/audit.py:351-444 | an append to any log, however damaged, keeps every report on its lines, makes the head right, and is itself reported exactly if it was linked to something else than the line before it |
| Reminders.Compose | ember_armor/ledger/remind.py:157-197 | the loop quotes the rules that fit, strongest effect first, with the count of the others and the closing sentence |
| Reminders.SeverityCount | ember_armor/ledger/remind.py:177-178 | ordering by effect loses and adds no rule |
| Reminders.StrongestFirst | ember_armor/ledger/remind.py:177-178 | the order is by falling severity, and rules of one effect stay in the order they came in |
| Reminders.RemindersFit | ember_armor/ledger/remind.py:166-170 | at most `most` rules are quoted, each confirmed and whole, and text, count line and closing sentence keep to the limit: the final cut never cuts |
| ReminderLaws.ReminderReadsBack | ember_armor/ledger/remind.py:151-197 | split into lines a reminder is the quoted rules in their order, then, exactly if rules are left out, a line that begins with their number, and the closing sentence |
| ReminderLaws.QuotedExactlyIfItFits | ember_armor/ledger/remind.py:179-186 | a rule is quoted exactly if fewer than `most` are before it and it fits behind those that are |
| ReminderLaws.ReservedIsNeeded | ember_armor/ledger/remind.py:179-180 | no more room is set aside than a reminder takes that counts every rule |
| Reminders.RemindedWithin | ember_armor/ledger/remind.py:200-228 | the loop over the log holds the keys reminded inside the window since the last start that made the agent forget |
| Reminders.Remind | ember_armor/ledger/remind.py:231-279 | what is quoted, that a text is sent exactly when a rule is quoted, and that every fired rule is quoted, recent, left out or unconfirmed |
| Reminders.Limited | ember_armor/ledger/remind.py:282-300 | the replay quotes what is not busy in memory and notes the time of each quoted key |
| ReminderRuns.HeldExactly | ember_armor/ledger/remind.py:200-228 | in every session a key is held back if and only if an earlier call quoted it, nothing was forgotten since, and its logged time is inside the window |
| ReminderRuns.RemindersKeepApart | ember_armor/ledger/remind.py:200-279 | two reminders of one key without a forgetting start between them are a whole interval apart, counted from the logged time of the first: less than a millisecond short by the real clock |
| ReminderRuns.ReplayCountsReminders | ember_armor/ledger/remind.py:282-300 | call by call the replay quotes what the gate quotes from its log, for sessions without a forgetting start in which cutting times to the millisecond moves no call over an edge of the window |
| ReminderRuns.WholeMillisecondsAreClear | ember_armor/ledger/audit.py:366 | times to the whole millisecond always meet that condition |
| ReminderRuns.TwoCallsExactly | ember_armor/ledger/remind.py:226 | for the same rule at any two times, the gate quotes again exactly when the logged time is out of the window, the replay exactly when the real one is |
| ReminderRuns.ReminderComesEarly | ember_armor/ledger/remind.py:226 | two reminders of one rule that are less than the interval apart |
| Breaker.CircuitBreaker.CheckState | ember_armor/core/circuit_breaker.py:132-145 | an open circuit becomes half open exactly when more than the recovery time has passed since the last failure |
| Breaker.CircuitBreaker.Begin | ember_armor/core/circuit_breaker.py:110-120 | a call is admitted exactly when the circuit is not open after that check |
| Breaker.CircuitBreaker.RecordSuccess | ember_armor/core/circuit_breaker.py:147-155 | a success closes a half-open circuit and forgets its failures, and changes nothing otherwise |
| Breaker.CircuitBreaker.RecordFailure | ember_armor/core/circuit_breaker.py:157-179 | a failure is stored, the window pruned, and the circuit opened when the threshold is reached |
| Breaker.CircuitBreaker.PruneWindow | ember_armor/core/circuit_breaker.py:181-192 | the loop keeps exactly the failures that are not older than the window, in order |
| Breaker.CircuitBreaker.FailureCount | ember_armor/core/circuit_breaker.py:204-208 | counting prunes first |
| Breaker.FailuresCountRight | ember_armor/core/circuit_breaker.py:157-192 | in every interleaving with a clock that is not set back, the list at a failure is all failures since the circuit last closed that lie in the window, and the breaker trips exactly when they reach the threshold |
| Breaker.CountsAreRight | ember_armor/core/circuit_breaker.py:204-208 | an observer counts exactly those failures |
| Breaker.ClosedMeansFew | ember_armor/core/circuit_breaker.py:157-179 | a closed circuit stores fewer failures than the threshold, whatever the clock does |
| Breaker.AdmittedAgainExactly | ember_armor/core/circuit_breaker.py:132-145 | a tripped circuit admits a call again exactly when the recovery time has passed since the last failure of any call, those in flight included |
| Breaker.TransitionsHaveOneCause | ember_armor/core/circuit_breaker.py:132-179 | only a failure opens the circuit, only the beginning of a call half opens it, and only a success closes it, whenever it finds it half open |
| Breaker.CountersTellTransitions | ember_armor/core/circuit_breaker.py:132-179 | in every run the counters of closings and recoveries are the numbers of these transitions |
| Breaker.TrialFailureMayStayHalfOpen | ember_armor/core/circuit_breaker.py:157-179 | a run in which the failing trial call leaves the circuit half open |
| Repositories.FindRoot | ember_armor/ledger/repo.py:57-102 | with a stable probe the memoised walk answers what a walk without memory answers, errors included, keeps every remembered answer right, and asks only about directories that were not remembered, each once |
| Repositories.Finder.Find | ember_armor/ledger/repo.py:105-121 | all lookups of one finder together ask about a directory once, and a failed lookup remembers nothing |
| Repositories.WalkEndsExactly | ember_armor/ledger/repo.py:27-34 | going up by `parent` comes to an end if and only if the path has a root |
| Repositories.ParentOfRooted | ember_armor/ledger/repo.py:27-34 | the parent of a path with a root has one and is shorter |
| Repositories.ParentTakesOffOneName | ember_armor/ledger/repo.py:27-34 | the parent is the path without its last name, and keeps the slash at the root and behind a drive |
| Repositories.NearestIsTheFirst | ember_armor/ledger/repo.py:57-102 | the root is the first directory on the way up that holds `.git`; there is none exactly if every one says no, and an error exactly if the first that does not say no cannot say |
| Repositories.DrivesAreRooted | ember_armor/ledger/repo.py:105-121 | a path on a drive has a root, and so have its parents, on the same drive |
| Evaluation.UnknownIsNeverAttributed | ember_armor/ledger/engine.py:713-733 | a command or path in an unknown directory is in no part a scoped rule is judged on, and in the part it might apply to |
| Evaluation.Evaluate | ember_armor/ledger/engine.py:1145-1170 | rules on unknown directories are judged after all others, with every unknown directory read as the call's own, and each on what was possible by then |
| JudgeLaws.ForbidIsRequireNot | ember_armor/ledger/engine.py:1090-1143 | a rule that forbids a condition and one that requires its opposite are judged alike, errors included |
| JudgeLaws.DeMorgan | ember_armor/ledger/engine.py:566-600 | the opposite of `all` is `any` of the opposites, and of `any` `all`, errors included |
| JudgeLaws.AllAndAny | ember_armor/ledger/engine.py:566-600 | without errors `all` is every one of them and `any` one of them |
| JudgeLaws.JudgesAgree | ember_armor/ledger/engine.py:1090-1143 | in worlds that interpret the atoms a rule fires in the description by names exactly if it fires in the one lint encodes |
| VerdictLaws.UnscopedJudged | ember_armor/ledger/engine.py:1090-1143 | without scope and exceptions a rule fires exactly when it is broken, for its tools only |
| VerdictLaws.BrokenWhereSeen | ember_armor/ledger/engine.py:1119-1143 | a rule that is broken in the part it sees fires, unless an exception holds, and fires with a report when the exception cannot be judged |
| VerdictLaws.KeptWhereSeen | ember_armor/ledger/engine.py:1101-1118 | otherwise it never fires, and it is named as possible exactly if it is broken in the part nobody can place |
| VerdictLaws.FirstIsNoted | ember_armor/ledger/engine.py:1145-1156 | every verdict is noted once, in the list it belongs to, in the order of the rules |
| Evaluation.FiredUnlessClash | ember_armor/ledger/engine.py:1145-1156 | without a clash, what fires is the sum of what each rule does on its own |
| LedgerOrder.OrderMattersExactly | ember_armor/ledger/engine.py:1145-1156 | some other order of the ledger fires other rules if and only if nothing else is possible, one deferred rule would make something possible and another one tells the difference |
| LedgerOrder.ClashHappens | ember_armor/ledger/engine.py:1109-1118 | a ledger of two such rules and a call on which the order decides whether one of them fires |
| LedgerOrder.OrderDoesNotMatter | ember_armor/ledger/engine.py:1034-1170 | every permutation of a ledger without a scoped `require` on unknown directories fires the same rules, as a multiset, with the same effect |
| LedgerGrowth.MoreRulesNeverLower | ember_armor/ledger/engine.py:1034-1170 | when the ledger has no `require` on unknown directories, more rules of any kind fire at least the same and never lower the effect |
| LedgerGrowth.MoreRulesKeepExactly | ember_armor/ledger/engine.py:1034-1170 | for rules with different reports: adding rules never loses a fired one, for all additions, calls and worlds in which what is known of a path does not depend on the rule that asks, if and only if no rule of the ledger requires unknown directories |
| LedgerGrowth.RequireCanBeSilenced | ember_armor/ledger/engine.py:1109-1118 | every such rule of every such ledger fires on some call and is lost when one rule is added |
| LedgerGrowth.RequireIsSilenced | ember_armor/ledger/engine.py:1145-1156 | for a ledger of one such rule, any rule that might apply somewhere takes the whole effect away |
| LedgerGrowth.DecisionCanFall | ember_armor/ledger/engine.py:1145-1156 | for every such rule there are such a rule, a call and such a world |
| LedgerOrder.EffectIsStrongest | ember_armor/ledger/engine.py:1161-1162 | fired rules come by falling severity, the effect is that of the strongest, and there is none exactly when nothing fired |
| LedgerOrder.UnseenIsAsked | ember_armor/ledger/engine.py:1109-1118 | when a rule would have fired where the gate cannot see, it is named as possible and the rule on unknown directories fires, as strongly as the ledger says |

## Left out

- Soundness.LabelsAreRight: one way only; a script that does not meet its conditions can still be labelled right, because a condition on one command does not say whether a later command is reached or moves back.
- Soundness.SteadyScriptsAreLabelledRight: one way for the same reason; GoingBack has the script that shows the condition on loops is needed.
- PathRules.PathImpliesIsSound: speaks of paths without wildcards and variables and of patterns that are absolute or begin with two stars; its condition on pairs of directories is exact for one pair (PathRules.InsideIsRightExactly), not for a whole predicate.
- ReminderRuns.ReplayCountsReminders: one way for a whole session; for two calls of one rule the condition is exact (ReminderRuns.TwoCallsExactly).
- Audit.TruncationStaysVisible: for logs that appends built, with `head` as the last append left it.
- ScriptRuns.RealScriptIsARun: for scripts whose conditions of loops and of `elif` hold no moves, and in which no unheard test stands before an `&&`. Both conditions are read off the text and go one way for whole scripts; each is exact for one family of scripts (MovingTests.MovingTestMisleadsExactly, UnheardTests.UnheardTestMisleadsExactly).
- ScriptRuns.RealScriptIsLabelledRight: one way, as the soundness theorem it rests on.
- Simulation.LabelsAreSimulated: one way; a script can be labelled throughout although one of its moves is a form the simulation does not read.
- Function definitions and calls in shell scripts (`defined` scopes, `movers`, `settled`, the count of moves), moves that fail, and `break` and `continue` other than where the shell is the one the round began with.
- `--` among the words of a move, and what Bash versions before 4.4 do with several operands of `pushd`.
- Which commands of a pipeline are moves of their own process: a piped move is a property of the parsed command.
- PowerShell and `cmd.exe`: drives, providers, `Set-Location`, and `Guards.tail`.
- UnheardTests.UnheardTestMisleadsExactly: exact for one `&&` behind any item, over all its outcomes and all second items; for whole lists AndOr.ListExplained goes one way, because an unheard test is harmless where its list has already noticed a command that can fail, or where the commands behind it have an open range to themselves.
- RealLists.RealListIsLabelledRight: one way, as the soundness theorem it rests on.
- Findings.AxiomsTrue: for plain calls (literal paths and directories, dynamic kinds lint knows) of tools lint can place, and where lint's conclusions about two patterns, scopes or path predicates can be believed; a condition is asked only of the pairs lint concludes something about. They are exact for the kinds of a call (Findings.DynamicAgreesExactly), the spelling of its tool (LintLimits.ToolsAreRightExactly), one pair of patterns (PathRules.InsideIsRightExactly) and one pair of path predicates over all scopes (Views.PathsCarryExactly); for one particular pair of scopes, and for a pattern inside a group of patterns, they go one way. The theorems of Findings, Cores and Shadows about calls speak of these.
- `case` and functions as items of a script; which ranges are recorded of a `case` is in Trees.EveryParseIsMarked, and what the ranges mean for runs in Soundness.LabelsAreRight.
- Pipelines and `!` as items of and-or lists: a plain item is commands and a test with one status.
- Frames of `Guards` are values in a sequence that is replaced, not objects of their own.
- Variables of a parse result (`assign`, `forget`, `choices`), names of functions and the list of dynamic constructs.
- The second tracker (`_Location`, `also`, `MAX_PLACES`), which lists possible paths, and `started`, which serves it.
- The option tables by which a command's own directory options are read: the model begins with the list of directories.
- Character-level lexers, regular expressions, redaction, JSON and rule validation.
- The Windows path flavour of globs, patterns with `~` or variables, patterns below the working directory, and the stand-ins lint uses for them.
- Path patterns with a `..` segment are marked as not comparable; how they are recognised is not modelled.
- Lint: arguments that are not finite, the rule on unknown directories, which scopes are asked about and in which order, the wording of findings, stale scopes and solver time-outs; what is asked of texts, variables and earlier calls is an atom nothing is known about, as there. The solver is an oracle that answers exactly.
- The audit log: file locks, crashes in the middle of a write, blank and unfinished lines, entries that are not UTF-8, and names of files that are no month.
- Reminders: cleaning and quoting of a rule's text (a rule carries its line), entries that cannot be read, the limit of the session history to the newest two files, and logs of several sessions in one file.
- The circuit breaker: log lines, the text of an error, health reports and the decorator.
- The repository walk: which errors of `lstat` mean that nothing is there.
- Judging: which exceptions apply to a call, creating repositories within a call, and the wording of errors; an exception is a function of the rule, the call and what is possible; rules named twice as possible stay named twice.
- The detector, the web service, tokens, the resident server, the command line, transcripts, model calls and the proxy addon.
