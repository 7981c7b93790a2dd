/**
  The words behind `cd`, `pushd` and `popd`, as the gate reads them (`_location_targets` in
  ember_armor/ledger/shellpaths.py), and what Bash does with the ones that rearrange its
  directory stack ("Directory Stack Builtins" of the Bash reference manual).
 */
module DirStacks {
  import opened Prelude
  import opened Paths

  /**
    `Flag` is `-L`, `-P`, `-e` or `-@`; `Stay` is `-n`; `Plus` and `Minus` count stack entries
    from the left and from the right of what `dirs` prints; `Strange` is any other option, or a
    sign without a number.  `Previous` is "-" and its other spellings.
   */
  datatype Word = Flag | Stay | Plus(n: nat) | Minus(n: nat) | Strange | Previous | Path(target: Target)

  // ---- as the gate reads them ---------------------------------------------------------

  /** An option the gate does not follow. */
  predicate Unclear(word: Word) { word.Stay? || word.Minus? || word.Strange? }

  function Operands(words: seq<Word>): seq<Word> {
    if words == [] then [] else Operands(Init(words)) + if Last(words).Flag? then [] else [Last(words)]
  }

  /** `_location_targets`: `None` when an option changes what the command does. */
  function Targets(words: seq<Word>): Option<seq<Word>> {
    if exists i :: 0 <= i < |words| && Unclear(words[i]) then None else Some(Operands(words))
  }

  method LocationTargets(words: seq<Word>) returns (targets: Option<seq<Word>>)
    ensures targets == Targets(words)
  {
    var found: seq<Word> := [];
    for i := 0 to |words|
      invariant forall j :: 0 <= j < i ==> !Unclear(words[j])
      invariant found == Operands(words[..i])
    {
      if Unclear(words[i]) { return None; }
      assert Init(words[..i + 1]) == words[..i] && Last(words[..i + 1]) == words[i];
      if !words[i].Flag? { found := found + [words[i]]; }
    }
    assert words[..|words|] == words;
    targets := Some(found);
  }

  // ---- as Bash reads them --------------------------------------------------------------

  predicate IsOperand(word: Word) { word.Previous? || word.Path? }

  /** The words before the first operand. */
  function Lead(words: seq<Word>): (lead: seq<Word>)
    ensures lead <= words && (forall i :: 0 <= i < |lead| ==> !IsOperand(lead[i]))
    ensures lead == words || IsOperand(words[|lead|])
  {
    if words == [] || IsOperand(words[0]) then [] else [words[0]] + Lead(words[1..])
  }

  predicate Counts(word: Word) { word.Plus? || word.Minus? }

  /** `pushd` and `popd` know `-n` and numbers only. */
  predicate Understood(words: seq<Word>) { forall i :: 0 <= i < |words| ==> words[i].Stay? || Counts(words[i]) }

  /** Of several numbers the last one counts. */
  function Number(words: seq<Word>): (number: Option<Word>)
    ensures number.Some? ==> number.value in words && Counts(number.value)
    ensures number.None? ==> forall i :: 0 <= i < |words| ==> !Counts(words[i])
  {
    if words == [] then None
    else if Counts(Last(words)) then Some(Last(words))
    else Number(Init(words))
  }

  /** The place in the list that `dirs` prints, which holds the directory and the stack of `n` behind it. */
  function Index(number: Word, n: nat): int
    requires Counts(number)
  {
    if number.Plus? then number.n else n - number.n
  }

  predicate InRange(words: seq<Word>, n: nat) {
    forall word :: word in words && Counts(word) ==> word.n <= n
  }

  /** Enough entries for every number of some words. */
  function Most(words: seq<Word>): (n: nat)
    ensures InRange(words, n)
  {
    if words == [] then 0
    else
      var n := Most(Init(words));
      assert words == Init(words) + [Last(words)];
      if Counts(Last(words)) && Last(words).n > n then Last(words).n else n
  }

  /** The stack with the directory on top, turned so that entry `k` of `dirs` comes to the top. */
  function Turned<T>(all: seq<T>, k: nat): (turned: seq<T>)
    requires k < |all|
    ensures |turned| == |all|
  {
    all[|all| - k..] + all[..|all| - k]
  }

  function Removed<T>(all: seq<T>, i: nat): seq<T>
    requires i < |all|
  {
    all[..i] + all[i + 1..]
  }

  // ---- what is known of a stack ------------------------------------------------------------

  predicate Agrees(known: Option<Dir>, d: Dir) { known.Some? ==> known.value == d }

  /** Entry `j` from the top. */
  function Below<T>(stack: seq<T>, j: nat): T
    requires j < |stack|
  {
    stack[|stack| - 1 - j]
  }

  /** Where the known stack and the real one both have an entry, counted from the top, they agree. */
  predicate StackMatches(known: seq<Option<Dir>>, held: seq<Dir>) {
    forall j: nat :: j < |known| && j < |held| ==> Agrees(Below(known, j), Below(held, j))
  }

  /** Nothing is known from entry `depth` on. */
  predicate Unheld(known: seq<Option<Dir>>, depth: nat) {
    forall j: nat :: depth <= j < |known| ==> Below(known, j).None?
  }

  lemma PushMatches(known: seq<Option<Dir>>, held: seq<Dir>, top: Option<Dir>, d: Dir)
    requires StackMatches(known, held) && Agrees(top, d)
    ensures StackMatches(known + [top], held + [d])
  {
    forall j: nat | j < |known| + 1 && j < |held| + 1
      ensures Agrees(Below(known + [top], j), Below(held + [d], j))
    {
      if j > 0 { assert Agrees(Below(known, j - 1), Below(held, j - 1)); }
    }
  }

  lemma PopMatches(known: seq<Option<Dir>>, held: seq<Dir>)
    requires StackMatches(known, held) && known != [] && held != []
    ensures Agrees(Last(known), Last(held)) && StackMatches(Init(known), Init(held))
  {
    assert Agrees(Below(known, 0), Below(held, 0));
    forall j: nat | j < |known| - 1 && j < |held| - 1 ensures Agrees(Below(Init(known), j), Below(Init(held), j)) {
      assert Agrees(Below(known, j + 1), Below(held, j + 1));
    }
  }

  lemma BottomGone(known: seq<Option<Dir>>, held: seq<Dir>)
    requires StackMatches(known, held) && held != []
    ensures StackMatches(known, held[1..])
  {
    forall j: nat | j < |known| && j < |held| - 1 ensures Agrees(Below(known, j), Below(held[1..], j)) {
      assert Agrees(Below(known, j), Below(held, j));
    }
  }

  /** Taking out an entry below everything that is known. */
  lemma DeepGone(known: seq<Option<Dir>>, held: seq<Dir>, depth: nat)
    requires StackMatches(known, held) && depth < |held| && Unheld(known, depth)
    ensures StackMatches(known, Removed(held, |held| - 1 - depth))
  {
    var left := Removed(held, |held| - 1 - depth);
    forall j: nat | j < |known| && j < |left| ensures Agrees(Below(known, j), Below(left, j)) {
      if j < depth { assert Agrees(Below(known, j), Below(held, j)); }
    }
  }

  /** `-0`: the entry at the bottom comes to the top. */
  lemma BottomUp(known: seq<Option<Dir>>, held: seq<Dir>, top: Option<Dir>, d: Dir)
    requires StackMatches(known, held) && Agrees(top, d)
    ensures StackMatches(known + [top], Init(Turned(held + [d], |held|)))
  {
    PushMatches(known, held, top, d);
    BottomGone(known + [top], held + [d]);
    assert Init(Turned(held + [d], |held|)) == (held + [d])[1..];
  }

  // ---- shells that show what is wrong ---------------------------------------------------------

  /** A stack of `n` entries that `known` describes, with `d` wherever nothing is known. */
  function Filled(known: seq<Option<Dir>>, n: nat, d: Dir): (held: seq<Dir>)
    ensures |held| == n && StackMatches(known, held)
    ensures forall j: nat :: j < n ==>
              Below(held, j) == if j < |known| && Below(known, j).Some? then Below(known, j).value else d
  {
    var held := seq(n, i requires 0 <= i < n =>
      if n - 1 - i < |known| && Below(known, n - 1 - i).Some? then Below(known, n - 1 - i).value else d);
    assert forall j: nat :: j < n ==>
              Below(held, j) == if j < |known| && Below(known, j).Some? then Below(known, j).value else d;
    held
  }

  function Other(d: Dir): (e: Dir) ensures e != d { d + [Name("x")] }

  /** The deepest entry that is known. */
  lemma Deepest(known: seq<Option<Dir>>, depth: nat) returns (j: nat)
    requires !Unheld(known, depth)
    ensures depth <= j < |known| && Below(known, j).Some? && Unheld(known, j + 1)
  {
    j :| depth <= j < |known| && Below(known, j).Some?;
    while !Unheld(known, j + 1)
      invariant depth <= j < |known| && Below(known, j).Some?
      decreases |known| - j
    {
      var k :| j + 1 <= k < |known| && Below(known, k).Some?;
      j := k;
    }
  }

  /** The first entry that is known. */
  lemma Shallowest(known: seq<Option<Dir>>) returns (j: nat)
    requires !Unheld(known, 0)
    ensures j < |known| && Below(known, j).Some? && forall k: nat :: k < j ==> Below(known, k).None?
  {
    j := 0;
    while Below(known, j).None?
      invariant j < |known| && forall k: nat :: k < j ==> Below(known, k).None?
      decreases |known| - j
    {
      j := j + 1;
      if j == |known| { assert false; }
    }
  }
}
