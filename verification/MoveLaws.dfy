/**
  Laws of paths, words and single moves (ember_armor/ledger/paths.py and shellpaths.py): which
  differences of two texts make no difference, and what a move does not forget.
 */
module MoveLaws {
  import opened Prelude
  import opened Paths
  import opened DirStacks
  import opened Moves
  import opened Scopes
  import Analysis
  import opened Simulation

  // ---- variables ---------------------------------------------------------------------------------

  type Values = map<string, seq<Segment>>

  /** A segment with a variable, when the variable has a value. */
  function Expand(rest: seq<Segment>, values: Values): seq<Segment>
    decreases rest
  {
    if rest == [] then []
    else
      (if rest[0].Open? && rest[0].text in values then values[rest[0].text] else [rest[0]]) +
      Expand(rest[1..], values)
  }

  predicate NoHere(path: seq<Segment>) { forall i :: 0 <= i < |path| ==> !path[i].Here? }

  lemma {:induction false} ExpandInTwo(a: seq<Segment>, b: seq<Segment>, values: Values)
    ensures Expand(a + b, values) == Expand(a, values) + Expand(b, values)
    decreases a
  {
    if a == [] {
      assert a + b == b;
    } else {
      assert (a + b)[1..] == a[1..] + b;
      ExpandInTwo(a[1..], b, values);
    }
  }

  lemma ExpandOne(s: Segment, values: Values)
    ensures Expand([s], values) == if s.Open? && s.text in values then values[s.text] else [s]
  {
    assert [s][1..] == [] && Expand([], values) == [];
  }

  lemma ResolveOne(base: seq<Segment>, s: Segment)
    ensures Resolve(base, [s]) == Push(base, s)
  {
    assert [s][1..] == [] && Resolve(Push(base, s), []) == Push(base, s);
  }

  /** One segment: what is taken back is taken back under every value. */
  lemma PushExpanded(base: seq<Segment>, s: Segment, values: Values)
    requires NoHere(base)
    ensures Resolve([], Expand(Push(base, s), values)) == Resolve([], Expand(base + [s], values))
    ensures NoHere(Push(base, s))
  {
    hide Expand;
    ExpandInTwo(base, [s], values);
    ExpandOne(s, values);
    match s
    case Here =>
      ResolveInTwo([], Expand(base, values), [Here]);
      ResolveOne(Resolve([], Expand(base, values)), Here);
    case Up =>
      if base == [] {
        assert Expand([], values) == [] by { ExpandNone(values); }
        ResolveOne([], Up);
      } else if !Last(base).Up? && !Last(base).Open? {
        var first, name := Init(base), Last(base);
        var front := Expand(first, values);
        assert base == first + [name];
        ExpandInTwo(first, [name], values);
        ExpandOne(name, values);
        ResolveInTwo([], front + [name], [Up]);
        ResolveInTwo([], front, [name]);
        ResolveOne(Resolve([], front), name);
        ResolveOne(Resolve([], front) + [name], Up);
      }
    case _ =>
  }

  lemma ExpandNone(values: Values) ensures Expand([], values) == [] {}

  /**
    A path may be normalised before its variables are known: whatever they turn out to stand
    for, the result is the same as if they had been filled in first.
   */
  lemma {:induction false} ValuesMayComeLater(base: seq<Segment>, rest: seq<Segment>, values: Values)
    requires NoHere(base)
    ensures Resolve([], Expand(Resolve(base, rest), values)) == Resolve([], Expand(base + rest, values))
    decreases rest
  {
    hide Expand;
    if rest == [] {
      assert base + rest == base;
    } else {
      var s, more := rest[0], rest[1..];
      PushExpanded(base, s, values);
      ValuesMayComeLater(Push(base, s), more, values);
      SameSoFar(Push(base, s), base + [s], more, values);
      assert base + [s] + more == base + rest;
    }
  }

  lemma SameSoFar(a: seq<Segment>, b: seq<Segment>, more: seq<Segment>, values: Values)
    requires Resolve([], Expand(a, values)) == Resolve([], Expand(b, values))
    ensures Resolve([], Expand(a + more, values)) == Resolve([], Expand(b + more, values))
  {
    hide Expand, Resolve;
    ExpandInTwo(a, more, values);
    ExpandInTwo(b, more, values);
    ResolveInTwo([], Expand(a, values), Expand(more, values));
    ResolveInTwo([], Expand(b, values), Expand(more, values));
  }

  // ---- words --------------------------------------------------------------------------------------

  lemma {:induction false} OperandsInTwo(a: seq<Word>, b: seq<Word>)
    ensures Operands(a + b) == Operands(a) + Operands(b)
    decreases b
  {
    if b == [] {
      assert a + b == a;
    } else {
      assert Init(a + b) == a + Init(b) && Last(a + b) == Last(b);
      OperandsInTwo(a, Init(b));
    }
  }

  lemma OperandsOne(word: Word)
    ensures Operands([word]) == if word.Flag? then [] else [word]
  {
    assert Init([word]) == [] && Operands([]) == [];
  }

  /** A flag that says how links are followed makes no difference, wherever it stands. */
  lemma FlagsMakeNoDifference(a: seq<Word>, b: seq<Word>)
    ensures Targets(a + [Flag] + b) == Targets(a + b)
    ensures forall verb, w, home :: Moved(verb, a + [Flag] + b, w, home) == Moved(verb, a + b, w, home)
  {
    hide Operands;
    var words, less := a + [Flag] + b, a + b;
    OperandsInTwo(a + [Flag], b);
    OperandsInTwo(a, [Flag]);
    OperandsInTwo(a, b);
    OperandsOne(Flag);
    assert Operands(a) + [] == Operands(a);
    if i :| 0 <= i < |words| && Unclear(words[i]) { assert less[if i < |a| then i else i - 1] == words[i]; }
    if i :| 0 <= i < |less| && Unclear(less[i]) { assert words[if i < |a| then i else i + 1] == less[i]; }
    assert Targets(words) == Targets(less);
    hide Targets;
  }

  /** Every other word is an operand, in its place. */
  lemma OthersAreTargets(a: seq<Word>, word: Word, b: seq<Word>)
    requires !word.Flag? && !Unclear(word)
    ensures Targets(a + [word] + b) ==
            if Targets(a).Some? && Targets(b).Some? then Some(Targets(a).value + [word] + Targets(b).value) else None
  {
    var words := a + [word] + b;
    OperandsInTwo(a + [word], b);
    OperandsInTwo(a, [word]);
    OperandsOne(word);
    if i :| 0 <= i < |a| && Unclear(a[i]) { assert words[i] == a[i]; }
    if i :| 0 <= i < |b| && Unclear(b[i]) { assert words[|a| + 1 + i] == b[i]; }
    if i :| 0 <= i < |words| && Unclear(words[i]) {
      if i < |a| { assert a[i] == words[i]; } else if i > |a| { assert b[i - |a| - 1] == words[i]; }
    }
  }

  // ---- what a move leaves alone ----------------------------------------------------------------------

  /** A move in a pipe touches no stack: a `popd` behind it goes where the top of the stack says. */
  lemma PipesLeaveTheStack(verb: Verb, words: seq<Word>, w: Place, home: Option<Dir>)
    requires w.stack != []
    ensures Step(Move(Popd, [], false), Step(Move(verb, words, true), w, home), home).current == Last(w.stack)
  {
    assert Operands([]) == [] && Targets([]) == Some([]);
  }

  lemma ChangesOnly(words: seq<Word>, w: Place, home: Option<Dir>)
    ensures Moved(Cd, words, w, home).stack == w.stack && Moved(Cd, words, w, home).previous == w.current
  {
    hide Targets, Directory;
  }

  lemma GoesBack(w: Place, home: Option<Dir>)
    ensures Moved(Cd, [Previous], w, home).current == w.previous
  {
    OperandsOne(Previous);
    assert Targets([Previous]) == Some([Previous]);
  }

  /** `cd` keeps the stack, and `cd -` behind it comes back. */
  lemma ThereAndBack(words: seq<Word>, w: Place, home: Option<Dir>)
    ensures var there := Moved(Cd, words, w, home);
            there.stack == w.stack && Moved(Cd, [Previous], there, home).current == w.current
  {
    hide Moved;
    ChangesOnly(words, w, home);
    GoesBack(Moved(Cd, words, w, home), home);
  }

  // ---- where a command runs -----------------------------------------------------------------------------

  lemma {:induction false} LandingInTwo(a: seq<Target>, b: seq<Target>, d: Dir)
    requires PlainChain(a) && PlainChain(b)
    ensures PlainChain(a + b) && Landing(a + b, d) == Landing(b, Landing(a, d))
    decreases a
  {
    if a == [] {
      assert a + b == b;
    } else {
      assert (a + b)[0] == a[0] && (a + b)[1..] == a[1..] + b;
      ResolveClean(if a[0].absolute then [] else d, a[0].segments);
      LandingInTwo(a[1..], b, Found(a[0], d));
    }
  }

  /**
    A command whose wrappers and directory options can all be read is named a directory from
    every known one, it is the only one it may run in, and the file names of `find` matter only
    together with a directory option.
   */
  lemma ReadableCommandsAreNamed(c: Command, d: Dir, actual: Dir)
    requires c.Run? ==> PlainChain(c.chdir) && c.options.Some? && PlainChain(c.options.value) &&
                        (c.options.value == [] || !c.placed)
    ensures RunsIn(c, Some(d)).Some?
    ensures MayRunIn(c, d, actual) <==> RunsIn(c, Some(d)) == Some(actual)
  {
    if c.Run? {
      var chdir, options := c.chdir, c.options.value;
      LandingInTwo(chdir, options, d);
      FollowPlain(chdir, d);
      FollowPlain(options, Landing(chdir, d));
      FollowPlain(chdir + options, d);
      if LandsBy(chdir + options, d, actual) { PlainLanding(chdir + options, d, actual); }
    }
  }

  lemma {:induction false} PlainLanding(chain: seq<Target>, d: Dir, actual: Dir)
    requires PlainChain(chain) && LandsBy(chain, d, actual)
    ensures actual == Landing(chain, d)
    decreases chain
  {
    if chain != [] {
      var mid: Dir :| Lands(chain[0], d, mid) && LandsBy(chain[1..], mid, actual);
      PlainLanding(chain[1..], mid, actual);
    }
  }
}
