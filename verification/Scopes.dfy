/**
  The flat result of a shell parse and the order in which its scopes open:
  `ParseResult` (ember_armor/ledger/shell/core.py) and `_Tracker.__init__`
  (ember_armor/ledger/shellpaths.py).
 */
module Scopes {
  import opened Prelude
  import opened Paths
  import opened Moves

  /** How a guarded scope runs.  A scope without a guard is a process of its own, or
      runs in the shell itself (`kept`). */
  datatype Guard = Maybe | Loop

  type Range = (nat, nat)

  datatype Parsed = Parsed(
    commands: seq<Command>,
    scopes: seq<Range>,
    guards: map<nat, Guard>,
    kept: set<nat>,
    entered: map<nat, seq<Target>>)

  predicate Inside(a: Range, b: Range) { b.0 <= a.0 && a.1 <= b.1 }

  /** Scopes are numbered when they close: an earlier one ends before a later one
      begins, or lies inside it.  In particular any two are disjoint or nested, and of two
      equal ranges the later one is the outer one. */
  predicate PostOrder(scopes: seq<Range>) {
    forall a, b :: 0 <= a < b < |scopes| ==> scopes[a].1 <= scopes[b].0 || Inside(scopes[a], scopes[b])
  }

  predicate Valid(p: Parsed) {
    PostOrder(p.scopes) &&
    forall n :: 0 <= n < |p.scopes| ==> p.scopes[n].0 <= p.scopes[n].1 <= |p.commands|
  }

  // ---- opening ---------------------------------------------------------------

  /** An entry of `opening`: where the scope ends, and its number. */
  type Entry = (nat, nat)

  predicate Before(a: Entry, b: Entry) { a.0 > b.0 || (a.0 == b.0 && a.1 > b.1) }

  predicate Descending(s: seq<Entry>) { forall q, r :: 0 <= q < r < |s| ==> Before(s[q], s[r]) }

  function Insert(x: Entry, s: seq<Entry>): seq<Entry> {
    if s == [] || Before(x, s[0]) then [x] + s else [s[0]] + Insert(x, s[1..])
  }

  function Sort(s: seq<Entry>): seq<Entry> {
    if s == [] then [] else Insert(Last(s), Sort(Init(s)))
  }

  /** The scopes that begin at `low`, among the first `n`, as they are found. */
  function Listed(scopes: seq<Range>, low: nat, n: nat): seq<Entry>
    requires n <= |scopes|
  {
    if n == 0 then []
    else
      var rest := Listed(scopes, low, n - 1);
      if scopes[n - 1].0 == low && scopes[n - 1].1 > low then rest + [(scopes[n - 1].1, n - 1)] else rest
  }

  function Opening(scopes: seq<Range>, low: nat): seq<Entry> { Sort(Listed(scopes, low, |scopes|)) }

  lemma {:induction false} InsertFacts(x: Entry, s: seq<Entry>)
    requires Descending(s) && forall q :: 0 <= q < |s| ==> s[q].1 != x.1
    ensures Descending(Insert(x, s)) && |Insert(x, s)| == |s| + 1
    ensures forall e :: e in Insert(x, s) <==> e == x || e in s
  {
    if s != [] && !Before(x, s[0]) {
      InsertFacts(x, s[1..]);
      var r := Insert(x, s[1..]);
      assert forall e :: e in s <==> e == s[0] || e in s[1..];
      forall q | 0 <= q < |r| ensures Before(s[0], r[q]) {
        assert r[q] in r;
        if r[q] != x { assert r[q] in s[1..]; }
      }
    }
  }

  lemma {:induction false} SortFacts(s: seq<Entry>)
    requires forall q, r :: 0 <= q < r < |s| ==> s[q].1 != s[r].1
    ensures Descending(Sort(s)) && |Sort(s)| == |s|
    ensures forall e :: e in Sort(s) <==> e in s
  {
    if s != [] {
      SortFacts(Init(s));
      var sorted := Sort(Init(s));
      forall q | 0 <= q < |sorted| ensures sorted[q].1 != Last(s).1 {
        assert sorted[q] in Init(s);
      }
      InsertFacts(Last(s), sorted);
      assert s == Init(s) + [Last(s)];
    }
  }

  /** The entry of a scope that begins at `low` and holds a command. */
  predicate Begins(scopes: seq<Range>, low: nat, e: Entry) {
    e.1 < |scopes| && scopes[e.1] == (low, e.0) && e.0 > low
  }

  lemma {:induction false} ListedFacts(scopes: seq<Range>, low: nat, n: nat)
    requires n <= |scopes|
    ensures forall q :: 0 <= q < |Listed(scopes, low, n)| ==>
              Listed(scopes, low, n)[q].1 < n && Begins(scopes, low, Listed(scopes, low, n)[q])
    ensures forall q, r :: 0 <= q < r < |Listed(scopes, low, n)| ==>
              Listed(scopes, low, n)[q].1 < Listed(scopes, low, n)[r].1
  {
    if n > 0 { ListedFacts(scopes, low, n - 1); }
  }

  lemma {:induction false} ListedAll(scopes: seq<Range>, low: nat, n: nat, e: Entry)
    requires n <= |scopes| && e.1 < n && Begins(scopes, low, e)
    ensures e in Listed(scopes, low, n)
  {
    if e.1 == n - 1 {
      assert e == (scopes[n - 1].1, n - 1);
    } else {
      ListedAll(scopes, low, n - 1, e);
    }
  }

  /** `opening[low]` holds exactly the scopes with commands that begin at `low`, the outer
      one first. */
  lemma OpeningFacts(scopes: seq<Range>, low: nat)
    ensures Descending(Opening(scopes, low))
    ensures forall e :: e in Opening(scopes, low) <==> Begins(scopes, low, e)
  {
    var listed := Listed(scopes, low, |scopes|);
    ListedFacts(scopes, low, |scopes|);
    SortFacts(listed);
    forall e ensures e in Opening(scopes, low) <==> Begins(scopes, low, e) {
      if Begins(scopes, low, e) { ListedAll(scopes, low, |scopes|, e); }
    }
  }

  /** Every scope that opens between position `p` at `i` and `h` also ends by `h`. */
  predicate Bounded(c: Parsed, i: nat, p: nat, h: nat) {
    i <= h <= |c.commands| &&
    forall k: nat, q: nat ::
      i <= k < h && q < |Opening(c.scopes, k)| && (k == i ==> p <= q) ==> Opening(c.scopes, k)[q].0 <= h
  }

  lemma WholeBounded(c: Parsed)
    requires Valid(c)
    ensures Bounded(c, 0, 0, |c.commands|)
  {
    forall k: nat, q: nat | q < |Opening(c.scopes, k)| ensures Opening(c.scopes, k)[q].0 <= |c.commands| {
      OpeningFacts(c.scopes, k);
      assert Opening(c.scopes, k)[q] in Opening(c.scopes, k);
    }
  }

  lemma EntryFacts(c: Parsed, i: nat, p: nat)
    requires Valid(c) && p < |Opening(c.scopes, i)|
    ensures var e := Opening(c.scopes, i)[p];
            Begins(c.scopes, i, e) && e.0 <= |c.commands|
  {
    OpeningFacts(c.scopes, i);
    assert Opening(c.scopes, i)[p] in Opening(c.scopes, i);
  }

  lemma Laminar(scopes: seq<Range>, n: nat, m: nat)
    requires PostOrder(scopes) && n < |scopes| && m < |scopes|
    requires scopes[n].0 < scopes[m].0 < scopes[n].1
    ensures scopes[m].1 <= scopes[n].1
  {
  }

  lemma InnerBounded(c: Parsed, i: nat, p: nat, h: nat)
    requires Valid(c) && Bounded(c, i, p, h) && p < |Opening(c.scopes, i)|
    requires i < h
    ensures var e := Opening(c.scopes, i)[p]; i < e.0 <= h && Bounded(c, i, p + 1, e.0) && Bounded(c, e.0, 0, h)
  {
    var e := Opening(c.scopes, i)[p];
    EntryFacts(c, i, p);
    forall k: nat, q: nat | i <= k < e.0 && q < |Opening(c.scopes, k)| && (k == i ==> p + 1 <= q)
      ensures Opening(c.scopes, k)[q].0 <= e.0
    {
      EntryFacts(c, k, q);
      if k == i {
        OpeningFacts(c.scopes, i);
        assert Before(Opening(c.scopes, i)[p], Opening(c.scopes, i)[q]);
      } else {
        Laminar(c.scopes, e.1, Opening(c.scopes, k)[q].1);
      }
    }
  }

  lemma BoundedSize(c: Parsed, i: nat, p: nat, h: nat)
    requires Bounded(c, i, p, h)
    ensures h <= |c.commands|
  {
  }

  lemma NextBounded(c: Parsed, i: nat, p: nat, h: nat)
    requires Bounded(c, i, p, h) && i < h
    ensures Bounded(c, i + 1, 0, h)
  {
  }
}
