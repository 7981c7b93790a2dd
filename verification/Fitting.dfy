/**
  How a forest of ranges lies in the numbered scopes of a parse, and how runs through its parts
  are put together.
 */
module Fitting {
  import opened Prelude
  import opened Paths
  import opened Moves
  import opened Scopes
  import opened Analysis
  import F = Forests
  import T = Trees

  // ---- a forest in a parse ---------------------------------------------------------------------

  predicate Kind(c: Call, n: nat, guard: Option<Guard>) {
    match guard
    case None => IsOwn(c, n) && Chain(c, n) == []
    case Some(Maybe) => IsMaybe(c, n)
    case Some(Loop) => IsLoop(c, n)
  }

  /** Behind the first `p` scopes that open at `i`, the scopes are those of the forest. */
  ghost predicate Fits(c: Call, i: nat, p: nat, trees: seq<F.Tree>)
    decreases trees
  {
    Bounded(c.parsed, i, p, i + F.Size(trees)) &&
    (trees == [] ||
     match trees[0]
     case Leaf => p >= |Opens(c, i)| && Fits(c, i + 1, 0, trees[1..])
     case Node(guard, kids) =>
       var n := F.Size(kids);
       if n == 0 then Fits(c, i, p, trees[1..])
       else
         p < |Opens(c, i)| && Opens(c, i)[p].0 == i + n && Kind(c, Opens(c, i)[p].1, guard) &&
         Fits(c, i, p + 1, kids) && Fits(c, i + n, 0, trees[1..]))
  }

  lemma FitsLeaf(c: Call, i: nat, p: nat, trees: seq<F.Tree>)
    requires trees != [] && trees[0].Leaf?
    ensures Fits(c, i, p, trees) <==>
            Bounded(c.parsed, i, p, i + F.Size(trees)) && p >= |Opens(c, i)| && Fits(c, i + 1, 0, trees[1..])
    ensures F.Size(trees) == 1 + F.Size(trees[1..])
  {
    hide Bounded, Opening;
  }

  lemma FitsNode(c: Call, i: nat, p: nat, trees: seq<F.Tree>)
    requires trees != [] && trees[0].Node?
    ensures var (n, rest) := (F.Size(trees[0].kids), trees[1..]);
            Fits(c, i, p, trees) <==>
            Bounded(c.parsed, i, p, i + F.Size(trees)) &&
            if n == 0 then Fits(c, i, p, rest)
            else
              p < |Opens(c, i)| && Opens(c, i)[p].0 == i + n && Kind(c, Opens(c, i)[p].1, trees[0].guard) &&
              Fits(c, i, p + 1, trees[0].kids) && Fits(c, i + n, 0, rest)
    ensures F.Size(trees) == F.Size(trees[0].kids) + F.Size(trees[1..])
  {
    hide Bounded, Opening, Kind;
  }

  lemma FitsNothing(c: Call, i: nat, p: nat, trees: seq<F.Tree>)
    ensures Fits(c, i, p, trees) ==> Bounded(c.parsed, i, p, i + F.Size(trees))
    ensures trees == [] && Bounded(c.parsed, i, p, i) ==> Fits(c, i, p, trees) && F.Size(trees) == 0
  {
    hide Bounded, Opening, Kind;
  }

  /** Entry `q` of those that open at `k`, if there is one, is numbered from `m` up to `m + len`. */
  predicate Has(c: Call, k: nat, q: nat, m: nat, len: nat) {
    q < |Opens(c, k)| ==> m <= Opens(c, k)[q].1 < m + len
  }

  predicate Lacks(c: Call, k: nat, q: nat, m: nat, len: nat) {
    q < |Opens(c, k)| ==> !(m <= Opens(c, k)[q].1 < m + len)
  }

  /** The scopes numbered from `m` up to `m + len` are the ones that open from `i` on, behind the first `p`. */
  ghost predicate Mine(c: Call, i: nat, p: nat, end: nat, m: nat, len: nat) {
    (forall k: nat, q: nat :: i <= k < end && (k == i ==> p <= q) ==> Has(c, k, q, m, len)) &&
    (forall q: nat :: q < p ==> Lacks(c, i, q, m, len))
  }

  /** The recorded scopes from number `m` on are those of the forest. */
  ghost predicate Written(c: Call, m: nat, marks: seq<T.Mark>) {
    m + |marks| <= |c.parsed.scopes| && forall j :: 0 <= j < |marks| ==> T.MarkOf(c.parsed, m + j) == marks[j]
  }

  lemma {:induction false} FlatRanges(trees: seq<F.Tree>, at: nat)
    ensures forall j :: 0 <= j < |F.Flat(trees, at)| ==>
              at <= F.Flat(trees, at)[j].range.0 <= F.Flat(trees, at)[j].range.1 <= at + F.Size(trees)
    decreases trees
  {
    if trees != [] {
      match trees[0]
      case Leaf => FlatRanges(trees[1..], at + 1);
      case Node(_, kids) =>
        FlatRanges(kids, at);
        FlatRanges(trees[1..], at + F.Size(kids));
    }
  }

  /** What the entry at a position says of its mark. */
  lemma EntryMark(c: Call, k: nat, q: nat, m: nat, marks: seq<T.Mark>)
    requires Known(c) && q < |Opens(c, k)| && Written(c, m, marks) && m <= Opens(c, k)[q].1 < m + |marks|
    ensures var e := Opens(c, k)[q]; marks[e.1 - m].range == (k, e.0) && k < e.0
  {
    EntryFacts(c.parsed, k, q);
    hide Opening;
    var e := Opens(c, k)[q];
    assert T.MarkOf(c.parsed, m + (e.1 - m)) == marks[e.1 - m];
  }

  lemma MineHas(c: Call, i: nat, p: nat, end: nat, m: nat, len: nat, k: nat, q: nat)
    requires Mine(c, i, p, end, m, len)
    ensures i <= k < end && (k == i ==> p <= q) ==> Has(c, k, q, m, len)
    ensures q < p ==> Lacks(c, i, q, m, len)
  {
    hide Has, Lacks, Opening;
  }

  lemma MineBounded(c: Call, i: nat, p: nat, trees: seq<F.Tree>, m: nat)
    requires Known(c) && Written(c, m, F.Flat(trees, i)) && i + F.Size(trees) <= Size(c)
    requires Mine(c, i, p, i + F.Size(trees), m, |F.Flat(trees, i)|)
    ensures Bounded(c.parsed, i, p, i + F.Size(trees))
  {
    var end, marks := i + F.Size(trees), F.Flat(trees, i);
    FlatRanges(trees, i);
    hide Mine, Written, F.Flat, Opening;
    forall k: nat, q: nat | i <= k < end && q < |Opening(c.parsed.scopes, k)| && (k == i ==> p <= q)
      ensures Opening(c.parsed.scopes, k)[q].0 <= end
    {
      MineHas(c, i, p, end, m, |marks|, k, q);
      EntryMark(c, k, q, m, marks);
    }
  }

  predicate From(marks: seq<T.Mark>, at: nat) { forall j :: 0 <= j < |marks| ==> at <= marks[j].range.0 }

  predicate Between(marks: seq<T.Mark>, low: nat, high: nat) {
    forall j :: 0 <= j < |marks| ==> low <= marks[j].range.0 <= marks[j].range.1 <= high
  }

  /** A leaf in front: no more scopes open there. */
  lemma LeafFirst(c: Call, i: nat, p: nat, end: nat, m: nat, marks: seq<T.Mark>)
    requires Known(c) && Written(c, m, marks) && From(marks, i + 1) && i < end
    requires Mine(c, i, p, end, m, |marks|)
    ensures p >= |Opens(c, i)|
  {
    MineHas(c, i, p, end, m, |marks|, i, p);
    hide Opening, Written, Known, Mine;
    if p < |Opens(c, i)| {
      EntryMark(c, i, p, m, marks);
      assert false;
    }
  }

  lemma MineNext(c: Call, i: nat, p: nat, end: nat, m: nat, len: nat)
    requires Mine(c, i, p, end, m, len)
    ensures Mine(c, i + 1, 0, end, m, len)
  {
    hide Opening, Has, Lacks;
  }

  lemma FlatLeaf(rest: seq<F.Tree>, i: nat)
    ensures F.Flat([F.Leaf] + rest, i) == F.Flat(rest, i + 1) && F.Size([F.Leaf] + rest) == 1 + F.Size(rest)
    ensures From(F.Flat(rest, i + 1), i + 1)
  {
    FlatRanges(rest, i + 1);
    assert ([F.Leaf] + rest)[1..] == rest;
  }

  /** The marks of a node and of what is behind it. */
  lemma NodeMarks(guard: Option<Guard>, kids: seq<F.Tree>, rest: seq<F.Tree>, i: nat)
    ensures var (n, all) := (F.Size(kids), [F.Node(guard, kids)] + rest);
            F.Size(all) == n + F.Size(rest) &&
            F.Flat(all, i) == F.Flat(kids, i) + [T.Mark((i, i + n), guard, false, [])] + F.Flat(rest, i + n) &&
            Between(F.Flat(kids, i), i, i + n) && From(F.Flat(rest, i + n), i + n)
  {
    assert ([F.Node(guard, kids)] + rest)[1..] == rest;
    FlatRanges(kids, i);
    FlatRanges(rest, i + F.Size(kids));
  }

  /** Marks of a node from `i` up to `i + n`: those inside, its own, and those behind it. */
  function Three(x: seq<T.Mark>, i: nat, n: nat, guard: Option<Guard>, z: seq<T.Mark>): seq<T.Mark> {
    x + [T.Mark((i, i + n), guard, false, [])] + z
  }

  predicate Nested(x: seq<T.Mark>, i: nat, n: nat, z: seq<T.Mark>) { Between(x, i, i + n) && From(z, i + n) }

  /** Where one of them stands. */
  lemma ThreeAt(x: seq<T.Mark>, i: nat, n: nat, guard: Option<Guard>, z: seq<T.Mark>, j: nat)
    requires Nested(x, i, n, z) && j < |x| + 1 + |z|
    ensures var mark := Three(x, i, n, guard, z)[j];
            (j < |x| ==> i <= mark.range.0 <= mark.range.1 <= i + n) &&
            (j == |x| ==> mark == T.Mark((i, i + n), guard, false, [])) &&
            (j > |x| ==> i + n <= mark.range.0)
  {
  }

  /** A node with commands in front is the next scope that opens. */
  lemma NodeFirst(c: Call, i: nat, p: nat, end: nat, m: nat, x: seq<T.Mark>, n: nat, guard: Option<Guard>,
                  z: seq<T.Mark>)
    requires Known(c) && n > 0 && i < end && Nested(x, i, n, z) && Written(c, m, Three(x, i, n, guard, z))
    requires Mine(c, i, p, end, m, |x| + 1 + |z|)
    ensures p < |Opens(c, i)| && Opens(c, i)[p] == (i + n, m + |x|)
  {
    var marks, len := Three(x, i, n, guard, z), |x| + 1 + |z|;
    WrittenAt(c, m, marks, |x|);
    OpeningFacts(c.parsed.scopes, i);
    var entry := (i + n, m + |x|);
    assert entry in Opens(c, i);
    var q: nat :| q < |Opens(c, i)| && Opens(c, i)[q] == entry;
    assert p < q ==> Before(Opens(c, i)[p], entry);
    MineHas(c, i, p, end, m, len, i, p);
    MineHas(c, i, p, end, m, len, i, q);
    hide Opening, Known, Written, Mine, Nested, Three;
    if p < q {
      EntryMark(c, i, p, m, marks);
      ThreeAt(x, i, n, guard, z, Opens(c, i)[p].1 - m);
      assert false;
    }
  }

  lemma WrittenAt(c: Call, m: nat, marks: seq<T.Mark>, j: nat)
    requires Written(c, m, marks) && j < |marks|
    ensures m + j < |c.parsed.scopes| && T.MarkOf(c.parsed, m + j) == marks[j]
  {
  }

  /** Where the scopes that open from `i` on belong: inside the node, or behind it. */
  lemma NodeHas(c: Call, i: nat, p: nat, m: nat, x: seq<T.Mark>, n: nat, guard: Option<Guard>, z: seq<T.Mark>,
                k: nat, q: nat)
    requires Known(c) && Nested(x, i, n, z) && Written(c, m, Three(x, i, n, guard, z))
    requires n > 0 ==> p < |Opens(c, i)| && Opens(c, i)[p] == (i + n, m + |x|)
    requires Has(c, k, q, m, |x| + 1 + |z|) && k >= i
    ensures n > 0 && k < i + n && !(k == i && q == p) ==> Has(c, k, q, m, |x|)
    ensures k >= i + n ==> Has(c, k, q, m + |x| + 1, |z|)
  {
    if q < |Opens(c, k)| {
      EntryMark(c, k, q, m, Three(x, i, n, guard, z));
      if n > 0 { OneEntry(c, i, p); }
      hide Opening, Known, Written, Three, Nested;
      ThreeAt(x, i, n, guard, z, Opens(c, k)[q].1 - m);
    }
  }

  /** A scope opens once. */
  lemma OneEntry(c: Call, i: nat, p: nat)
    requires Known(c) && p < |Opens(c, i)|
    ensures forall q: nat :: q < |Opens(c, i)| && Opens(c, i)[q].1 == Opens(c, i)[p].1 ==> q == p
  {
    OpeningFacts(c.parsed.scopes, i);
    EntryFacts(c.parsed, i, p);
    var entries := Opens(c, i);
    hide Opening;
    assert Descending(entries);
    forall q: nat | q < |entries| && entries[q].1 == entries[p].1 ensures q == p {
      EntryFacts(c.parsed, i, q);
    }
  }

  lemma OutsideParts(c: Call, i: nat, m: nat, len: nat, a: nat, q: nat)
    requires Lacks(c, i, q, m, len) && a < len
    ensures Lacks(c, i, q, m, a) && Lacks(c, i, q, m + a + 1, len - a - 1)
  {
  }

  /** The scopes inside a node, and those behind it. */
  lemma NodeMine(c: Call, i: nat, p: nat, end: nat, m: nat, x: seq<T.Mark>, n: nat, guard: Option<Guard>,
                 z: seq<T.Mark>)
    requires Known(c) && Nested(x, i, n, z) && Written(c, m, Three(x, i, n, guard, z)) && i + n <= end
    requires Mine(c, i, p, end, m, |x| + 1 + |z|)
    ensures n > 0 ==>
              p < |Opens(c, i)| && Opens(c, i)[p] == (i + n, m + |x|) &&
              Mine(c, i, p + 1, i + n, m, |x|) && Mine(c, i + n, 0, end, m + |x| + 1, |z|)
    ensures n == 0 ==> Mine(c, i, p, end, m + |x| + 1, |z|)
  {
    var a, b, len, next: nat := |x|, |z|, |x| + 1 + |z|, m + |x| + 1;
    if n > 0 { NodeFirst(c, i, p, end, m, x, n, guard, z); }
    assert n > 0 ==> Lacks(c, i, p, m, a);
    hide Opening, Known, Written, Has, Lacks, Nested, Three;
    forall k: nat, q: nat | i <= k < end && (k == i ==> p <= q)
      ensures n > 0 && k < i + n && !(k == i && q == p) ==> Has(c, k, q, m, a)
      ensures k >= i + n ==> Has(c, k, q, next, b)
    {
      MineHas(c, i, p, end, m, len, k, q);
      NodeHas(c, i, p, m, x, n, guard, z, k, q);
    }
    forall q: nat | q < p ensures Lacks(c, i, q, m, a) && Lacks(c, i, q, next, b) {
      MineHas(c, i, p, end, m, len, i, q);
      OutsideParts(c, i, m, len, a, q);
    }
  }

  lemma WrittenParts(c: Call, m: nat, x: seq<T.Mark>, y: T.Mark, z: seq<T.Mark>)
    requires Written(c, m, x + [y] + z)
    ensures Written(c, m, x) && Written(c, m + |x| + 1, z)
    ensures y.guard.Some? || (!y.kept && y.chain == []) ==> Kind(c, m + |x|, y.guard)
  {
    var all := x + [y] + z;
    forall j | 0 <= j < |x| ensures T.MarkOf(c.parsed, m + j) == x[j] { assert all[j] == x[j]; }
    forall j | 0 <= j < |z| ensures T.MarkOf(c.parsed, m + |x| + 1 + j) == z[j] {
      assert all[|x| + 1 + j] == z[j];
      assert T.MarkOf(c.parsed, m + (|x| + 1 + j)) == all[|x| + 1 + j];
    }
    assert all[|x|] == y;
    assert T.MarkOf(c.parsed, m + |x|) == y;
  }

  lemma LeafWritten(c: Call, i: nat, p: nat, rest: seq<F.Tree>, m: nat)
    requires var all := [F.Leaf] + rest;
             Known(c) && Written(c, m, F.Flat(all, i)) && i + F.Size(all) <= Size(c) &&
             Mine(c, i, p, i + F.Size(all), m, |F.Flat(all, i)|)
    ensures p >= |Opens(c, i)| && Written(c, m, F.Flat(rest, i + 1)) && i + 1 + F.Size(rest) <= Size(c)
    ensures Mine(c, i + 1, 0, i + 1 + F.Size(rest), m, |F.Flat(rest, i + 1)|)
  {
    hide Opening, Mine, Written, F.Flat, F.Size, Known, From;
    FlatLeaf(rest, i);
    var end := i + F.Size([F.Leaf] + rest);
    LeafFirst(c, i, p, end, m, F.Flat(rest, i + 1));
    MineNext(c, i, p, end, m, |F.Flat(rest, i + 1)|);
  }

  lemma NodeWritten(c: Call, i: nat, p: nat, guard: Option<Guard>, kids: seq<F.Tree>, rest: seq<F.Tree>, m: nat)
      returns (next: nat)
    requires var all := [F.Node(guard, kids)] + rest;
             Known(c) && Written(c, m, F.Flat(all, i)) && i + F.Size(all) <= Size(c) &&
             Mine(c, i, p, i + F.Size(all), m, |F.Flat(all, i)|)
    ensures var n := F.Size(kids);
            i + n + F.Size(rest) <= Size(c) && Written(c, next, F.Flat(rest, i + n)) &&
            if n == 0 then Mine(c, i, p, i + F.Size(rest), next, |F.Flat(rest, i)|)
            else
              p < |Opens(c, i)| && Opens(c, i)[p].0 == i + n && Kind(c, Opens(c, i)[p].1, guard) &&
              Written(c, m, F.Flat(kids, i)) && Mine(c, i, p + 1, i + n, m, |F.Flat(kids, i)|) &&
              Mine(c, i + n, 0, i + n + F.Size(rest), next, |F.Flat(rest, i + n)|)
  {
    hide Opening, Mine, Written, F.Flat, F.Size, Known, From, Between, Kind;
    var n, all := F.Size(kids), [F.Node(guard, kids)] + rest;
    var x, z := F.Flat(kids, i), F.Flat(rest, i + n);
    NodeMarks(guard, kids, rest, i);
    assert F.Flat(all, i) == Three(x, i, n, guard, z) && |F.Flat(all, i)| == |x| + 1 + |z|;
    WrittenParts(c, m, x, T.Mark((i, i + n), guard, false, []), z);
    NodeMine(c, i, p, i + F.Size(all), m, x, n, guard, z);
    next := m + |x| + 1;
  }

  /** Scopes that are written as a forest fit it. */
  lemma {:induction false} WrittenFits(c: Call, i: nat, p: nat, trees: seq<F.Tree>, m: nat)
    requires Known(c) && Written(c, m, F.Flat(trees, i)) && i + F.Size(trees) <= Size(c)
    requires Mine(c, i, p, i + F.Size(trees), m, |F.Flat(trees, i)|)
    ensures Fits(c, i, p, trees)
    decreases trees
  {
    hide Opening, Mine, Written, Bounded, Kind, Fits, F.Flat, F.Size, Known;
    MineBounded(c, i, p, trees, m);
    if trees == [] {
      FitsNothing(c, i, p, trees);
      BoundedEmpty(c, i, p, i + F.Size(trees));
    } else {
      var rest := trees[1..];
      assert trees == [trees[0]] + rest;
      match trees[0]
      case Leaf =>
        FitsLeaf(c, i, p, trees);
        LeafWritten(c, i, p, rest, m);
        WrittenFits(c, i + 1, 0, rest, m);
      case Node(guard, kids) =>
        FitsNode(c, i, p, trees);
        var next := NodeWritten(c, i, p, guard, kids, rest, m);
        if F.Size(kids) == 0 {
          WrittenFits(c, i, p, rest, next);
        } else {
          NodeMarks(guard, kids, rest, i);
          WrittenFits(c, i, p + 1, kids, m);
          WrittenFits(c, i + F.Size(kids), 0, rest, next);
        }
    }
  }

  /** A whole parse fits the forest it was written from. */
  lemma ParseFits(c: Call, trees: seq<F.Tree>)
    requires Known(c) && T.Marks(c.parsed) == F.Flat(trees, 0) && F.Size(trees) == Size(c)
    ensures Fits(c, 0, 0, trees)
  {
    var marks := F.Flat(trees, 0);
    assert Written(c, 0, marks) by {
      forall j | 0 <= j < |marks| ensures T.MarkOf(c.parsed, 0 + j) == marks[j] {
        assert T.Marks(c.parsed)[j] == marks[j];
      }
    }
    forall k: nat, q: nat | k < Size(c) ensures Has(c, k, q, 0, |marks|) {
      if q < |Opens(c, k)| { EntryFacts(c.parsed, k, q); }
    }
    hide Opening, F.Flat, Has, Lacks;
    assert Mine(c, 0, 0, Size(c), 0, |marks|);
    WrittenFits(c, 0, 0, trees, 0);
  }

  // ---- parts of a forest ------------------------------------------------------------------------

  /** How many scopes have opened at the place behind some trees. */
  function Behind(p: nat, trees: seq<F.Tree>): nat { if F.Size(trees) == 0 then p else 0 }

  lemma BoundedBehind(c: Call, i: nat, p: nat, k: nat)
    requires Known(c) && p < |Opens(c, i)| && i < Opens(c, i)[p].0 <= k
    requires Bounded(c.parsed, i, p + 1, Opens(c, i)[p].0) && Bounded(c.parsed, Opens(c, i)[p].0, 0, k)
    ensures Bounded(c.parsed, i, p, k)
  {
  }

  lemma BoundedNext(c: Call, i: nat, p: nat, k: nat)
    requires p >= |Opens(c, i)| && i < k && Bounded(c.parsed, i + 1, 0, k)
    ensures Bounded(c.parsed, i, p, k)
  {
  }

  lemma {:induction false} FitsParts(c: Call, i: nat, p: nat, a: seq<F.Tree>, b: seq<F.Tree>)
    requires Known(c) && Fits(c, i, p, a + b)
    ensures Fits(c, i, p, a) && Fits(c, i + F.Size(a), Behind(p, a), b)
    decreases a
  {
    hide Opening, Bounded, Kind, Fits, F.Size, Known;
    if a == [] {
      assert a + b == b;
      FitsNothing(c, i, p, b);
      BoundedEmpty(c, i, p, i + F.Size(b));
      FitsNothing(c, i, p, a);
    } else {
      var more := a[1..];
      assert (a + b)[0] == a[0] && (a + b)[1..] == more + b;
      match a[0]
      case Leaf =>
        FitsLeaf(c, i, p, a + b);
        FitsLeaf(c, i, p, a);
        FitsParts(c, i + 1, 0, more, b);
        FitsNothing(c, i + 1, 0, more);
        BoundedNext(c, i, p, i + F.Size(a));
        assert Behind(0, more) == Behind(p, a) == 0;
      case Node(_, kids) =>
        FitsNode(c, i, p, a + b);
        FitsNode(c, i, p, a);
        if F.Size(kids) == 0 {
          FitsParts(c, i, p, more, b);
          FitsNothing(c, i, p, more);
        } else {
          FitsParts(c, i + F.Size(kids), 0, more, b);
          FitsNothing(c, i, p + 1, kids);
          FitsNothing(c, i + F.Size(kids), 0, more);
          BoundedBehind(c, i, p, i + F.Size(a));
        }
    }
  }

  lemma BoundedEmpty(c: Call, i: nat, p: nat, h: nat)
    requires Bounded(c.parsed, i, p, h)
    ensures Bounded(c.parsed, i, p, i)
  {
  }
}
