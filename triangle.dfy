/** The strict upper triangle of the n-by-n pair matrix, in the order the
    pair loop of the dispersion calculation visits it: outer index i from 0,
    inner index j from i + 1 up to n - 1. */
module UpperTriangle {
  import opened PyArray

  type Pair = (nat, nat)

  /** Lexicographic order on pairs: the visiting order of the pair loop. */
  predicate PairBefore(p: Pair, q: Pair) {
    p.0 < q.0 || (p.0 == q.0 && p.1 < q.1)
  }

  /** The pairs visited at outer index i: (i, i+1), (i, i+2), ..., (i, n-1). */
  function RowPairs(n: nat, i: nat): seq<Pair>
    requires i < n
  {
    seq(n - 1 - i, k requires 0 <= k < n - 1 - i => (i, i + 1 + k))
  }

  /** The pairs visited at outer indices 0 .. i-1, in visiting order. */
  function PairsBefore(n: nat, i: nat): (r: seq<Pair>)
    requires i <= n
    ensures forall k :: 0 <= k < |r| ==> r[k].0 < i && r[k].0 < r[k].1 < n
  {
    if i == 0 then [] else PairsBefore(n, i - 1) + RowPairs(n, i - 1)
  }

  /** Every pair (i, j) with i < j < n, in visiting order. */
  function UpperPairs(n: nat): (r: seq<Pair>)
    ensures forall k :: 0 <= k < |r| ==> r[k].0 < r[k].1 < n
  {
    PairsBefore(n, n)
  }

  lemma {:induction false} PairsBeforeLength(n: nat, i: nat)
    requires i <= n
    ensures 2 * |PairsBefore(n, i)| == i * (2 * n - i - 1)
  {
    if i > 0 {
      PairsBeforeLength(n, i - 1);
      assert 2 * |PairsBefore(n, i)| == (i - 1) * (2 * n - i) + 2 * (n - i);
    }
  }

  lemma {:induction false} PairsBeforeMembers(n: nat, i: nat, p: Pair)
    requires i <= n
    ensures p in PairsBefore(n, i) <==> p.0 < i && p.0 < p.1 < n
  {
    if i > 0 {
      PairsBeforeMembers(n, i - 1, p);
      if p.0 == i - 1 && p.0 < p.1 < n {
        assert RowPairs(n, i - 1)[p.1 - i] == p;
      }
    }
  }

  lemma {:induction false} PairsBeforeOrdered(n: nat, i: nat)
    requires i <= n
    ensures forall a, b :: 0 <= a < b < |PairsBefore(n, i)| ==> PairBefore(PairsBefore(n, i)[a], PairsBefore(n, i)[b])
  {
    if i > 0 {
      PairsBeforeOrdered(n, i - 1);
      var prev: seq<Pair>, row: seq<Pair> := PairsBefore(n, i - 1), RowPairs(n, i - 1);
      assert PairsBefore(n, i) == prev + row;
      forall a, b | 0 <= a < b < |prev + row|
        ensures PairBefore((prev + row)[a], (prev + row)[b])
      {
        if b < |prev| {
        } else if a < |prev| {
          assert (prev + row)[a] == prev[a];
          assert (prev + row)[b] == row[b - |prev|];
        } else {
          assert (prev + row)[a] == row[a - |prev|];
          assert (prev + row)[b] == row[b - |prev|];
        }
      }
    }
  }

  /** The pair loop visits each unordered pair of distinct indices exactly once:
      n(n-1)/2 entries, exactly the pairs i < j < n, in strictly increasing
      lexicographic order (so without repetition). */
  lemma UpperPairsExact(n: nat)
    ensures |UpperPairs(n)| == n * (n - 1) / 2
    ensures forall p: Pair :: p in UpperPairs(n) <==> p.0 < p.1 < n
    ensures forall a, b :: 0 <= a < b < |UpperPairs(n)| ==> PairBefore(UpperPairs(n)[a], UpperPairs(n)[b])
    ensures forall a, b :: 0 <= a < |UpperPairs(n)| && 0 <= b < |UpperPairs(n)| && a != b ==> UpperPairs(n)[a] != UpperPairs(n)[b]
  {
    PairsBeforeLength(n, n);
    PairsBeforeOrdered(n, n);
    forall p: Pair
      ensures p in UpperPairs(n) <==> p.0 < p.1 < n
    {
      PairsBeforeMembers(n, n, p);
    }
    var ps := UpperPairs(n);
    forall a, b | 0 <= a < |ps| && 0 <= b < |ps| && a != b
      ensures ps[a] != ps[b]
    {
      if a < b { assert PairBefore(ps[a], ps[b]); } else { assert PairBefore(ps[b], ps[a]); }
    }
  }

  /** Rows built as the pair loop builds them, row r holding f(r, j) for j = r+1 .. n-1,
      concatenate into f over the visited pairs, in visiting order. */
  lemma {:induction false} FlattenRows<T>(rows: seq<seq<T>>, n: nat, f: (nat, nat) --> T, i: nat)
    requires i <= |rows| && i <= n
    requires forall a: nat, b: nat :: a < b < n ==> f.requires(a, b)
    requires forall r :: 0 <= r < i ==> |rows[r]| == n - 1 - r
    requires forall r, k :: 0 <= r < i && 0 <= k < n - 1 - r ==> rows[r][k] == f(r, r + 1 + k)
    ensures |Flatten(rows[..i])| == |PairsBefore(n, i)|
    ensures forall k :: 0 <= k < |PairsBefore(n, i)| ==>
      Flatten(rows[..i])[k] == f(PairsBefore(n, i)[k].0, PairsBefore(n, i)[k].1)
  {
    if i > 0 {
      FlattenRows(rows, n, f, i - 1);
      var prev: seq<Pair>, row: seq<Pair> := PairsBefore(n, i - 1), RowPairs(n, i - 1);
      assert rows[..i] == rows[..i - 1] + [rows[i - 1]];
      FlattenSnoc(rows[..i - 1], rows[i - 1]);
      var flat := Flatten(rows[..i - 1]) + rows[i - 1];
      forall k | 0 <= k < |prev + row|
        ensures flat[k] == f((prev + row)[k].0, (prev + row)[k].1)
      {
        if k >= |prev| {
          assert (prev + row)[k] == row[k - |prev|];
        }
      }
    }
  }
}
