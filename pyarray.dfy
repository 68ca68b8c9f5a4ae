/** The few Python list and numpy array operations the analysis code relies on,
    on sequences: slicing with Python's bound rules, np.linspace, concatenation of
    a list of arrays, and elementwise arithmetic. */
module PyArray {
  import opened Common

  /** A slice bound as Python normalises it against a length: negative bounds
      count from the end, and every bound is clamped into 0 .. len. */
  function SliceBound(i: int, len: nat): (r: nat)
    ensures r <= len
    ensures 0 <= i <= len ==> r == i
    ensures i < 0 && 0 <= len + i ==> r == len + i
    ensures i > len ==> r == len
    ensures len + i < 0 ==> r == 0
  {
    if i < 0 then (if len + i < 0 then 0 else len + i)
    else if i > len then len
    else i
  }

  /** s[lo:hi] with Python's semantics: never raises, empty when the bounds cross. */
  function Slice<T>(s: seq<T>, lo: int, hi: int): (r: seq<T>)
  {
    var a := SliceBound(lo, |s|);
    var b := SliceBound(hi, |s|);
    if a < b then s[a..b] else []
  }

  lemma SliceInRange<T>(s: seq<T>, lo: int, hi: int)
    requires 0 <= lo <= hi <= |s|
    ensures Slice(s, lo, hi) == s[lo..hi]
  {
  }

  /** s[:-1] drops the last element, and is empty on an empty list. */
  lemma SliceDropLast<T>(s: seq<T>)
    ensures |s| == 0 ==> Slice(s, 0, -1) == []
    ensures |s| > 0 ==> Slice(s, 0, -1) == s[..|s| - 1]
  {
  }

  /** np.linspace(start, stop, num): num evenly spaced values, the first start and,
      from two samples on, the last stop. */
  function Linspace(start: real, stop: real, num: nat): (r: seq<real>)
    ensures |r| == num
    ensures num >= 1 ==> r[0] == start
    ensures num >= 2 ==> r[num - 1] == stop
    ensures num >= 2 ==> forall k :: 0 <= k < num - 1 ==> r[k + 1] - r[k] == (stop - start) / ((num - 1) as real)
  {
    if num == 1 then [start]
    else
      var step := (stop - start) / ((num - 1) as real);
      assert num >= 2 ==> ((num - 1) as real) * step == stop - start;
      seq(num, k requires 0 <= k < num => start + (k as real) * step)
  }

  /** np.concatenate(rows).ravel() on a list of one-dimensional arrays. */
  function Flatten<T>(rows: seq<seq<T>>): seq<T>
  {
    if rows == [] then [] else Flatten(rows[..|rows| - 1]) + rows[|rows| - 1]
  }

  lemma FlattenSnoc<T>(rows: seq<seq<T>>, row: seq<T>)
    ensures Flatten(rows + [row]) == Flatten(rows) + row
  {
    assert (rows + [row])[..|rows|] == rows;
  }

  /** Elementwise v * c. */
  function Scaled(v: seq<real>, c: real): seq<real>
  {
    seq(|v|, k requires 0 <= k < |v| => v[k] * c)
  }

  /** Elementwise v ** 2. */
  function Squared(v: seq<real>): seq<real>
  {
    seq(|v|, k requires 0 <= k < |v| => v[k] * v[k])
  }

  /** Elementwise np.cos(v). */
  function Cosines(m: Numerics, v: seq<real>): seq<real>
  {
    seq(|v|, k requires 0 <= k < |v| => m.cos(v[k]))
  }

  /** Elementwise 1 - v. */
  function OneMinus(v: seq<real>): seq<real>
  {
    seq(|v|, k requires 0 <= k < |v| => 1.0 - v[k])
  }

  lemma DivideThenScale(a: real, c: real, d: real)
    requires c != 0.0 && d != 0.0
    ensures (a / c) / d * c == a / d
  {
    var q := a / c;
    assert q * c == a;
    var p := q / d;
    assert p * d == q;
    assert p * c * d == a;
  }

  /** Linspace from 0 commutes with scaling: linspace(0, stop / c, num) * c is linspace(0, stop, num). */
  lemma {:induction false} ScaledLinspace(stop: real, c: real, num: nat)
    requires c != 0.0
    ensures Scaled(Linspace(0.0, stop / c, num), c) == Linspace(0.0, stop, num)
  {
    var lhs, rhs := Scaled(Linspace(0.0, stop / c, num), c), Linspace(0.0, stop, num);
    if num >= 2 {
      var d := (num - 1) as real;
      DivideThenScale(stop, c, d);
      forall k | 0 <= k < num
        ensures lhs[k] == rhs[k]
      {
        var kr := k as real;
        assert lhs[k] == (0.0 + kr * ((stop / c - 0.0) / d)) * c;
        assert rhs[k] == 0.0 + kr * ((stop - 0.0) / d);
        assert (kr * ((stop / c) / d)) * c == kr * ((stop / c) / d * c);
      }
    }
    assert |lhs| == |rhs|;
  }
}
