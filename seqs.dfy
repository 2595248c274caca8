/** Index arithmetic the generators borrow from Rust's slices and iterators:
    `rotate_left`, `step_by`, `chunks`, and the concatenation that `flat_map`
    and `collect` perform. */
module Seqs {

  /** Total length of a sequence of sequences. */
  function TotalLength<T>(ss: seq<seq<T>>): nat
  {
    if ss == [] then 0 else |ss[0]| + TotalLength(ss[1..])
  }

  /** Concatenation of all pieces, in order (what `flat_map(..).collect()` yields). */
  function Flatten<T>(ss: seq<seq<T>>): (r: seq<T>)
    ensures |r| == TotalLength(ss)
  {
    if ss == [] then [] else ss[0] + Flatten(ss[1..])
  }

  lemma {:induction false} FlattenAppend<T>(ss: seq<seq<T>>, s: seq<T>)
    ensures Flatten(ss + [s]) == Flatten(ss) + s
  {
    if ss == [] {
      assert ss + [s] == [s];
    } else {
      assert (ss + [s])[1..] == ss[1..] + [s];
      FlattenAppend(ss[1..], s);
    }
  }

  /** Pieces of uniform length m concatenate to |ss| * m elements. */
  lemma {:induction false} FlattenUniformLength<T>(ss: seq<seq<T>>, m: nat)
    requires forall i :: 0 <= i < |ss| ==> |ss[i]| == m
    ensures |Flatten(ss)| == |ss| * m
  {
    if ss != [] {
      FlattenUniformLength(ss[1..], m);
      assert |ss| * m == m + (|ss| - 1) * m;
    }
  }

  /** When every piece has length m, element j of piece i sits at position p = i*m + j. */
  lemma {:induction false} FlattenUniformAt<T>(ss: seq<seq<T>>, m: nat, i: nat, j: nat, p: nat)
    requires forall k :: 0 <= k < |ss| ==> |ss[k]| == m
    requires i < |ss| && j < m && p == i * m + j
    ensures p < |Flatten(ss)|
    ensures Flatten(ss)[p] == ss[i][j]
    decreases i
  {
    assert Flatten(ss) == ss[0] + Flatten(ss[1..]);
    if i > 0 {
      assert i * m == (i - 1) * m + m;
      FlattenUniformAt(ss[1..], m, i - 1, j, p - m);
    }
  }

  /** i*m + j is a valid index into n pieces of length m. */
  lemma MulIndexBound(i: nat, j: nat, n: nat, m: nat)
    requires i < n && j < m
    ensures i * m + j < n * m
  {
    MulMonotone(i + 1, n, m);
    assert (i + 1) * m == i * m + m;
  }

  /** One more group of m adds m elements. */
  lemma MulSucc(i: nat, m: nat)
    ensures (i + 1) * m == i * m + m
  {
  }

  /** Multiplying by m preserves order. */
  lemma {:induction false} MulMonotone(a: nat, b: nat, m: nat)
    requires a <= b
    ensures a * m <= b * m
    decreases b - a
  {
    if a < b {
      MulMonotone(a + 1, b, m);
      assert (a + 1) * m == a * m + m;
    }
  }

  /** `slice::rotate_left(mid)`: the first `mid` elements move to the end.
      Rust panics when `mid > len`; that is this function's precondition. */
  function RotateLeft<T>(s: seq<T>, mid: nat): (r: seq<T>)
    requires mid <= |s|
    ensures |r| == |s|
    ensures forall i :: 0 <= i < |s| - mid ==> r[i] == s[i + mid]
    ensures forall i :: |s| - mid <= i < |s| ==> r[i] == s[i - (|s| - mid)]
  {
    s[mid..] + s[..mid]
  }

  /** Rotating left by `mid` and then by the remaining `|s| - mid` restores the input. */
  lemma RotateLeftInverse<T>(s: seq<T>, mid: nat)
    requires mid <= |s|
    ensures RotateLeft(RotateLeft(s, mid), |s| - mid) == s
  {
    var r := RotateLeft(s, mid);
    assert r[|s| - mid..] == s[..mid];
    assert r[..|s| - mid] == s[mid..];
  }

  /** `iter().step_by(k)`: the first element and then every k-th one.
      Rust panics when `k == 0`; that is this function's precondition. */
  function StepBy<T>(s: seq<T>, k: nat): (r: seq<T>)
    requires k > 0
    ensures |r| <= |s|
    ensures s != [] ==> r != [] && r[0] == s[0]
    decreases |s|
  {
    if s == [] then []
    else if |s| <= k then [s[0]]
    else [s[0]] + StepBy(s[k..], k)
  }

  /** Sample i of `step_by(k)` is element p = i*k of the input. */
  lemma {:induction false} StepByAt<T>(s: seq<T>, k: nat, i: nat, p: nat)
    requires k > 0 && i < |StepBy(s, k)| && p == i * k
    ensures p < |s| && StepBy(s, k)[i] == s[p]
    decreases |s|
  {
    if i > 0 {
      assert |s| > k;
      assert StepBy(s, k) == [s[0]] + StepBy(s[k..], k);
      assert i * k == (i - 1) * k + k;
      StepByAt(s[k..], k, i - 1, p - k);
    }
  }

  /** `slice::chunks(k)`: consecutive pieces of length k, the last one
      possibly shorter. Rust panics when `k == 0`; that is this function's
      precondition. */
  function Chunks<T>(s: seq<T>, k: nat): (r: seq<seq<T>>)
    requires k > 0
    ensures Flatten(r) == s
    ensures forall i :: 0 <= i < |r| ==> 0 < |r[i]| <= k
    ensures forall i :: 0 <= i < |r| - 1 ==> |r[i]| == k
    decreases |s|
  {
    if s == [] then []
    else if |s| <= k then [s]
    else
      var rest := Chunks(s[k..], k);
      assert ([s[..k]] + rest)[1..] == rest;
      assert s[..k] + s[k..] == s;
      [s[..k]] + rest
  }

  /** When |s| == n*k there are n chunks, all of length k. */
  lemma {:induction false} ChunksUniformLength<T>(s: seq<T>, k: nat, n: nat)
    requires k > 0 && |s| == n * k
    ensures |Chunks(s, k)| == n
    ensures forall i :: 0 <= i < n ==> |Chunks(s, k)[i]| == k
    decreases n
  {
    if n > 1 {
      assert n * k == (n - 1) * k + k;
      assert |s| > k;
      var rest := s[k..];
      assert |rest| == (n - 1) * k;
      ChunksUniformLength(rest, k, n - 1);
      assert Chunks(s, k) == [s[..k]] + Chunks(rest, k);
    } else if n == 1 {
      assert |s| == k;
    } else {
      assert |s| == 0;
    }
  }

  /** When |s| == n*k, element j of chunk i is element i*k + j of s. */
  lemma ChunkAt<T>(s: seq<T>, k: nat, n: nat, i: nat, j: nat, p: nat)
    requires k > 0 && |s| == n * k && i < n && j < k && p == i * k + j
    ensures |Chunks(s, k)| == n && |Chunks(s, k)[i]| == k
    ensures p < |s| && Chunks(s, k)[i][j] == s[p]
  {
    ChunksUniformLength(s, k, n);
    FlattenUniformAt(Chunks(s, k), k, i, j, p);
  }

  /** The samples of `step_by(k)` are the first elements of the `chunks(k)`:
      one from each chunk. */
  lemma {:induction false} StepByChunkHeads<T>(s: seq<T>, k: nat)
    requires k > 0
    ensures |StepBy(s, k)| == |Chunks(s, k)|
    ensures forall i :: 0 <= i < |StepBy(s, k)| ==> StepBy(s, k)[i] == Chunks(s, k)[i][0]
    decreases |s|
  {
    if |s| > k {
      StepByChunkHeads(s[k..], k);
      assert StepBy(s, k) == [s[0]] + StepBy(s[k..], k);
      assert Chunks(s, k) == [s[..k]] + Chunks(s[k..], k);
    }
  }
}
