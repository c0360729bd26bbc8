/** Splitting an ordered list of ids into consecutive batches of bounded size,
    as PHP's `array_chunk($ids, $size)` does for a list (keys not preserved). */
module Batching {

  /** The concatenation of a list of batches, in order. */
  function Flatten<T>(batches: seq<seq<T>>): (r: seq<T>)
  {
    if batches == [] then [] else batches[0] + Flatten(batches[1..])
  }

  /** `array_chunk($s, $size)`: consecutive slices of `s`, every one holding
      `size` elements except possibly the last, which holds the rest.
      The empty list gives no batch at all. */
  function Chunk<T>(s: seq<T>, size: nat): (r: seq<seq<T>>)
    requires size > 0
    ensures forall i :: 0 <= i < |r| ==> 0 < |r[i]| <= size
    ensures forall i :: 0 <= i < |r| - 1 ==> |r[i]| == size
    decreases |s|
  {
    if s == [] then []
    else if |s| <= size then [s]
    else [s[..size]] + Chunk(s[size..], size)
  }

  /** With k batches, the ids fill more than k - 1 batches and at most k. */
  lemma {:induction false} ChunkBounds<T>(s: seq<T>, size: nat)
    requires size > 0
    ensures s == [] ==> Chunk(s, size) == []
    ensures s != [] ==> (|Chunk(s, size)| - 1) * size < |s| <= |Chunk(s, size)| * size
    decreases |s|
  {
    if |s| > size {
      var k := |Chunk(s[size..], size)|;
      ChunkBounds(s[size..], size);
      assert |Chunk(s, size)| == k + 1;
      assert (k + 1) * size == k * size + size;
    }
  }

  /** `array_chunk` yields ceil(|s| / size) batches. */
  lemma ChunkCount<T>(s: seq<T>, size: nat)
    requires size > 0
    ensures |Chunk(s, size)| == (|s| + size - 1) / size
  {
    var k := |Chunk(s, size)|;
    ChunkBounds(s, size);
    if s != [] {
      DivExact(|s| + size - 1, size, k);
    }
  }

  /** `a / d` is the only `q` with `q * d <= a < (q + 1) * d`. */
  lemma DivExact(a: nat, d: nat, q: nat)
    requires d > 0 && q * d <= a < q * d + d
    ensures a / d == q
  {
    var q', rem := a / d, a % d;
    assert a == q' * d + rem && 0 <= rem < d;
    assert (q' + 1) * d == q' * d + d;
    assert (q + 1) * d == q * d + d;
    MulMonotone(q' + 1, q, d);
    MulMonotone(q + 1, q', d);
  }

  lemma MulMonotone(x: nat, y: nat, d: nat)
    ensures x <= y ==> x * d <= y * d
  {
    assert y * d == x * d + (y - x) * d;
  }

  /** Batching loses, duplicates and reorders nothing: the batches, read in
      order, are the input. */
  lemma {:induction false} ChunkFlatten<T>(s: seq<T>, size: nat)
    requires size > 0
    ensures Flatten(Chunk(s, size)) == s
    decreases |s|
  {
    if s == [] {
    } else if |s| <= size {
      assert Flatten([s]) == s + Flatten([s][1..]);
    } else {
      var rest := Chunk(s[size..], size);
      assert Chunk(s, size) == [s[..size]] + rest;
      assert ([s[..size]] + rest)[1..] == rest;
      ChunkFlatten(s[size..], size);
      assert s[..size] + s[size..] == s;
    }
  }

  /** Only the empty list yields no batch. */
  lemma ChunkEmpty<T>(s: seq<T>, size: nat)
    requires size > 0
    ensures Chunk(s, size) == [] <==> s == []
  {
  }
}
