/**
 * Splitting a list into fixed-size slices, as the playlist writers do with
 * `songs[i * 90 : i * 90 + 90]` for `i in range(math.ceil(len(songs) / 90))`.
 */
module Chunking {
  import opened Wrappers

  /**
   * The exact integer value of `math.ceil(n / c)`: the fewest slices of at
   * most `c` items that hold `n` items.
   */
  function CeilDiv(n: nat, c: nat): (k: nat)
    requires c > 0
    ensures k * c >= n
    ensures k > 0 ==> (k - 1) * c < n
    ensures n == 0 <==> k == 0
  {
    var k := (n + c - 1) / c;
    assert (k - 1) * c == k * c - c;
    k
  }

  /** Python's `s[lo:hi]` for non-negative bounds: both ends are clamped to the length. */
  function Slice<T>(s: seq<T>, lo: nat, hi: nat): (r: seq<T>)
    ensures |r| == if Min(hi, |s|) <= Min(lo, |s|) then 0 else Min(hi, |s|) - Min(lo, |s|)
    ensures lo <= hi ==> r == s[Min(lo, |s|)..Min(hi, |s|)]
  {
    var a, b := Min(lo, |s|), Min(hi, |s|);
    if a <= b then s[a..b] else []
  }

  /** The `i`-th slice of size `c`: `s[i * c : i * c + c]`. */
  function Chunk<T>(s: seq<T>, i: nat, c: nat): seq<T>
  {
    Slice(s, i * c, i * c + c)
  }

  /** The first `k` slices of size `c`, in order. */
  function Chunks<T>(s: seq<T>, c: nat, k: nat): (r: seq<seq<T>>)
    ensures |r| == k
  {
    if k == 0 then [] else Chunks(s, c, k - 1) + [Chunk(s, k - 1, c)]
  }

  /** Element `i` of `Chunks(s, c, k)` is the `i`-th slice. */
  lemma {:induction false} ChunksAt<T>(s: seq<T>, c: nat, k: nat, i: nat)
    requires i < k
    ensures Chunks(s, c, k)[i] == Chunk(s, i, c)
  {
    if i < k - 1 {
      ChunksAt(s, c, k - 1, i);
    }
  }

  /** The concatenation of a sequence of request bodies, in order. */
  function Concat<T>(ss: seq<seq<T>>): (r: seq<T>)
  {
    if ss == [] then [] else Concat(ss[..|ss| - 1]) + ss[|ss| - 1]
  }

  /** Slice `i` is `s[i * c .. i * c + c]` with both ends clamped to the length. */
  lemma ChunkIsSlice<T>(s: seq<T>, i: nat, c: nat)
    ensures Chunk(s, i, c) == s[Min(i * c, |s|)..Min(i * c + c, |s|)]
  {
  }

  /** The clamped prefix of `i` slices followed by slice `i` is the clamped prefix of `i + 1` slices. */
  lemma PrefixThenChunk<T>(s: seq<T>, i: nat, c: nat)
    ensures s[..Min(i * c, |s|)] + Chunk(s, i, c) == s[..Min((i + 1) * c, |s|)]
  {
    MulSucc(i, c);
    var a, b := Min(i * c, |s|), Min(i * c + c, |s|);
    assert s[..b] == s[..a] + s[a..b];
  }

  /** The first `m` slices together are exactly the prefix of `m * c` items (or all of `s`). */
  lemma {:induction false} ChunksPrefix<T>(s: seq<T>, c: nat, m: nat)
    ensures Concat(Chunks(s, c, m)) == s[..Min(m * c, |s|)]
  {
    if m > 0 {
      var prev := Chunks(s, c, m - 1);
      assert (prev + [Chunk(s, m - 1, c)])[..m - 1] == prev;
      ChunksPrefix(s, c, m - 1);
      PrefixThenChunk(s, m - 1, c);
    }
  }

  /** `ceil(|s| / c)` slices of size `c` reassemble `s` exactly, in order. */
  lemma ChunksReassemble<T>(s: seq<T>, c: nat)
    requires c > 0
    ensures Concat(Chunks(s, c, CeilDiv(|s|, c))) == s
  {
    ChunksPrefix(s, c, CeilDiv(|s|, c));
  }

  /**
   * Every one of the `ceil(|s| / c)` slices is non-empty and holds at most `c`
   * items; all but the last hold exactly `c`, and the last holds the remainder.
   */
  lemma ChunkSize<T>(s: seq<T>, c: nat, i: nat)
    requires c > 0 && i < CeilDiv(|s|, c)
    ensures 0 < |Chunk(s, i, c)| <= c
    ensures i + 1 < CeilDiv(|s|, c) ==> |Chunk(s, i, c)| == c
    ensures i + 1 == CeilDiv(|s|, c) ==> |Chunk(s, i, c)| == |s| - i * c
  {
    var k := CeilDiv(|s|, c);
    assert i * c <= (k - 1) * c < |s| by {
      MulMonotone(i, k - 1, c);
    }
    if i + 1 < k {
      assert (i + 1) * c <= (k - 1) * c by { MulMonotone(i + 1, k - 1, c); }
      assert i * c + c == (i + 1) * c;
    } else {
      assert i * c + c == k * c;
    }
  }

  lemma MulSucc(a: nat, c: nat)
    ensures a * c + c == (a + 1) * c
  {
  }

  lemma MulMonotone(a: nat, b: nat, c: nat)
    requires a <= b
    ensures a * c <= b * c
  {
  }

  /**
   * What reaches the remote when slice `i < k` is applied only if the server
   * accepted it: the accepted slices, concatenated in order.
   */
  function Kept<T>(s: seq<T>, c: nat, k: nat, accepted: nat -> bool): seq<T>
  {
    if k == 0 then []
    else Kept(s, c, k - 1, accepted) + (if accepted(k - 1) then Chunk(s, k - 1, c) else [])
  }

  /** When the server accepts every slice, the accepted slices are all the slices. */
  lemma {:induction false} KeptAll<T>(s: seq<T>, c: nat, k: nat, accepted: nat -> bool)
    requires forall i :: 0 <= i < k ==> accepted(i)
    ensures Kept(s, c, k, accepted) == Concat(Chunks(s, c, k))
  {
    if k > 0 {
      KeptAll(s, c, k - 1, accepted);
      var prev := Chunks(s, c, k - 1);
      var cs := prev + [Chunk(s, k - 1, c)];
      assert cs[..|cs| - 1] == prev;
    }
  }

  /** 215 URIs go out in three requests of 90, 90 and 35. */
  lemma ChunkExample(s: seq<int>)
    requires |s| == 215
    ensures CeilDiv(|s|, 90) == 3
    ensures |Chunk(s, 0, 90)| == 90 && |Chunk(s, 1, 90)| == 90 && |Chunk(s, 2, 90)| == 35
  {
  }
}
