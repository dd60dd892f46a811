/**
 * Little-endian halfwords and words over a byte buffer: the views
 * `ByteBuffer.asShortBuffer()` and `asIntBuffer()` give of a buffer in
 * `LITTLE_ENDIAN` order, indexed in halfwords and words.
 */
module LittleEndian {

  /** The little-endian halfword at halfword index `k`. */
  function HalfAt(s: seq<bv8>, k: nat): (h: bv16)
    requires 2 * k + 1 < |s|
  {
    (s[2 * k] as bv16) | ((s[2 * k + 1] as bv16) << 8)
  }

  /** The little-endian word at word index `k`. */
  function WordAt(s: seq<bv8>, k: nat): (w: bv32)
    requires 4 * k + 3 < |s|
  {
    (s[4 * k] as bv32) | ((s[4 * k + 1] as bv32) << 8) | ((s[4 * k + 2] as bv32) << 16) | ((s[4 * k + 3] as bv32) << 24)
  }

  /** `shortBuffer.put(k, h)`. */
  function StoreHalf(s: seq<bv8>, k: nat, h: bv16): (r: seq<bv8>)
    requires 2 * k + 1 < |s|
    ensures |r| == |s|
  {
    s[2 * k := (h & 0xFF) as bv8][2 * k + 1 := (h >> 8) as bv8]
  }

  /** `intBuffer.put(k, w)`. */
  function StoreWord(s: seq<bv8>, k: nat, w: bv32): (r: seq<bv8>)
    requires 4 * k + 3 < |s|
    ensures |r| == |s|
  {
    s[4 * k := (w & 0xFF) as bv8][4 * k + 1 := ((w >> 8) & 0xFF) as bv8]
      [4 * k + 2 := ((w >> 16) & 0xFF) as bv8][4 * k + 3 := (w >> 24) as bv8]
  }

  /** A stored halfword reads back, and no byte outside it changes. */
  lemma StoreHalfReadsBack(s: seq<bv8>, k: nat, h: bv16)
    requires 2 * k + 1 < |s|
    ensures HalfAt(StoreHalf(s, k, h), k) == h
    ensures forall i :: 0 <= i < |s| && i != 2 * k && i != 2 * k + 1 ==> StoreHalf(s, k, h)[i] == s[i]
  {
    var r := StoreHalf(s, k, h);
    assert r[2 * k] == (h & 0xFF) as bv8 && r[2 * k + 1] == (h >> 8) as bv8;
  }

  /** A stored word reads back, and no byte outside it changes. */
  lemma StoreWordReadsBack(s: seq<bv8>, k: nat, w: bv32)
    requires 4 * k + 3 < |s|
    ensures WordAt(StoreWord(s, k, w), k) == w
    ensures forall i :: 0 <= i < |s| && !(4 * k <= i < 4 * k + 4) ==> StoreWord(s, k, w)[i] == s[i]
  {
    var r := StoreWord(s, k, w);
    assert r[4 * k] == (w & 0xFF) as bv8 && r[4 * k + 1] == ((w >> 8) & 0xFF) as bv8;
    assert r[4 * k + 2] == ((w >> 16) & 0xFF) as bv8 && r[4 * k + 3] == (w >> 24) as bv8;
    ByteLanes(w);
  }

  lemma ByteLanes(w: bv32)
    ensures (((w & 0xFF) as bv8) as bv32) | ((((w >> 8) & 0xFF) as bv8) as bv32 << 8) |
      ((((w >> 16) & 0xFF) as bv8) as bv32 << 16) | (((w >> 24) as bv8) as bv32 << 24) == w
  {
  }

}
