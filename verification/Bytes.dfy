/** Words and their bytes in memory, lowest byte first. */
module Bytes {
  function Wide(b: bv8): bv64 { b as bv64 }

  function Low(v: bv64): bv8 { (v & 0xff) as bv8 }

  /** The i-th byte of a word in memory, lowest first. */
  function ByteOf(v: bv64, i: nat): bv8 {
    if i == 0 then Low(v) else if i == 1 then Low(v >> 8) else if i == 2 then Low(v >> 16)
    else if i == 3 then Low(v >> 24) else if i == 4 then Low(v >> 32) else if i == 5 then Low(v >> 40)
    else if i == 6 then Low(v >> 48) else Low(v >> 56)
  }

  function Join(b0: bv8, b1: bv8, b2: bv8, b3: bv8, b4: bv8, b5: bv8, b6: bv8, b7: bv8): bv64 {
    Wide(b0) | (Wide(b1) << 8) | (Wide(b2) << 16) | (Wide(b3) << 24)
    | (Wide(b4) << 32) | (Wide(b5) << 40) | (Wide(b6) << 48) | (Wide(b7) << 56)
  }

  function Get64(p: seq<bv8>, off: nat): bv64
    requires off + 8 <= |p|
  {
    Join(p[off], p[off + 1], p[off + 2], p[off + 3], p[off + 4], p[off + 5], p[off + 6], p[off + 7])
  }

  /** Which byte comes first. */
  lemma LowByteFirst()
    ensures Join(1, 2, 3, 4, 5, 6, 7, 8) == 0x0807_0605_0403_0201
  {}

  lemma JoinBytes(v: bv64)
    ensures Join(ByteOf(v, 0), ByteOf(v, 1), ByteOf(v, 2), ByteOf(v, 3),
                 ByteOf(v, 4), ByteOf(v, 5), ByteOf(v, 6), ByteOf(v, 7)) == v
  {}

  lemma BytesJoin(b0: bv8, b1: bv8, b2: bv8, b3: bv8, b4: bv8, b5: bv8, b6: bv8, b7: bv8)
    ensures var v := Join(b0, b1, b2, b3, b4, b5, b6, b7);
            && ByteOf(v, 0) == b0 && ByteOf(v, 1) == b1 && ByteOf(v, 2) == b2 && ByteOf(v, 3) == b3
            && ByteOf(v, 4) == b4 && ByteOf(v, 5) == b5 && ByteOf(v, 6) == b6 && ByteOf(v, 7) == b7
  {}

  /** The eight bytes at a place are those of a word. */
  predicate WordAt(p: seq<bv8>, off: nat, v: bv64)
    requires off + 8 <= |p|
  {
    forall i: nat :: off <= i < off + 8 ==> p[i] == ByteOf(v, i - off)
  }

  /** Eight bytes spell a word exactly when each of them is the word's. */
  lemma Spells(p: seq<bv8>, off: nat, v: bv64)
    requires off + 8 <= |p|
    ensures Get64(p, off) == v <==> WordAt(p, off, v)
  {
    hide Get64, WordAt;
    if WordAt(p, off, v) { Spelt(p, off, v); }
    if Get64(p, off) == v { SpeltBack(p, off); }
  }

  lemma Spelt(p: seq<bv8>, off: nat, v: bv64)
    requires off + 8 <= |p| && WordAt(p, off, v)
    ensures Get64(p, off) == v
  {
    hide Join, ByteOf, Wide;
    JoinBytes(v);
    assert p[off] == ByteOf(v, 0) && p[off + 1] == ByteOf(v, 1) && p[off + 2] == ByteOf(v, 2);
    assert p[off + 3] == ByteOf(v, 3) && p[off + 4] == ByteOf(v, 4) && p[off + 5] == ByteOf(v, 5);
    assert p[off + 6] == ByteOf(v, 6) && p[off + 7] == ByteOf(v, 7);
  }

  lemma SpeltBack(p: seq<bv8>, off: nat)
    requires off + 8 <= |p|
    ensures WordAt(p, off, Get64(p, off))
  {
    hide Join, ByteOf, Wide;
    BytesJoin(p[off], p[off + 1], p[off + 2], p[off + 3], p[off + 4], p[off + 5], p[off + 6], p[off + 7]);
    var v := Get64(p, off);
    forall i: nat | off <= i < off + 8 ensures p[i] == ByteOf(v, i - off) {
      var d := i - off;
      assert d == 0 || d == 1 || d == 2 || d == 3 || d == 4 || d == 5 || d == 6 || d == 7;
    }
  }
}
