/**
 * The check pattern: each block names its seed and its LBA, and every other word of it mixes
 * both with the word's own place.
 */
module BlkPattern {
  import opened Bytes

  const MAGIC: bv64 := 0x4b4c424d564e4700
  const KV_TAG: bv64 := 0x59454b5550474b00

  // ---- the mixing function ----

  function Shift30(z: bv64): bv64 { z ^ (z >> 30) }
  function Shift27(z: bv64): bv64 { z ^ (z >> 27) }
  function Shift31(z: bv64): bv64 { z ^ (z >> 31) }
  function Start(z: bv64): bv64 { z + 0x9e3779b97f4a7c15 }
  function First(z: bv64): bv64 { z * 0xbf58476d1ce4e5b9 }
  function Second(z: bv64): bv64 { z * 0x94d049bb133111eb }

  function SplitMix(z: bv64): bv64 { Shift31(Second(Shift27(First(Shift30(Start(z)))))) }

  // Each step undone: a xor-shift by shifting again, a product by the factor's inverse mod 2^64.
  function Back30(y: bv64): bv64 { y ^ (y >> 30) ^ (y >> 60) }
  function Back27(y: bv64): bv64 { y ^ (y >> 27) ^ (y >> 54) }
  function Back31(y: bv64): bv64 { y ^ (y >> 31) ^ (y >> 62) }
  function BackStart(y: bv64): bv64 { y - 0x9e3779b97f4a7c15 }
  function BackFirst(y: bv64): bv64 { y * 0x96de1b173f119089 }
  function BackSecond(y: bv64): bv64 { y * 0x319642b2d24d8ec3 }

  function Unmix(y: bv64): bv64 { BackStart(Back30(BackFirst(Back27(BackSecond(Back31(y)))))) }

  lemma Shift30Is(z: bv64)
    ensures Shift30(z) == z ^ (z >> 30) && Back30(z) == z ^ (z >> 30) ^ (z >> 60)
  {}

  lemma Shift30At(z: bv64)
    ensures Back30(z ^ (z >> 30)) == z && Shift30(z ^ (z >> 30) ^ (z >> 60)) == z
  {}

  lemma Shift30Undone(z: bv64)
    ensures Back30(Shift30(z)) == z && Shift30(Back30(z)) == z
  {
    hide *;
    Shift30Is(z);
    Shift30At(z);
  }

  lemma Shift27Is(z: bv64)
    ensures Shift27(z) == z ^ (z >> 27) && Back27(z) == z ^ (z >> 27) ^ (z >> 54)
  {}

  lemma Shift27At(z: bv64)
    ensures Back27(z ^ (z >> 27)) == z && Shift27(z ^ (z >> 27) ^ (z >> 54)) == z
  {}

  lemma Shift27Undone(z: bv64)
    ensures Back27(Shift27(z)) == z && Shift27(Back27(z)) == z
  {
    hide *;
    Shift27Is(z);
    Shift27At(z);
  }

  lemma Shift31Is(z: bv64)
    ensures Shift31(z) == z ^ (z >> 31) && Back31(z) == z ^ (z >> 31) ^ (z >> 62)
  {}

  lemma Shift31At(z: bv64)
    ensures Back31(z ^ (z >> 31)) == z && Shift31(z ^ (z >> 31) ^ (z >> 62)) == z
  {}

  lemma Shift31Undone(z: bv64)
    ensures Back31(Shift31(z)) == z && Shift31(Back31(z)) == z
  {
    hide *;
    Shift31Is(z);
    Shift31At(z);
  }

  lemma StartIs(z: bv64)
    ensures Start(z) == z + 0x9e3779b97f4a7c15 && BackStart(z) == z - 0x9e3779b97f4a7c15
  {}

  lemma StartAt(z: bv64)
    ensures BackStart(z + 0x9e3779b97f4a7c15) == z && Start(z - 0x9e3779b97f4a7c15) == z
  {}

  lemma StartUndone(z: bv64)
    ensures BackStart(Start(z)) == z && Start(BackStart(z)) == z
  {
    hide *;
    StartIs(z);
    StartAt(z);
  }

  lemma FirstIs(z: bv64)
    ensures First(z) == z * 0xbf58476d1ce4e5b9 && BackFirst(z) == z * 0x96de1b173f119089
  {}

  lemma FirstAt(z: bv64)
    ensures BackFirst(z * 0xbf58476d1ce4e5b9) == z && First(z * 0x96de1b173f119089) == z
  {}

  lemma FirstUndone(z: bv64)
    ensures BackFirst(First(z)) == z && First(BackFirst(z)) == z
  {
    hide *;
    FirstIs(z);
    FirstAt(z);
  }

  lemma SecondIs(z: bv64)
    ensures Second(z) == z * 0x94d049bb133111eb && BackSecond(z) == z * 0x319642b2d24d8ec3
  {}

  lemma SecondAt(z: bv64)
    ensures BackSecond(z * 0x94d049bb133111eb) == z && Second(z * 0x319642b2d24d8ec3) == z
  {}

  lemma SecondUndone(z: bv64)
    ensures BackSecond(Second(z)) == z && Second(BackSecond(z)) == z
  {
    hide *;
    SecondIs(z);
    SecondAt(z);
  }

  /** The first output of the published generator from state 0. */
  lemma MixOfZero()
    ensures SplitMix(0) == 0xe220a8397b1dcdaf
  {}

  /** The mixing function is a bijection of the 64-bit words; this is its inverse. */
  lemma MixIsBijection(z: bv64)
    ensures Unmix(SplitMix(z)) == z
    ensures SplitMix(Unmix(z)) == z
  {
    hide Shift30, Shift27, Shift31, Start, First, Second;
    hide Back30, Back27, Back31, BackStart, BackFirst, BackSecond;
    var a := Start(z);
    var b := First(Shift30(a));
    var c := Second(Shift27(b));
    Shift31Undone(c);
    SecondUndone(Shift27(b));
    Shift27Undone(b);
    FirstUndone(Shift30(a));
    Shift30Undone(a);
    StartUndone(z);
    var d := BackSecond(Back31(z));
    var e := BackFirst(Back27(d));
    StartUndone(Back30(e));
    Shift30Undone(e);
    FirstUndone(Back27(d));
    Shift27Undone(d);
    SecondUndone(Back31(z));
    Shift31Undone(z);
  }

  lemma MixOneToOne(x: bv64, y: bv64)
    ensures SplitMix(x) == SplitMix(y) <==> x == y
  {
    hide *;
    MixIsBijection(x);
    MixIsBijection(y);
  }

  // ---- words ----

  /** The LBA with the seed folded into its top byte. */
  function Fold(seed: bv8, lba: bv64): bv64 { lba ^ (Wide(seed) << 56) }

  function Offset(x: bv64, k: bv32): bv64 { x + (k as bv64) }

  function Word(seed: bv8, lba: bv64, k: bv32): bv64 {
    if k == 0 then MAGIC ^ Wide(seed)
    else if k == 1 then lba
    else SplitMix(Offset(SplitMix(Fold(seed, lba)), k))
  }

  // Fold and Offset undone.
  function Unfold(seed: bv8, x: bv64): bv64 { x ^ (Wide(seed) << 56) }
  function Onset(y: bv64, k: bv32): bv64 { y - (k as bv64) }
  function Counter(x: bv64, y: bv64): bv32 { ((y - x) & 0xffff_ffff) as bv32 }

  lemma OffsetIs(x: bv64, k: bv32)
    ensures Offset(x, k) == x + (k as bv64)
  {}

  lemma OnsetAt(x: bv64, k: bv32)
    ensures Onset(x + (k as bv64), k) == x
  {}

  lemma CounterAt(x: bv64, k: bv32)
    ensures Counter(x, x + (k as bv64)) == k
  {}

  lemma OffsetUndone(x: bv64, k: bv32)
    ensures Onset(Offset(x, k), k) == x && Counter(x, Offset(x, k)) == k
  {
    hide *;
    OffsetIs(x, k);
    OnsetAt(x, k);
    CounterAt(x, k);
  }

  lemma FoldUndone(seed: bv8, x: bv64)
    ensures Unfold(seed, Fold(seed, x)) == x
  {}

  lemma TopByte(s: bv8, l: bv64, t: bv8, m: bv64)
    ensures s != t && l >> 56 == 0 && m >> 56 == 0 ==> Fold(s, l) != Fold(t, m)
  {}

  /** A known answer: word 2 of the block of seed 0x5a at LBA 7. */
  lemma KnownWord()
    ensures Word(0x5a, 7, 2) == 0x9056290ea766a2fc
  {}

  /** Another LBA shows in every word but the first. */
  lemma LbaShows(seed: bv8, lba: bv64, other: bv64, k: bv32)
    requires k != 0
    ensures Word(seed, lba, k) == Word(seed, other, k) <==> lba == other
  {
    hide SplitMix, Fold, Offset, Unfold, Onset, Counter, Wide;
    if k != 1 {
      SameMixed(seed, lba, seed, other, k);
      FoldUndone(seed, lba);
      FoldUndone(seed, other);
    }
  }

  lemma SameMixed(seed: bv8, lba: bv64, seed': bv8, lba': bv64, k: bv32)
    requires k != 0 && k != 1
    ensures Word(seed, lba, k) == Word(seed', lba', k) <==> Fold(seed, lba) == Fold(seed', lba')
  {
    hide SplitMix, Fold, Offset, Unfold, Onset, Counter, Wide;
    var x, y := SplitMix(Fold(seed, lba)), SplitMix(Fold(seed', lba'));
    MixOneToOne(Offset(x, k), Offset(y, k));
    OffsetUndone(x, k);
    OffsetUndone(y, k);
    MixOneToOne(Fold(seed, lba), Fold(seed', lba'));
  }

  /** The mixed words of one block are all different. */
  lemma WordsDiffer(seed: bv8, lba: bv64, j: bv32, k: bv32)
    requires j != k && j != 0 && j != 1 && k != 0 && k != 1
    ensures Word(seed, lba, j) != Word(seed, lba, k)
  {
    hide SplitMix, Fold, Offset, Unfold, Onset, Counter, Wide;
    var x := SplitMix(Fold(seed, lba));
    MixOneToOne(Offset(x, j), Offset(x, k));
    OffsetUndone(x, j);
    OffsetUndone(x, k);
  }

  /**
   * Blocks of different seeds share a mixed word exactly when seed and LBA agree once the seed
   * is folded into the LBA's top byte: never for LBAs below 2^56.
   */
  lemma SeedShows(seed: bv8, lba: bv64, seed': bv8, lba': bv64, k: bv32)
    requires k != 0 && k != 1
    ensures Word(seed, lba, k) == Word(seed', lba', k) <==> Fold(seed, lba) == Fold(seed', lba')
    ensures seed != seed' && lba >> 56 == 0 && lba' >> 56 == 0 ==> Word(seed, lba, k) != Word(seed', lba', k)
  {
    hide Word, Fold;
    SameMixed(seed, lba, seed', lba', k);
    TopByte(seed, lba, seed', lba');
  }

  /** From LBA 2^56 on a seed can hide: these two blocks differ in their first two words only. */
  lemma SeedHides(k: bv32)
    requires k != 0 && k != 1
    ensures Word(0, 0x0100_0000_0000_0000, k) == Word(1, 0, k)
  {
    hide Word;
    FoldMeets();
    hide Fold;
    SameMixed(0, 0x0100_0000_0000_0000, 1, 0, k);
  }

  lemma FoldMeets()
    ensures Fold(0, 0x0100_0000_0000_0000) == Fold(1, 0)
  {}

  // ---- blocks ----

  predicate Sized(len: nat) { len % 8 == 0 && 16 <= len <= 8 * 0xffff_ffff }

  /** The block of a seed and an LBA. */
  ghost function Filled(len: nat, seed: bv8, lba: bv64): (p: seq<bv8>)
    requires len <= 8 * 0xffff_ffff
    ensures |p| == len
  {
    seq(len, i requires 0 <= i < len => ByteOf(Word(seed, lba, (i / 8) as bv32), i % 8))
  }

  /** memcpy of one word. */
  method Put64(p: array<bv8>, off: nat, v: bv64)
    requires off + 8 <= p.Length
    modifies p
    ensures WordAt(p[..], off, v)
    ensures forall j :: 0 <= j < p.Length && !(off <= j < off + 8) ==> p[j] == old(p[j])
  {
    hide ByteOf;
    var i := 0;
    while i < 8
      invariant i <= 8
      invariant forall j: nat :: off <= j < off + i ==> p[j] == ByteOf(v, j - off)
      invariant forall j :: 0 <= j < p.Length && !(off <= j < off + i) ==> p[j] == old(p[j])
    {
      p[off + i] := ByteOf(v, i);
      i := i + 1;
    }
  }

  /** The word of a block's pattern is the word its bytes there spell. */
  lemma FilledWord(len: nat, seed: bv8, lba: bv64, k: nat)
    requires len <= 8 * 0xffff_ffff && 8 * k + 8 <= len
    ensures Get64(Filled(len, seed, lba), 8 * k) == Word(seed, lba, k as bv32)
    ensures WordAt(Filled(len, seed, lba), 8 * k, Word(seed, lba, k as bv32))
  {
    hide ByteOf, Word, Get64;
    var v := Word(seed, lba, k as bv32);
    forall i: nat | 8 * k <= i < 8 * k + 8 ensures Filled(len, seed, lba)[i] == ByteOf(v, i - 8 * k) {
      assert i / 8 == k && i % 8 == i - 8 * k;
    }
    Spells(Filled(len, seed, lba), 8 * k, v);
  }

  method Fill(p: array<bv8>, seed: bv8, lba: bv64)
    requires Sized(p.Length)
    modifies p
    ensures p[..] == Filled(p.Length, seed, lba)
  {
    hide ByteOf, Word, Filled;
    ghost var want := Filled(p.Length, seed, lba);
    var k := 0;
    while k < p.Length / 8
      invariant k <= p.Length / 8
      invariant forall j :: 0 <= j < 8 * k ==> p[j] == want[j]
    {
      FilledWord(p.Length, seed, lba, k);
      Put64(p, 8 * k, Word(seed, lba, k as bv32));
      assert forall j :: 8 * k <= j < 8 * k + 8 ==> p[j] == p[..][j] == want[j];
      k := k + 1;
    }
  }

  datatype Verdict = BLK_OK | BLK_FILL(fill: bv8) | BLK_CROSS(at: bv64) | BLK_OLDSEED(was: bv8, at: bv64) | BLK_BAD

  predicate Uniform(p: seq<bv8>) { forall i :: 0 <= i < |p| ==> p[i] == p[0] }

  predicate Ours(w: bv64) { w & 0xffff_ffff_ffff_ff00 == MAGIC }

  /** What a block is, judged by its bytes. */
  ghost function Judge(p: seq<bv8>, seed: bv8, lba: bv64): Verdict
    requires Sized(|p|)
  {
    if p == Filled(|p|, seed, lba) then BLK_OK
    else if Uniform(p) then BLK_FILL(p[0])
    else if !Ours(Get64(p, 0)) then BLK_BAD
    else if Low(Get64(p, 0)) != seed then BLK_OLDSEED(Low(Get64(p, 0)), Get64(p, 8))
    else if Get64(p, 8) != lba then BLK_CROSS(Get64(p, 8))
    else BLK_BAD
  }

  /** The block begins as that seed's and LBA's block does: it names them. */
  ghost predicate HeadOf(p: seq<bv8>, seed: bv8, lba: bv64)
    requires Sized(|p|)
  {
    p[..16] == Filled(|p|, seed, lba)[..16]
  }

  lemma HeadWord(seed: bv8, w: bv64)
    ensures w == MAGIC ^ Wide(seed) <==> Ours(w) && Low(w) == seed
  {}

  lemma TwoWords(p: seq<bv8>, v0: bv64, v1: bv64, q: seq<bv8>)
    requires 16 <= |p| == |q| && WordAt(q, 0, v0) && WordAt(q, 8, v1)
    ensures p[..16] == q[..16] <==> WordAt(p, 0, v0) && WordAt(p, 8, v1)
  {
    hide ByteOf;
    if p[..16] == q[..16] {
      forall i | 0 <= i < 16 ensures p[i] == q[i] { assert p[..16][i] == q[..16][i]; }
    } else if WordAt(p, 0, v0) && WordAt(p, 8, v1) {
      forall i: nat | i < 16 ensures p[i] == q[i] {
        assert i < 8 ==> p[i] == ByteOf(v0, i - 0);
        assert i >= 8 ==> p[i] == ByteOf(v1, i - 8);
      }
    }
  }

  lemma HeadReads(p: seq<bv8>, seed: bv8, lba: bv64)
    requires Sized(|p|)
    ensures HeadOf(p, seed, lba) <==> Ours(Get64(p, 0)) && Low(Get64(p, 0)) == seed && Get64(p, 8) == lba
  {
    hide ByteOf, Get64, Ours, Low, Filled, WordAt;
    var q := Filled(|p|, seed, lba);
    FilledWord(|p|, seed, lba, 0);
    FilledWord(|p|, seed, lba, 1);
    WordZero(seed, lba);
    assert WordAt(q, 8 * 0, MAGIC ^ Wide(seed)) && WordAt(q, 8 * 1, lba);
    TwoWords(p, MAGIC ^ Wide(seed), lba, q);
    Spells(p, 0, MAGIC ^ Wide(seed));
    Spells(p, 8, lba);
    HeadWord(seed, Get64(p, 0));
  }

  /** A block that names a seed and an LBA is not of one byte. */
  lemma HeadNotUniform(p: seq<bv8>, seed: bv8, lba: bv64)
    requires Sized(|p|) && HeadOf(p, seed, lba)
    ensures !Uniform(p)
  {
    hide ByteOf, Get64, Ours, Low, Word;
    FilledWord(|p|, seed, lba, 0);
    WordZero(seed, lba);
    FirstWord(seed);
    var q := Filled(|p|, seed, lba);
    assert p[1] == p[..16][1] == q[..16][1] == q[1] && p[2] == p[..16][2] == q[..16][2] == q[2];
    hide Filled;
    assert q[1] == ByteOf(MAGIC ^ Wide(seed), 1) && q[2] == ByteOf(MAGIC ^ Wide(seed), 2);
  }

  predicate AllOf(p: seq<bv8>, b: bv8) { forall i :: 0 <= i < |p| ==> p[i] == b }

  lemma OneByte(p: seq<bv8>, b: bv8)
    requires p != []
    ensures AllOf(p, b) <==> Uniform(p) && p[0] == b
  {}

  /** The right verdict, said of the bytes alone. */
  ghost predicate Told(v: Verdict, p: seq<bv8>, seed: bv8, lba: bv64)
    requires Sized(|p|)
  {
    && (v == BLK_OK <==> p == Filled(|p|, seed, lba))
    && (forall b :: v == BLK_FILL(b) <==> AllOf(p, b))
    && (forall x :: v == BLK_CROSS(x) <==> x != lba && HeadOf(p, seed, x))
    && (forall w, x :: v == BLK_OLDSEED(w, x) <==> w != seed && HeadOf(p, w, x))
  }

  lemma JudgeTells(p: seq<bv8>, seed: bv8, lba: bv64)
    requires Sized(|p|)
    ensures Told(Judge(p, seed, lba), p, seed, lba)
  {
    hide ByteOf, Get64, Ours, Low, Filled, HeadOf;
    BlockNames(|p|, seed, lba);
    forall w, x
      ensures HeadOf(p, w, x) <==> Ours(Get64(p, 0)) && Low(Get64(p, 0)) == w && Get64(p, 8) == x
    {
      HeadReads(p, w, x);
    }
    if Ours(Get64(p, 0)) {
      HeadNotUniform(p, Low(Get64(p, 0)), Get64(p, 8));
    }
    forall b
      ensures AllOf(p, b) <==> Uniform(p) && p[0] == b
    {
      OneByte(p, b);
    }
  }

  /** A block that names the right seed and LBA but is wrong further on is bad, and nothing else. */
  lemma TornTold(v: Verdict, p: seq<bv8>, seed: bv8, lba: bv64)
    requires Sized(|p|) && Told(v, p, seed, lba)
    requires HeadOf(p, seed, lba) && p != Filled(|p|, seed, lba)
    ensures v == BLK_BAD
  {
    hide ByteOf, Get64, Ours, Low, Filled, HeadOf;
    HeadNotUniform(p, seed, lba);
    HeadReads(p, seed, lba);
    if v.BLK_CROSS? { HeadReads(p, seed, v.at); }
    if v.BLK_OLDSEED? { HeadReads(p, v.was, v.at); }
    forall b ensures !AllOf(p, b) { OneByte(p, b); }
  }

  /** The first place where two blocks differ. */
  predicate FirstDiff(p: seq<bv8>, q: seq<bv8>, off: nat)
    requires |p| == |q|
  {
    && off <= |p| && (forall j :: 0 <= j < off ==> p[j] == q[j]) && (off < |p| ==> p[off] != q[off])
  }

  method Check(p: seq<bv8>, seed: bv8, lba: bv64) returns (v: Verdict, badOff: nat)
    requires Sized(|p|)
    ensures v == Judge(p, seed, lba) && Told(v, p, seed, lba)
    ensures FirstDiff(p, Filled(|p|, seed, lba), badOff)
  {
    hide ByteOf, Word, Get64, Filled, Ours, Low, Told;
    JudgeTells(p, seed, lba);
    ghost var want := Filled(|p|, seed, lba);
    var len := |p|;
    badOff := len;
    var k := 0;
    while k < len / 8
      invariant k <= len / 8 && badOff == len
      invariant forall j :: 0 <= j < 8 * k ==> p[j] == want[j]
    {
      FilledWord(len, seed, lba, k);
      Spells(p, 8 * k, Word(seed, lba, k as bv32));
      if Get64(p, 8 * k) != Word(seed, lba, k as bv32) {
        var e := Word(seed, lba, k as bv32);
        var b := 0;
        while b < 8 && ByteOf(e, b) == p[8 * k + b]
          invariant b <= 8 && forall i: nat :: 8 * k <= i < 8 * k + b ==> p[i] == ByteOf(e, i - 8 * k)
        {
          b := b + 1;
        }
        assert b < 8;
        badOff := 8 * k + b;
        assert FirstDiff(p, want, badOff);
        break;
      }
      k := k + 1;
    }
    if badOff == len {
      assert p == want;
      return BLK_OK, badOff;
    }
    assert p != want;
    var q := 1;
    while q < len && p[q] == p[0]
      invariant 1 <= q <= len && forall j :: 0 <= j < q ==> p[j] == p[0]
    {
      q := q + 1;
    }
    if q == len {
      return BLK_FILL(p[0]), badOff;
    }
    assert !Uniform(p);
    var w0 := Get64(p, 0);
    v := BLK_BAD;
    if Ours(w0) {
      if Low(w0) != seed {
        v := BLK_OLDSEED(Low(w0), Get64(p, 8));
      } else if Get64(p, 8) != lba {
        v := BLK_CROSS(Get64(p, 8));
      }
    }
  }

  // ---- what the check tells ----

  lemma FirstWord(seed: bv8)
    ensures Ours(MAGIC ^ Wide(seed)) && Low(MAGIC ^ Wide(seed)) == seed
    ensures ByteOf(MAGIC ^ Wide(seed), 1) != ByteOf(MAGIC ^ Wide(seed), 2)
  {}

  /** A pattern block names its seed and LBA, and is never of one byte. */
  lemma BlockNames(len: nat, seed: bv8, lba: bv64)
    requires Sized(len)
    ensures var p := Filled(len, seed, lba);
            && Get64(p, 0) == MAGIC ^ Wide(seed) && Ours(Get64(p, 0)) && Low(Get64(p, 0)) == seed
            && Get64(p, 8) == lba && !Uniform(p)
  {
    hide ByteOf, Get64, Ours, Low, Filled;
    var p := Filled(len, seed, lba);
    FilledWord(len, seed, lba, 0);
    FilledWord(len, seed, lba, 1);
    FirstWord(seed);
    assert Get64(p, 8 * 0) == MAGIC ^ Wide(seed) by { WordZero(seed, lba); }
    assert p[1] == ByteOf(Word(seed, lba, 0), 1) && p[2] == ByteOf(Word(seed, lba, 0), 2);
  }

  lemma WordZero(seed: bv8, lba: bv64)
    ensures Word(seed, lba, 0 as bv32) == MAGIC ^ Wide(seed)
  {}

  /** Two pattern blocks are equal only if seed and LBA are. */
  lemma BlocksDiffer(len: nat, seed: bv8, lba: bv64, seed': bv8, lba': bv64)
    requires Sized(len)
    ensures Filled(len, seed, lba) == Filled(len, seed', lba') <==> seed == seed' && lba == lba'
  {
    hide ByteOf, Get64, Ours, Low, Filled;
    BlockNames(len, seed, lba);
    BlockNames(len, seed', lba');
  }

  /** A block of another LBA is reported as that LBA's. */
  lemma CrossTold(len: nat, seed: bv8, lba: bv64, other: bv64)
    requires Sized(len) && other != lba
    ensures Judge(Filled(len, seed, other), seed, lba) == BLK_CROSS(other)
  {
    hide ByteOf, Get64, Ours, Low, Filled;
    BlockNames(len, seed, other);
    BlocksDiffer(len, seed, other, seed, lba);
  }

  /** A block of another seed is reported with that seed and its LBA. */
  lemma OldSeedTold(len: nat, seed: bv8, lba: bv64, was: bv8, other: bv64)
    requires Sized(len) && was != seed
    ensures Judge(Filled(len, was, other), seed, lba) == BLK_OLDSEED(was, other)
  {
    hide ByteOf, Get64, Ours, Low, Filled;
    BlockNames(len, was, other);
    BlocksDiffer(len, was, other, seed, lba);
  }

  /** A block of one byte is reported as such. */
  lemma FillTold(p: seq<bv8>, seed: bv8, lba: bv64)
    requires Sized(|p|) && Uniform(p)
    ensures Judge(p, seed, lba) == BLK_FILL(p[0])
  {
    hide ByteOf, Get64, Ours, Low, Filled;
    BlockNames(|p|, seed, lba);
  }

  /** Misplaced data shows in every word after the first: no stretch of eight bytes can pass. */
  lemma MisplacedEverywhere(len: nat, seed: bv8, lba: bv64, other: bv64, k: nat)
    requires Sized(len) && other != lba && 1 <= k < len / 8
    ensures Get64(Filled(len, seed, other), 8 * k) != Get64(Filled(len, seed, lba), 8 * k)
  {
    hide Word, Get64, Filled;
    FilledWord(len, seed, lba, k);
    FilledWord(len, seed, other, k);
    NotZero(k);
    LbaShows(seed, lba, other, k as bv32);
  }

  lemma NotZero(k: nat)
    requires 1 <= k <= 0xffff_ffff
    ensures k as bv32 != 0
  {}

  // ---- keys ----

  /** The key of an index: the index, then the tag with the seed in its low byte. */
  ghost function KvKey(seed: bv8, idx: bv64): (key: seq<bv8>)
    ensures |key| == 16
  {
    seq(16, i requires 0 <= i < 16 => ByteOf(if i < 8 then idx else KV_TAG ^ Wide(seed), i % 8))
  }

  method MakeKey(key: array<bv8>, seed: bv8, idx: bv64)
    requires key.Length == 16
    modifies key
    ensures key[..] == KvKey(seed, idx)
  {
    hide ByteOf;
    var hi := KV_TAG ^ Wide(seed);
    var i := 0;
    while i < 8
      invariant i <= 8
      invariant forall j :: 0 <= j < i ==> key[j] == ByteOf(idx, j) && key[8 + j] == ByteOf(hi, j)
    {
      key[i] := ByteOf(idx, i);
      key[8 + i] := ByteOf(hi, i);
      i := i + 1;
    }
  }

  lemma TagLow(seed: bv8)
    ensures Low(KV_TAG ^ Wide(seed)) == seed
  {}

  /** Keys of different seeds or indexes are different, and a key's index can be read back. */
  lemma KeysApart(seed: bv8, idx: bv64, seed': bv8, idx': bv64)
    ensures KvKey(seed, idx) == KvKey(seed', idx') <==> seed == seed' && idx == idx'
    ensures Get64(KvKey(seed, idx), 0) == idx && Get64(KvKey(seed, idx), 8) == 0x5945_4b55_5047_4b00 ^ Wide(seed)
  {
    hide ByteOf, Get64, Low;
    var a, b := KvKey(seed, idx), KvKey(seed', idx');
    Spells(a, 0, idx);
    Spells(b, 0, idx');
    Spells(a, 8, KV_TAG ^ Wide(seed));
    Spells(b, 8, KV_TAG ^ Wide(seed'));
    TagLow(seed);
    TagLow(seed');
  }
}
