/**
 * The List command: the bytes of a page, how a client takes them apart, and how it walks a
 * table page by page.
 */
module KvList {
  import opened KvSpec
  import opened KvTable
  import opened KvIov

  // ---- one page ----

  /** A record is a 16-bit key length and the key, padded to a multiple of four bytes. */
  function RecLen(klen: nat): (n: nat)
    ensures n >= klen + 2 && n % 4 == 0 && n < klen + 6
  {
    (2 + klen + 3) / 4 * 4
  }

  function Record(k: Key): (r: seq<byte>)
    requires |k| < 256
    ensures |r| == RecLen(|k|)
  {
    [|k|, 0] + k + Zeros(RecLen(|k|) - 2 - |k|)
  }

  predicate AllKeysFit(ks: seq<Key>) { forall i :: 0 <= i < |ks| ==> 1 <= |ks[i]| <= MAX_KEY }

  function Encode(ks: seq<Key>): seq<byte>
    requires AllKeysFit(ks)
  {
    if ks == [] then [] else Record(ks[0]) + Encode(ks[1..])
  }

  /** How many leading keys a page has room for. */
  function Fit(ks: seq<Key>, room: nat): (n: nat)
    ensures n <= |ks|
  {
    if ks == [] || RecLen(|ks[0]|) > room then 0 else 1 + Fit(ks[1..], room - RecLen(|ks[0]|))
  }

  function Le32(n: nat): (r: seq<byte>)
    requires n < W32
    ensures |r| == 4
  {
    [n % 256, n / 256 % 256, n / 65536 % 256, n / 0x100_0000]
  }

  lemma {:induction false} EncodeSplit(a: seq<Key>, b: seq<Key>)
    requires AllKeysFit(a) && AllKeysFit(b)
    ensures Encode(a + b) == Encode(a) + Encode(b)
  {
    if a == [] {
      assert a + b == b;
    } else {
      assert (a + b)[1..] == a[1..] + b;
      EncodeSplit(a[1..], b);
    }
  }

  lemma {:induction false} EncodeLong(ks: seq<Key>)
    requires AllKeysFit(ks)
    ensures |Encode(ks)| >= 4 * |ks|
  {
    if ks != [] { EncodeLong(ks[1..]); }
  }

  /** Taking keys until the next one does not fit is taking as many as fit. */
  lemma {:induction false} FitAt(ks: seq<Key>, n: nat, room: nat)
    requires AllKeysFit(ks) && n <= |ks| && |Encode(ks[..n])| <= room
    requires n < |ks| ==> |Encode(ks[..n])| + RecLen(|ks[n]|) > room
    ensures Fit(ks, room) == n
    decreases n
  {
    hide Record, RecLen;
    if n > 0 {
      assert ks[..n][1..] == ks[1..][..n - 1];
      assert |Encode(ks[..n])| == RecLen(|ks[0]|) + |Encode(ks[1..][..n - 1])|;
      FitAt(ks[1..], n - 1, room - RecLen(|ks[0]|));
    }
  }

  lemma {:induction false} FitFits(ks: seq<Key>, room: nat)
    requires AllKeysFit(ks)
    ensures |Encode(ks[..Fit(ks, room)])| <= room
  {
    if ks != [] && RecLen(|ks[0]|) <= room {
      var n := Fit(ks[1..], room - RecLen(|ks[0]|));
      FitFits(ks[1..], room - RecLen(|ks[0]|));
      assert ks[..n + 1][1..] == ks[1..][..n];
    }
  }

  /** A page: how many keys, their records, zeros. */
  function Page(ks: seq<Key>, size: nat): (r: seq<byte>)
    requires AllKeysFit(ks) && 4 <= size < W32
    ensures |r| == size
  {
    var n := Fit(ks, size - 4);
    FitFits(ks, size - 4);
    EncodeLong(ks[..n]);
    Le32(n) + Encode(ks[..n]) + Zeros(size - 4 - |Encode(ks[..n])|)
  }

  function FourBytes(b0: int, b1: int, b2: int, b3: int): int {
    b0 + 0x100 * b1 + 0x1_0000 * b2 + 0x100_0000 * b3
  }

  /** The page begins with the number of its records, four bytes, low byte first. */
  lemma PageCounts(ks: seq<Key>, size: nat)
    requires AllKeysFit(ks) && 4 <= size < W32
    ensures var p := Page(ks, size); FourBytes(p[0], p[1], p[2], p[3]) == Fit(ks, size - 4)
  {
    var n := Fit(ks, size - 4);
    FitFits(ks, size - 4);
    EncodeLong(ks[..n]);
    LowFirst(n);
  }

  lemma LowFirst(n: nat)
    requires n < W32
    ensures var b := Le32(n); FourBytes(b[0], b[1], b[2], b[3]) == n
  {
    var q, r, s := n / 256, n / 65536, n / 0x100_0000;
    assert n == 256 * q + n % 256;
    NextByte(n, 256);
    NextByte(n, 65536);
  }

  /** The byte above a boundary, and what is above that. */
  lemma NextByte(n: nat, m: nat)
    requires m == 256 || m == 65536
    ensures n / m == 256 * (n / (256 * m)) + n / m % 256
  {
    assert n / m / 256 == n / (256 * m);
  }

  /** The records of a page, before, at and after one of them. */
  lemma EncodeAround(ks: seq<Key>, i: nat)
    requires AllKeysFit(ks) && i < |ks|
    ensures AllKeysFit(ks[..i]) && AllKeysFit(ks[i + 1..])
    ensures Encode(ks) == Encode(ks[..i]) + (Record(ks[i]) + Encode(ks[i + 1..]))
  {
    hide Record;
    assert ks == ks[..i] + ks[i..];
    EncodeSplit(ks[..i], ks[i..]);
    assert ks[i..][1..] == ks[i + 1..];
  }

  /** The i-th record: length byte, zero, the key; it starts where the records before it end. */
  lemma RecordStands(ks: seq<Key>, size: nat, i: nat)
    requires AllKeysFit(ks) && 4 <= size < W32 && i < Fit(ks, size - 4)
    ensures AllKeysFit(ks[..i])
    ensures var p, off := Page(ks, size), 4 + |Encode(ks[..i])|;
      && off + 2 + |ks[i]| <= size && p[off] == |ks[i]| && p[off + 1] == 0
      && p[off + 2..off + 2 + |ks[i]|] == ks[i]
  {
    hide Record, Encode, Fit, Le32;
    var n := Fit(ks, size - 4);
    FitFits(ks, size - 4);
    EncodeLong(ks[..n]);
    EncodeAround(ks[..n], i);
    assert ks[..n][..i] == ks[..i] && ks[..n][i] == ks[i];
    RecordBegins(ks[i]);
    PageParts(Le32(n), Encode(ks[..i]), Record(ks[i]), Encode(ks[..n][i + 1..]),
              Zeros(size - 4 - |Encode(ks[..n])|), |ks[i]|);
  }

  lemma PageParts(c: seq<byte>, a: seq<byte>, r: seq<byte>, b: seq<byte>, z: seq<byte>, n: nat)
    requires |c| == 4 && 2 + n <= |r|
    ensures var p, off := c + (a + (r + b)) + z, 4 + |a|;
            off + 2 + n <= |p| && p[off] == r[0] && p[off + 1] == r[1] && p[off + 2..off + 2 + n] == r[2..2 + n]
  {
    assert c + (a + (r + b)) + z == (c + a) + (r + (b + z));
    Inside(c + a, r, b + z, n);
  }

  lemma RecordBegins(k: Key)
    requires |k| < 256
    ensures Record(k)[0] == |k| && Record(k)[1] == 0 && Record(k)[2..2 + |k|] == k
  {}

  lemma Inside(a: seq<byte>, r: seq<byte>, b: seq<byte>, n: nat)
    requires 2 + n <= |r|
    ensures var p := a + (r + b); p[|a|] == r[0] && p[|a| + 1] == r[1] && p[|a| + 2..|a| + 2 + n] == r[2..2 + n]
  {}

  /** From the start key on if it is there, else from the beginning. */
  function From(ks: seq<Key>, start: Key): (r: seq<Key>) {
    if start in ks then ks[IndexOf(ks, start)..] else ks
  }

  function IndexOf(ks: seq<Key>, k: Key): (i: nat)
    requires k in ks
    ensures i < |ks| && ks[i] == k
  {
    if ks[0] == k then 0 else 1 + IndexOf(ks[1..], k)
  }

  // ---- the table as a list of keys ----

  ghost function ChainKeys(ch: seq<Entry>): (ks: seq<Key>)
    reads ch`key
    ensures |ks| == |ch| && forall i :: 0 <= i < |ch| ==> ks[i] == ch[i].key
  {
    if ch == [] then [] else [ch[0].key] + ChainKeys(ch[1..])
  }

  ghost function Members(chains: seq<seq<Entry>>): (s: set<Entry>)
    ensures forall b: nat :: b < |chains| ==> forall e :: e in chains[b] ==> e in s
  {
    set b: nat, e | b < |chains| && e in chains[b] :: e
  }

  /** Bucket by bucket from b on, each in chain order. */
  ghost function TableKeys(chains: seq<seq<Entry>>, b: nat): seq<Key>
    reads Members(chains)`key
    decreases |chains| - b
  {
    if b >= |chains| then [] else ChainKeys(chains[b]) + TableKeys(chains, b + 1)
  }

  /** Entries of a chain that a walk can use. */
  ghost predicate Walkable(head: Entry?, ch: seq<Entry>)
    reads ch
  {
    && ChainOk(head, ch)
    && forall i :: 0 <= i < |ch| ==> ch[i].klen == |ch[i].key| && 1 <= |ch[i].key| <= MAX_KEY
  }

  /** What a page under construction holds: records of the keys taken so far, then zeros. */
  ghost predicate Written(out: array<byte>, off: nat, taken: seq<Key>)
    reads out
  {
    && AllKeysFit(taken) && off == 4 + |Encode(taken)| <= out.Length
    && out[..] == Zeros(4) + Encode(taken) + Zeros(out.Length - off)
  }

  /** One record goes in. */
  method PutRecord(out: array<byte>, off: nat, key: Key, ghost taken: seq<Key>)
    requires Written(out, off, taken) && 1 <= |key| <= MAX_KEY && off + RecLen(|key|) <= out.Length
    modifies out
    ensures Written(out, off + RecLen(|key|), taken + [key])
  {
    hide Encode, RecLen;
    out[off] := |key|;
    out[off + 1] := 0;
    forall k | 0 <= k < |key| {
      out[off + 2 + k] := key[k];
    }
    RecordOf(taken, key);
    assert out[..] == Zeros(4) + Encode(taken) + Record(key) + Zeros(out.Length - off - RecLen(|key|));
  }

  lemma RecordOf(taken: seq<Key>, key: Key)
    requires AllKeysFit(taken) && 1 <= |key| <= MAX_KEY
    ensures Encode(taken + [key]) == Encode(taken) + Record(key)
  {
    hide Record;
    EncodeSplit(taken, [key]);
    assert Encode([key]) == Record(key) by { assert [key][1..] == []; }
  }

  /** A chain, or the rest of one, as far as the page has room. */
  method WalkChain(head: Entry?, ghost ch: seq<Entry>, out: array<byte>, off0: nat, ghost taken: seq<Key>)
    returns (off: nat, n: nat, full: bool)
    requires Walkable(head, ch) && Written(out, off0, taken)
    modifies out
    ensures n <= |ch| && Written(out, off, taken + ChainKeys(ch)[..n])
    ensures if full then n < |ch| && off + RecLen(|ch[n].key|) > out.Length else n == |ch|
  {
    hide Written, Encode, Record, ChainKeys;
    var e := head;
    ghost var ks := ChainKeys(ch);
    off, n, full := off0, 0, false;
    assert taken + ks[..0] == taken;
    while e != null
      invariant n <= |ch| && e == (if n < |ch| then ch[n] else null)
      invariant Written(out, off, taken + ks[..n])
      decreases |ch| - n
    {
      var sz := RecLen(e.klen);
      if off + sz > out.Length {
        return off, n, true;
      }
      PutRecord(out, off, e.key, taken + ks[..n]);
      assert taken + ks[..n] + [e.key] == taken + ks[..n + 1];
      off, n, e := off + sz, n + 1, e.next;
    }
    assert ks[..n] == ks;
  }

  predicate Distinct(ks: seq<Key>) { forall i, j :: 0 <= i < j < |ks| ==> ks[i] != ks[j] }

  /** A bucket's chain, seen as keys: no repeats, all of this bucket, and all of this bucket's. */
  lemma BucketKeys(kv: Kv, b: nat)
    requires kv.Valid() && b < |kv.g.chains|
    ensures b < NBUCKET == |kv.g.chains|
    ensures Distinct(ChainKeys(kv.g.chains[b])) && AllKeysFit(ChainKeys(kv.g.chains[b]))
    ensures forall k :: k in ChainKeys(kv.g.chains[b]) ==> k in kv.g.at && |k| <= MAX_KEY && Hash(k) == b
    ensures forall k :: k in kv.g.at ==> |k| <= MAX_KEY && (Hash(k) == b ==> k in ChainKeys(kv.g.chains[b]))
  {
    hide Hash, Kv.ValuesInv, Kv.PoolInv, Kv.BufsInv, Kv.CountsInv, ChainKeys;
    var ch := kv.g.chains[b];
    assert Kv.BucketInv(kv.bucket[b], b, ch, kv.g.at, kv.g.ents);
    forall k | k in kv.g.at && Hash(k) == b ensures k in ChainKeys(ch) {
      var i :| 0 <= i < |ch| && ch[i] == kv.g.at[k];
      assert ChainKeys(ch)[i] == k;
    }
  }

  /** From bucket b on: no repeats, and exactly the keys whose bucket is b or later. */
  lemma {:induction false} KeysFrom(kv: Kv, b: nat)
    requires kv.Valid() && b <= |kv.g.chains| == NBUCKET
    ensures Distinct(TableKeys(kv.g.chains, b)) && AllKeysFit(TableKeys(kv.g.chains, b))
    ensures forall k :: k in kv.g.at ==> |k| <= MAX_KEY
    ensures forall k :: k in TableKeys(kv.g.chains, b) <==> k in kv.g.at && Hash(k) >= b
    decreases NBUCKET - b
  {
    hide Hash, Kv.Valid, ChainKeys;
    if b < NBUCKET {
      BucketKeys(kv, b);
      KeysFrom(kv, b + 1);
    } else {
      KeyLengths(kv);
    }
  }

  lemma KeyLengths(kv: Kv)
    requires kv.Valid()
    ensures forall k :: k in kv.g.at ==> |k| <= MAX_KEY && Hash(k) < NBUCKET
  {
    hide Hash, Kv.ChainsInv, Kv.ValuesInv, Kv.PoolInv, Kv.BufsInv, Kv.CountsInv;
  }

  /** The order List uses names every key of the map exactly once. */
  lemma KeysOnce(kv: Kv)
    requires kv.Valid()
    ensures Distinct(TableKeys(kv.g.chains, 0)) && AllKeysFit(TableKeys(kv.g.chains, 0))
    ensures forall k :: k in TableKeys(kv.g.chains, 0) <==> k in kv.g.M
  {
    hide Hash, Kv.Valid;
    kv.ChainCount();
    kv.KeyFacts();
    KeysFrom(kv, 0);
  }

  lemma {:induction false} KeysBefore(chains: seq<seq<Entry>>, b: nat) returns (before: seq<Key>)
    requires b <= |chains|
    ensures TableKeys(chains, 0) == before + TableKeys(chains, b)
  {
    if b == 0 {
      before := [];
    } else {
      before := KeysBefore(chains, b - 1);
      assert TableKeys(chains, b - 1) == ChainKeys(chains[b - 1]) + TableKeys(chains, b);
      before := before + ChainKeys(chains[b - 1]);
    }
  }

  lemma {:induction false} IndexUnique(ks: seq<Key>, k: Key, i: nat)
    requires i < |ks| && ks[i] == k && Distinct(ks)
    ensures IndexOf(ks, k) == i
  {}

  ghost function EntryAt(ch: seq<Entry>, i: nat): Entry? { if i < |ch| then ch[i] else null }

  /** The keys of a bucket's chain from place i on, then those of the later buckets. */
  ghost function KeysAfter(chains: seq<seq<Entry>>, b: nat, i: nat): seq<Key>
    reads Members(chains)`key
    requires b < |chains| && i <= |chains[b]|
  {
    ChainKeys(chains[b])[i..] + TableKeys(chains, b + 1)
  }

  lemma FromKey(kv: Kv, b: nat, i: nat)
    requires kv.Valid() && b < |kv.g.chains| && i < |kv.g.chains[b]|
    ensures From(TableKeys(kv.g.chains, 0), kv.g.chains[b][i].key) == KeysAfter(kv.g.chains, b, i)
  {
    hide Hash, Kv.Valid;
    KeysOnce(kv);
    var chains := kv.g.chains;
    var all := TableKeys(chains, 0);
    var before := KeysBefore(chains, b);
    assert all == before + ChainKeys(chains[b]) + TableKeys(chains, b + 1);
    assert all[|before| + i] == chains[b][i].key;
    IndexUnique(all, chains[b][i].key, |before| + i);
    assert all[|before| + i..] == ChainKeys(chains[b])[i..] + TableKeys(chains, b + 1);
  }

  lemma ChainSuffix(head: Entry?, ch: seq<Entry>, i: nat)
    requires ChainOk(head, ch) && i <= |ch|
    ensures ChainOk(EntryAt(ch, i), ch[i..]) && head == EntryAt(ch, 0)
  {
    if i < |ch| {
      assert ch[i..][|ch[i..]| - 1] == ch[|ch| - 1];
    }
  }

  lemma EntryLengths(kv: Kv, b: nat)
    requires b < |kv.g.chains|
    requires kv.Valid()
    ensures b < kv.bucket.Length == NBUCKET && ChainOk(kv.bucket[b], kv.g.chains[b])
    ensures forall e :: e in kv.g.chains[b] ==> e.klen == |e.key| && 1 <= |e.key| <= MAX_KEY
  {
    hide Hash, Kv.ValuesInv, Kv.PoolInv, Kv.BufsInv, Kv.CountsInv, ChainKeys, ChainOk;
    assert Kv.BucketInv(kv.bucket[b], b, kv.g.chains[b], kv.g.at, kv.g.ents);
  }

  lemma ChainFrom(kv: Kv, b: nat, i: nat)
    requires b < |kv.g.chains| && i <= |kv.g.chains[b]|
    requires kv.Valid()
    ensures b < kv.bucket.Length == NBUCKET
    ensures Walkable(EntryAt(kv.g.chains[b], i), kv.g.chains[b][i..])
    ensures ChainKeys(kv.g.chains[b][i..]) == ChainKeys(kv.g.chains[b])[i..]
    ensures i == 0 ==> kv.bucket[b] == EntryAt(kv.g.chains[b], i)
  {
    hide Kv.Valid, ChainOk, ChainKeys;
    EntryLengths(kv, b);
    ChainSuffix(kv.bucket[b], kv.g.chains[b], i);
  }

  /** Writing elsewhere does not change the keys. */
  twostate lemma {:induction false} SameKeysFrom(chains: seq<seq<Entry>>, new b: nat)
    requires forall e :: e in Members(chains) ==> e.key == old(e.key)
    ensures TableKeys(chains, b) == old(TableKeys(chains, b))
    decreases |chains| - b
  {
    if b < |chains| { SameKeysFrom(chains, b + 1); }
  }

  lemma NothingYet(out: array<byte>)
    requires out.Length >= 4 && out[..] == Zeros(out.Length)
    ensures Written(out, 4, [])
  {}

  /** One bucket of the walk, from place i of its chain on. */
  method WalkBucket(kv: Kv, b: nat, head: Entry?, ghost i: nat, out: array<byte>, off0: nat, ghost taken: seq<Key>)
    returns (off: nat, n: nat, full: bool)
    requires b < |kv.g.chains| && i <= |kv.g.chains[b]| && head == EntryAt(kv.g.chains[b], i)
    requires Written(out, off0, taken)
    requires kv.Valid()
    modifies out
    ensures var rest := old(KeysAfter(kv.g.chains, b, i));
            && n <= |rest| && Written(out, off, taken + rest[..n])
            && (if full then n < |rest| && off + RecLen(|rest[n]|) > out.Length
                else rest[n..] == TableKeys(kv.g.chains, b + 1))
    ensures kv.Valid()
  {
    hide Kv.Valid, Written, Encode, Record, ChainKeys, Walkable;
    ghost var first, later := ChainKeys(kv.g.chains[b])[i..], TableKeys(kv.g.chains, b + 1);
    ChainFrom(kv, b, i);
    off, n, full := WalkChain(head, kv.g.chains[b][i..], out, off0, taken);
    SameKeysFrom(kv.g.chains, b + 1);
    assert (first + later)[..n] == first[..n];
    assert (first + later)[|first|..] == later;
  }

  /** Fill a page from one bucket's chain (or its rest) and the buckets after it. */
  method Walk(kv: Kv, b0: nat, head: Entry?, ghost i0: nat, out: array<byte>) returns (off: nat, n: nat)
    requires b0 < |kv.g.chains| && i0 <= |kv.g.chains[b0]|
    requires head == EntryAt(kv.g.chains[b0], i0)
    requires out.Length >= 4 && out[..] == Zeros(out.Length)
    requires kv.Valid()
    modifies out
    ensures var ks := old(KeysAfter(kv.g.chains, b0, i0));
            AllKeysFit(ks) && n == Fit(ks, out.Length - 4) && Written(out, off, ks[..n])
    ensures kv.Valid()
  {
    hide Kv.Valid, Written, Encode, Record, ChainKeys, Fit, KeysAfter, TableKeys;
    ghost var ks := KeysAfter(kv.g.chains, b0, i0);
    NothingYet(out);
    KeysFit(kv, b0, i0);
    var full;
    off, n, full := WalkBucket(kv, b0, head, i0, out, 4, []);
    assert [] + ks[..n] == ks[..n];
    var b := b0 + 1;
    while !full && b < NBUCKET
      invariant kv.Valid() && b <= NBUCKET && n <= |ks| && Written(out, off, ks[..n])
      invariant if full then n < |ks| && off + RecLen(|ks[n]|) > out.Length else ks[n..] == TableKeys(kv.g.chains, b)
      decreases NBUCKET - b, !full
    {
      ghost var rest := ks[n..];
      NextBucket(kv, b);
      var m;
      off, m, full := WalkBucket(kv, b, kv.bucket[b], 0, out, off, ks[..n]);
      assert ks[..n] + rest[..m] == ks[..n + m];
      assert rest[m..] == ks[n + m..];
      n := n + m;
      b := b + 1;
    }
    if !full { assert ks[n..] == [] by { NoBuckets(kv.g.chains); } }
    WrittenFits(out, off, ks[..n]);
    FitAt(ks, n, out.Length - 4);
  }

  lemma NoBuckets(chains: seq<seq<Entry>>)
    requires |chains| == NBUCKET
    ensures TableKeys(chains, NBUCKET) == []
  {}

  lemma NextBucket(kv: Kv, b: nat)
    requires b < |kv.g.chains|
    requires kv.Valid()
    ensures b < kv.bucket.Length && kv.bucket[b] == EntryAt(kv.g.chains[b], 0)
    ensures KeysAfter(kv.g.chains, b, 0) == TableKeys(kv.g.chains, b)
  {
    hide Kv.Valid, ChainKeys, Walkable;
    ChainFrom(kv, b, 0);
  }

  lemma WrittenFits(out: array<byte>, off: nat, taken: seq<Key>)
    requires Written(out, off, taken)
    ensures AllKeysFit(taken) && off == 4 + |Encode(taken)| <= out.Length
  {}

  lemma KeysFit(kv: Kv, b: nat, i: nat)
    requires b < |kv.g.chains| && i <= |kv.g.chains[b]|
    requires kv.Valid()
    ensures AllKeysFit(KeysAfter(kv.g.chains, b, i)) && |kv.g.chains| == NBUCKET
  {
    hide Kv.Valid, ChainKeys;
    kv.ChainCount();
    BucketKeys(kv, b);
    KeysFrom(kv, b + 1);
  }

  lemma FromFits(ks: seq<Key>, k: Key)
    requires AllKeysFit(ks)
    ensures AllKeysFit(From(ks, k))
  {}

  lemma FromAbsent(ks: seq<Key>, k: Key)
    ensures k !in ks ==> From(ks, k) == ks
    ensures AllKeysFit(ks) && k == [] ==> k !in ks
  {}

  /** The number of keys goes in front. */
  method WriteCount(out: array<byte>, off: nat, n: nat, ghost ks: seq<Key>)
    requires AllKeysFit(ks) && 4 <= out.Length < W32 && n == Fit(ks, out.Length - 4)
    requires Written(out, off, ks[..n])
    modifies out
    ensures out[..] == Page(ks, out.Length)
  {
    EncodeLong(ks[..n]);
    out[0], out[1], out[2], out[3] := n % 256, n / 256 % 256, n / 65536 % 256, n / 0x100_0000;
    assert out[..] == Le32(n) + Encode(ks[..n]) + Zeros(out.Length - off);
  }

  /** Where the listing starts. */
  method Start(kv: Kv, key: Key) returns (b: nat, head: Entry?, ghost i: nat)
    requires |key| <= MAX_KEY
    requires kv.Valid()
    ensures b < |kv.g.chains| && i <= |kv.g.chains[b]| && head == EntryAt(kv.g.chains[b], i)
    ensures From(TableKeys(kv.g.chains, 0), key) == KeysAfter(kv.g.chains, b, i)
    ensures kv.Valid()
  {
    hide Kv.Valid, Hash, ChainKeys, TableKeys, From, KeysAfter;
    kv.ChainCount();
    KeysOnce(kv);
    kv.KeyFacts();
    NextBucket(kv, 0);
    b, head, i := 0, kv.bucket[0], 0;
    if |key| > 0 {
      var _, e, j := kv.Find(key);
      SameKeysFrom(kv.g.chains, 0);
      if e != null {
        b := KvHash(key);
        head, i := e, j;
        FromKey(kv, b, j);
        return;
      }
    }
    FromAbsent(TableKeys(kv.g.chains, 0), key);
    NextBucket(kv, 0);
  }

  twostate lemma SameKeysAfter(chains: seq<seq<Entry>>, new b: nat, new i: nat)
    requires b < |chains| && i <= |chains[b]|
    requires forall e :: e in Members(chains) ==> e.key == old(e.key)
    ensures KeysAfter(chains, b, i) == old(KeysAfter(chains, b, i))
  {
    SameKeysFrom(chains, b + 1);
  }

  /** The List command. */
  method List(kv: Kv, key: Key, cdw10: nat, nbytes: nat, iov: seq<array<byte>>) returns (sc: nat)
    requires |key| <= MAX_KEY && cdw10 < W32
    requires forall i, j :: 0 <= i < j < |iov| ==> iov[i] != iov[j]
    requires kv.Valid()
    modifies iov
    ensures Min(cdw10, nbytes) < 4 ==> sc == SC_INVALID_FIELD && Flat(iov) == old(Flat(iov))
    ensures var all := old(TableKeys(kv.g.chains, 0));
            AllKeysFit(all) && AllKeysFit(From(all, key))
            && (Min(cdw10, nbytes) >= 4 ==>
                  sc == SC_OK
                  && Flat(iov) == Shown(Page(From(all, key), Min(cdw10, nbytes)), Min(cdw10, nbytes), |Flat(iov)|))
  {
    hide Kv.Valid, Hash, Written, Encode, Record, ChainKeys, TableKeys, Fit, From, Shown, Flat, Page, Le32;
    ghost var all := TableKeys(kv.g.chains, 0);
    KeysOnce(kv);
    FromFits(all, key);
    kv.ChainCount();
    var hbs := Min(cdw10, nbytes);
    if hbs < 4 {
      return SC_INVALID_FIELD;
    }
    var b, head, i := Start(kv, key);
    SameKeysFrom(kv.g.chains, 0);
    ghost var ks := KeysAfter(kv.g.chains, b, i);
    label L:
    var out := new byte[hbs](_ => 0);
    SameKeysAfter@L(kv.g.chains, b, i);
    assert out[..] == Zeros(hbs);
    var off, n := Walk(kv, b, head, i, out);
    WriteCount(out, off, n, ks);
    BufToIov(iov, out[..], hbs);
    sc := SC_OK;
  }
}
