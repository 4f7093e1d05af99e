/**
 * The chained hash table and the value-buffer pool, as heap objects. Each method is one
 * section of the source that runs under the table lock, under the pool lock, or on a buffer
 * only its caller knows; Valid holds between sections, whoever runs them.
 */
module KvTable {
  import opened KvSpec

  const NBUCKET: nat := 65536
  const MIN_SHIFT: nat := 12
  const NCLASS: nat := 21

  // ---- hash and size class ----

  function Mix(h: bv32, b: byte): bv32 { (h ^ (b as bv32)) * 16777619 }

  /** FNV-1a over the first n bytes, seeded with the key's length too. */
  function Fnv(key: Key, n: nat): bv32
    requires n <= |key| < 256
  {
    if n == 0 then 2166136261 ^ (|key| as bv32) else Mix(Fnv(key, n - 1), key[n - 1])
  }

  function Slot(h: bv32): (b: nat)
    ensures b < NBUCKET
  {
    (h as nat) % NBUCKET
  }

  function Hash(key: Key): (b: nat)
    requires |key| < 256
    ensures b < NBUCKET
  {
    Slot(Fnv(key, |key|))
  }

  method KvHash(key: Key) returns (b: nat)
    requires |key| < 256
    ensures b == Hash(key)
  {
    hide Slot, Mix;
    var h: bv32 := 2166136261 ^ (|key| as bv32);
    var i := 0;
    while i < |key|
      invariant i <= |key| && h == Fnv(key, i)
    {
      h := Mix(h, key[i]);
      i := i + 1;
    }
    b := Slot(h);
  }

  // Multiplying by the FNV prime, and undoing it.
  function Scaled(y: bv32): bv32 { y * 16777619 }
  function Unscaled(y: bv32): bv32 { y * 0x359c_449b }

  lemma ScaledIs(y: bv32)
    ensures Scaled(y) == y * 16777619
  {}

  lemma UnscaledAt(y: bv32)
    ensures Unscaled(y * 16777619) == y
  {}

  lemma ScaledBack(y: bv32)
    ensures Unscaled(Scaled(y)) == y
  {
    hide *;
    ScaledIs(y);
    UnscaledAt(y);
  }

  lemma SameScaled(a: bv32, b: bv32)
    requires Scaled(a) == Scaled(b)
    ensures a == b
  {
    hide *;
    ScaledBack(a);
    ScaledBack(b);
  }

  lemma XorBack(a: bv32, b: bv32, x: bv32)
    ensures a ^ x == b ^ x ==> a == b
    ensures x ^ a == x ^ b ==> a == b
  {}

  function MixBits(h: bv32, x: bv32): bv32 { Scaled(h ^ x) }

  lemma SameBefore(h: bv32, g: bv32, x: bv32)
    requires MixBits(h, x) == MixBits(g, x)
    ensures h == g
  {
    hide Scaled;
    SameScaled(h ^ x, g ^ x);
    XorBack(h, g, x);
  }

  lemma SameByte(h: bv32, x: bv32, y: bv32)
    requires MixBits(h, x) == MixBits(h, y)
    ensures x == y
  {
    hide Scaled;
    SameScaled(h ^ x, h ^ y);
    XorBack(x, y, h);
  }

  lemma BitsOneToOne(h: bv32, g: bv32, x: bv32, y: bv32)
    ensures h != g ==> MixBits(h, x) != MixBits(g, x)
    ensures x != y ==> MixBits(h, x) != MixBits(h, y)
  {
    hide MixBits;
    if MixBits(h, x) == MixBits(g, x) {
      SameBefore(h, g, x);
    }
    if MixBits(h, x) == MixBits(h, y) {
      SameByte(h, x, y);
    }
  }

  lemma MixIsBits(h: bv32, b: byte)
    ensures Mix(h, b) == MixBits(h, b as bv32)
  {}

  /** One step of the hash loses nothing, neither of what came before nor of the byte. */
  lemma MixOneToOne(h: bv32, g: bv32, a: byte, b: byte)
    ensures h != g ==> Mix(h, a) != Mix(g, a)
    ensures a as bv32 != b as bv32 ==> Mix(h, a) != Mix(h, b)
  {
    hide *;
    BitsOneToOne(h, g, a as bv32, b as bv32);
    MixIsBits(h, a);
    MixIsBits(g, a);
    MixIsBits(h, b);
  }

  /** Keys of one length that differ in the bits of a single byte have different 32-bit hashes. */
  lemma {:induction false} OneByteTells(k: Key, l: Key, i: nat, n: nat)
    requires |k| == |l| < 256 && i < |k| && n <= |k| && k[i] as bv32 != l[i] as bv32
    requires forall j :: 0 <= j < |k| && j != i ==> k[j] == l[j]
    ensures Fnv(k, n) == Fnv(l, n) <==> n <= i
  {
    hide Mix;
    if n > 0 {
      OneByteTells(k, l, i, n - 1);
      MixOneToOne(Fnv(k, n - 1), Fnv(l, n - 1), k[n - 1], l[n - 1]);
    }
  }

  /** Known answers: the hash before masking of the empty key, and of the key 1, 2. */
  lemma KnownHashes()
    ensures Fnv([], 0) == 0x811c_9dc5 && Fnv([1, 2], 2) == 0x3579_0f10
  {
    assert Fnv([1, 2], 0) == 0x811c_9dc7;
    assert Fnv([1, 2], 1) == Mix(0x811c_9dc7, 1);
  }

  function P2(n: nat): nat { if n == 0 then 1 else 2 * P2(n - 1) }

  lemma {:induction false} P2Grows(a: nat, b: nat)
    requires a <= b
    ensures P2(a) <= P2(b) && P2(a) > 0
  {
    if b == 0 {
    } else if a < b {
      P2Grows(a, b - 1);
    } else {
      P2Grows(a - 1, b - 1);
    }
  }

  lemma P2Of32()
    ensures P2(MIN_SHIFT + NCLASS - 1) == W32
  {
    assert P2(12) == 4096;
    assert P2(20) == 0x10_0000;
    assert P2(28) == 0x1000_0000;
  }

  /** Every buffer has room for a link. */
  lemma HoldsLink(c: nat)
    ensures P2(MIN_SHIFT + c) >= 8
  {
    P2Grows(3, MIN_SHIFT + c);
    assert P2(3) == 8;
  }

  /** Smallest class whose buffers hold len bytes. */
  ghost predicate IsClass(len: nat, c: nat) {
    len <= P2(MIN_SHIFT + c) && (c > 0 ==> P2(MIN_SHIFT + c - 1) < len)
  }

  lemma ClassUnique(len: nat, c: nat, d: nat)
    requires IsClass(len, c) && IsClass(len, d)
    ensures c == d
  {
    if c < d {
      P2Grows(MIN_SHIFT + c, MIN_SHIFT + d - 1);
    } else if d < c {
      P2Grows(MIN_SHIFT + d, MIN_SHIFT + c - 1);
    }
  }

  /** For a 32-bit length the class search always succeeds. */
  method KvPoolClass(len: nat) returns (c: nat)
    requires len < W32
    ensures c < NCLASS && IsClass(len, c)
  {
    c := 0;
    P2Of32();
    while P2(MIN_SHIFT + c) < len
      invariant c < NCLASS && (c > 0 ==> P2(MIN_SHIFT + c - 1) < len)
      decreases NCLASS - c
    {
      c := c + 1;
      if c == NCLASS {
        assert false;
      }
    }
  }

  // ---- heap objects ----

  /** Where a buffer is: in the entry of a key, on a free list, or in a request's hands. */
  datatype Role = Live(key: Key) | Free | Held

  class Buf {
    const cls: nat
    var bytes: seq<byte>
    var next: Buf?         // the source keeps it in the first bytes of a free buffer

    constructor (c: nat, content: seq<byte>)
      requires |content| == P2(MIN_SHIFT + c)
      ensures cls == c && bytes == content
    {
      cls, bytes, next := c, content, null;
    }
  }

  class Entry {
    var next: Entry?
    var klen: nat
    var key: Key
    var vlen: nat
    var val: Buf?

    constructor (key: Key, next: Entry?, vlen: nat, val: Buf?)
      ensures this.key == key && klen == |key| && this.next == next
      ensures this.vlen == vlen && this.val == val
    {
      this.key, this.klen, this.next, this.vlen, this.val := key, |key|, next, vlen, val;
    }
  }

  ghost predicate ChainOk(head: Entry?, ch: seq<Entry>)
    reads ch`next
  {
    if ch == [] then head == null
    else head == ch[0] && ch[|ch| - 1].next == null
         && forall i :: 0 <= i < |ch| - 1 ==> ch[i].next == ch[i + 1]
  }

  ghost predicate ListOk(head: Buf?, l: seq<Buf>)
    reads l`next
  {
    if l == [] then head == null
    else head == l[0] && l[|l| - 1].next == null
         && forall i :: 0 <= i < |l| - 1 ==> l[i].next == l[i + 1]
  }

  /** What a buffer of which the first n bytes are in use stands for. */
  ghost function Content(b: Buf?, n: nat): Value
    reads if b == null then {} else {b}
    requires b != null ==> n <= |b.bytes|
  {
    if b == null then [] else b.bytes[..n]
  }

  ghost function Assign(role: map<Buf, Role>, b: Buf?, r: Role): map<Buf, Role> {
    if b == null then role else role[b := r]
  }

  /** What the heap objects of a table stand for. */
  datatype Shadow = Shadow(
    M: map<Key, Value>,          // the table's meaning
    at: map<Key, Entry>,         // entry of each key
    chains: seq<seq<Entry>>,     // entries of each bucket, in chain order
    lists: seq<seq<Buf>>,        // free buffers of each class, in list order
    ents: set<Entry>,
    role: map<Buf, Role>,        // every buffer ever taken
    lost: nat)                   // bytes a 32-bit sum failed to give back

  class Kv {
    const limits: Limits
    const maxValue: nat
    const bucket: array<Entry?>
    var used: nat
    var nkeys: nat
    var poolFree: seq<Buf?>
    var poolBytes: nat
    var hits: nat
    var misses: nat
    ghost var g: Shadow

    // ---- the invariant, part by part ----

    ghost predicate ChainsInv(chains: seq<seq<Entry>>, at: map<Key, Entry>, ents: set<Entry>)
      reads bucket, ents`next, ents`key
    {
      && bucket.Length == |chains| == NBUCKET
      && (forall b :: 0 <= b < NBUCKET ==> BucketInv(bucket[b], b, chains[b], at, ents))
    }

    static ghost predicate BucketInv(head: Entry?, b: nat, ch: seq<Entry>, at: map<Key, Entry>, ents: set<Entry>)
      reads ents`next, ents`key
    {
      && (forall i :: 0 <= i < |ch| ==>
            ch[i] in ents && |ch[i].key| < 256 && Hash(ch[i].key) == b
            && ch[i].key in at && at[ch[i].key] == ch[i])
      && (forall i, j :: 0 <= i < j < |ch| ==> ch[i] != ch[j])
      && ChainOk(head, ch)
    }

    static ghost predicate KeysInv(chains: seq<seq<Entry>>, at: map<Key, Entry>, ents: set<Entry>)
      reads ents`key, ents`klen
    {
      && |chains| == NBUCKET
      && forall k :: k in at ==>
        && at[k] in ents && at[k].key == k && at[k].klen == |k| && 1 <= |k| <= MAX_KEY
        && at[k] in chains[Hash(k)]
    }

    ghost predicate ValuesInv(M: map<Key, Value>, at: map<Key, Entry>, ents: set<Entry>, role: map<Buf, Role>)
      reads ents`vlen, ents`val, role.Keys`bytes
    {
      && M.Keys == at.Keys
      && (forall k :: k in at ==> at[k] in ents && k in M && ValueInv(M[k], k, at[k], role))
    }

    ghost predicate ValueInv(v: Value, k: Key, e: Entry, role: map<Buf, Role>)
      reads e`vlen, e`val, role.Keys`bytes
    {
      && e.vlen <= maxValue && (e.vlen == 0 <==> e.val == null)
      && (e.val != null ==>
            && e.val in role && role[e.val] == Live(k) && IsClass(e.vlen, e.val.cls)
            && |e.val.bytes| == P2(MIN_SHIFT + e.val.cls) && v == e.val.bytes[..e.vlen])
      && (e.val == null ==> v == [])
    }

    ghost predicate PoolInv(lists: seq<seq<Buf>>, role: map<Buf, Role>)
      reads `poolFree, role.Keys`next
    {
      && |poolFree| == |lists| == NCLASS
      && (forall c :: 0 <= c < NCLASS ==> ListInv(poolFree[c], c, lists[c], role))
    }

    static ghost predicate ListInv(head: Buf?, c: nat, l: seq<Buf>, role: map<Buf, Role>)
      reads role.Keys`next
    {
      && (forall i :: 0 <= i < |l| ==> l[i] in role && role[l[i]] == Free && l[i].cls == c)
      && (forall i, j :: 0 <= i < j < |l| ==> l[i] != l[j])
      && ListOk(head, l)
    }

    /** Every buffer ever taken is in exactly the place its role says. */
    static ghost predicate BufsInv(at: map<Key, Entry>, ents: set<Entry>, role: map<Buf, Role>, lists: seq<seq<Buf>>)
      reads ents`val, role.Keys`bytes
    {
      forall b :: b in role ==>
        && b.cls < NCLASS && |b.bytes| == P2(MIN_SHIFT + b.cls)
        && (role[b].Live? ==> role[b].key in at && at[role[b].key] in ents && at[role[b].key].val == b)
        && (role[b].Free? ==> |lists| == NCLASS && b in lists[b.cls])
    }

    ghost predicate CountsInv(M: map<Key, Value>, lost: nat)
      reads `nkeys, `used
    {
      && nkeys == |M| && used == Weight(M) + lost && used <= limits.capacity
      && maxValue < W32 && (maxValue + MAX_KEY < W32 ==> lost == 0)
    }

    ghost predicate Valid()
      reads this, bucket, g.ents, g.role.Keys
    {
      && ChainsInv(g.chains, g.at, g.ents) && KeysInv(g.chains, g.at, g.ents)
      && ValuesInv(g.M, g.at, g.ents, g.role) && PoolInv(g.lists, g.role)
      && BufsInv(g.at, g.ents, g.role, g.lists) && CountsInv(g.M, g.lost)
    }

    /** A request has a buffer for len bytes in its hands; no bytes need none. */
    ghost predicate Holds(val: Buf?, len: nat)
      reads `g, if val == null then {} else {val}
    {
      && len < W32 && (val == null <==> len == 0)
      && (val != null ==>
            && val in g.role && g.role[val] == Held && val.cls < NCLASS
            && IsClass(len, val.cls) && len <= |val.bytes| == P2(MIN_SHIFT + val.cls))
    }

    constructor (limits: Limits, maxValue: nat)
      requires maxValue < W32
      ensures Valid() && g.M == map[] && g.role == map[] && g.lost == 0 && fresh(bucket)
      ensures this.limits == limits && this.maxValue == maxValue
    {
      this.limits, this.maxValue := limits, maxValue;
      bucket := new Entry?[NBUCKET](_ => null);
      used, nkeys, poolBytes, hits, misses := 0, 0, 0, 0, 0;
      poolFree := seq(NCLASS, _ => null);
      g := Shadow(map[], map[], seq(NBUCKET, _ => []), seq(NCLASS, _ => []), {}, map[], 0);
    }

    // ---- under the table lock ----

    method Find(key: Key) returns (prev: Entry?, e: Entry?, ghost i: nat)
      requires Valid() && 1 <= |key| <= MAX_KEY
      ensures e == null <==> key !in g.at
      ensures e != null ==>
                && e == g.at[key] && i < |g.chains[Hash(key)]| && g.chains[Hash(key)][i] == e
                && prev == (if i == 0 then null else g.chains[Hash(key)][i - 1])
    {
      hide Hash, ValuesInv, PoolInv, BufsInv, CountsInv;
      var b := KvHash(key);
      ghost var ch := g.chains[b];
      assert BucketInv(bucket[b], b, ch, g.at, g.ents);
      prev, e, i := null, bucket[b], 0;
      while e != null && !(e.klen == |key| && e.key == key)
        invariant i <= |ch| && e == (if i < |ch| then ch[i] else null)
        invariant prev == (if i == 0 then null else ch[i - 1])
        invariant forall j :: 0 <= j < i ==> ch[j].key != key
        decreases |ch| - i
      {
        assert e.klen == |e.key|;
        prev, e, i := e, e.next, i + 1;
      }
      if key in g.at {
        assert g.at[key] in ch;
      }
    }

    lemma BufFacts(b: Buf)
      requires Valid() && b in g.role
      ensures b.cls < NCLASS && |b.bytes| == P2(MIN_SHIFT + b.cls)
    {
      hide ChainsInv, KeysInv, ValuesInv, PoolInv, CountsInv;
    }

    lemma EntryFacts(key: Key)
      requires Valid() && key in g.at
      ensures g.at[key] in g.ents && key in g.M && g.at[key].key == key && g.at[key].klen == |key|
      ensures ValueInv(g.M[key], key, g.at[key], g.role) && |g.M[key]| == g.at[key].vlen <= maxValue
    {
      hide ChainsInv, PoolInv, BufsInv, CountsInv, Hash;
    }

    lemma KeyFacts()
      requires Valid()
      ensures g.M.Keys == g.at.Keys
      ensures forall k :: k in g.at ==> g.at[k] in g.ents && g.at[k].key == k
    {
      hide ChainsInv, PoolInv, BufsInv, CountsInv, Hash;
    }

    /** A key's buffer is in the table's accounts, and of the class of its length. */
    lemma EntryBuf(key: Key)
      requires Valid() && key in g.at
      ensures var e := g.at[key];
              && e.vlen < W32 && (e.val == null <==> e.vlen == 0)
              && (e.val != null ==>
                    && e.val in g.role && g.role[e.val] == Live(key) && e.val.cls < NCLASS
                    && IsClass(e.vlen, e.val.cls) && e.vlen <= |e.val.bytes| == P2(MIN_SHIFT + e.val.cls))
    {
      hide ChainsInv, KeysInv, PoolInv, Weight, P2;
    }

    lemma UsedFacts(key: Key)
      requires Valid() && key in g.M
      ensures |key| + |g.M[key]| <= used && nkeys > 0
    {
      hide ChainsInv, KeysInv, PoolInv, ValuesInv, BufsInv, Weight;
      WeightReplace(g.M, key, []);
    }

    /** Free lists do not notice buffers moving between requests and entries. */
    twostate lemma PoolKept(g: Shadow, new h: Shadow)
      requires old(PoolInv(g.lists, g.role)) && h.lists == g.lists && poolFree == old(poolFree)
      requires forall b :: b in g.role && g.role[b] == Free ==>
                 b in h.role && h.role[b] == Free && b.next == old(b.next)
      ensures PoolInv(h.lists, h.role)
    {
      forall c: nat | c < NCLASS ensures ListInv(poolFree[c], c, h.lists[c], h.role) {
        assert old(ListInv(poolFree[c], c, g.lists[c], g.role));
      }
    }

    /** Values survive what happens to another key, and to buffers that are not theirs. */
    twostate lemma ValuesKept(g: Shadow, new h: Shadow, new key: Key)
      requires old(ValuesInv(g.M, g.at, g.ents, g.role))
      requires h.M.Keys == h.at.Keys && forall k :: k in h.at ==> h.at[k] in h.ents
      requires forall k :: k in h.at && k != key ==>
                 && k in g.at && h.at[k] == g.at[k] && h.M[k] == g.M[k]
                 && h.at[k].val == old(g.at[k].val) && h.at[k].vlen == old(g.at[k].vlen)
      requires forall b :: b in g.role && g.role[b].Live? && g.role[b].key != key ==>
                 b in h.role && h.role[b] == g.role[b] && b.bytes == old(b.bytes)
      requires key in h.at ==> ValueInv(h.M[key], key, h.at[key], h.role)
      ensures ValuesInv(h.M, h.at, h.ents, h.role)
    {
      hide IsClass, P2;
      forall k | k in h.at ensures h.at[k] in h.ents && k in h.M && ValueInv(h.M[k], k, h.at[k], h.role) {
        if k != key {
          assert old(ValueInv(g.M[k], k, g.at[k], g.role));
        }
      }
    }

    twostate lemma BufsReplaced(g: Shadow, new h: Shadow, new key: Key)
      requires old(BufsInv(g.at, g.ents, g.role, g.lists)) && h.lists == g.lists
      requires h.at == g.at && h.ents == g.ents && key in g.at && g.at[key] in g.ents
      requires forall k :: k in g.at && k != key ==> g.at[k].val == old(g.at[k].val)
      requires forall b :: b in g.role ==> b.bytes == old(b.bytes)
      requires var was, val := old(g.at[key].val), g.at[key].val;
               && h.role == Assign(Assign(g.role, was, Held), val, Live(key))
               && (was != null ==> was in g.role) && (val != null ==> val in g.role)
      ensures BufsInv(h.at, h.ents, h.role, h.lists)
    {
      hide P2;
    }

    lemma NewValue(e: Entry, key: Key, role: map<Buf, Role>)
      requires e.vlen <= maxValue && (e.vlen == 0 <==> e.val == null)
      requires e.val != null ==>
                 && e.val in role && role[e.val] == Live(key) && IsClass(e.vlen, e.val.cls)
                 && |e.val.bytes| == P2(MIN_SHIFT + e.val.cls)
      ensures e.val != null ==> e.vlen <= |e.val.bytes|
      ensures ValueInv(Content(e.val, e.vlen), key, e, role)
    {}

    /** Entries stay linked as they are, and nobody writes to a buffer. */
    twostate predicate SameLinks(g: Shadow)
      reads `poolFree, bucket, g.ents`next, g.ents`key, g.ents`klen, g.role.Keys`bytes, g.role.Keys`next
    {
      && poolFree == old(poolFree) && bucket[..] == old(bucket[..])
      && (forall x :: x in g.ents ==> x.next == old(x.next) && x.key == old(x.key) && x.klen == old(x.klen))
      && (forall b :: b in g.role ==> b.bytes == old(b.bytes) && b.next == old(b.next))
    }

    /** The entry of this key has got another value, and nothing else has happened. */
    twostate predicate Swapped(g: Shadow, new h: Shadow, new key: Key)
      reads this, bucket, g.ents, g.role.Keys
    {
      && g == old(this.g) && key in g.at && key in g.M && g.at[key] in g.ents && SameLinks(g)
      && (forall k :: k in g.at && k != key ==>
            && g.at[k] in g.ents
            && g.at[k].val == old(g.at[k].val) && g.at[k].vlen == old(g.at[k].vlen))
      && var e := g.at[key];
      && e.vlen <= maxValue && (e.vlen == 0 <==> e.val == null)
      && used == old(used) - old(e.vlen) + e.vlen <= limits.capacity && nkeys == old(nkeys)
      && (e.val != null ==> e.val in g.role && g.role[e.val] == Held
                            && IsClass(e.vlen, e.val.cls) && e.vlen <= |e.val.bytes|)
      && h == g.(M := g.M[key := Content(e.val, e.vlen)],
                 role := Assign(Assign(g.role, old(e.val), Held), e.val, Live(key)))
    }

    twostate lemma SwapValues(g: Shadow, new h: Shadow, new key: Key)
      requires old(Valid()) && Swapped(g, h, key)
      ensures ValuesInv(h.M, h.at, h.ents, h.role)
    {
      hide ChainsInv, KeysInv, PoolInv, ValuesInv, BufsInv, CountsInv, IsClass, P2, Weight, Hash;
      OldEntryFacts(key);
      if g.at[key].val != null { OldBufFacts(g.at[key].val); }
      NewValue(g.at[key], key, h.role);
      ValuesKept(g, h, key);
    }

    twostate lemma SwapCounts(g: Shadow, new h: Shadow, new key: Key)
      requires old(Valid()) && Swapped(g, h, key)
      ensures CountsInv(h.M, h.lost)
    {
      hide ChainsInv, KeysInv, PoolInv, ValuesInv, BufsInv, ValueInv, IsClass, P2, Weight, Hash;
      OldEntryFacts(key);
      WeightReplace(g.M, key, h.M[key]);
    }

    twostate lemma SwapKeeps(g: Shadow, new h: Shadow, new key: Key)
      requires old(Valid()) && Swapped(g, h, key)
      ensures ChainsInv(h.chains, h.at, h.ents) && KeysInv(h.chains, h.at, h.ents)
      ensures PoolInv(h.lists, h.role) && BufsInv(h.at, h.ents, h.role, h.lists)
    {
      hide ChainsInv, KeysInv, PoolInv, ValuesInv, BufsInv, CountsInv, IsClass, P2, Weight, Hash;
      OldEntryFacts(key);
      ChainsKept(g);
      PoolKept(g, h);
      BufsReplaced(g, h, key);
    }

    twostate lemma ChainsKept(g: Shadow)
      requires SameLinks(g)
      ensures old(ChainsInv(g.chains, g.at, g.ents)) ==> ChainsInv(g.chains, g.at, g.ents)
      ensures old(KeysInv(g.chains, g.at, g.ents)) ==> KeysInv(g.chains, g.at, g.ents)
    {
      hide Hash, BucketInv;
      assert forall i :: 0 <= i < bucket.Length ==> bucket[i] == bucket[..][i] == old(bucket[i]);
    }

    twostate lemma OldBufFacts(b: Buf)
      requires old(Valid()) && b in old(g).role
      ensures b.cls < NCLASS && old(|b.bytes|) == P2(MIN_SHIFT + b.cls)
    {
      hide ChainsInv, KeysInv, ValuesInv, PoolInv, CountsInv;
    }

    twostate lemma OldEntryFacts(key: Key)
      requires old(Valid()) && key in old(g).at
      ensures var g := old(g);
              && key in g.M && g.M.Keys == g.at.Keys && (forall k :: k in g.at ==> g.at[k] in g.ents && old(g.at[k].key) == k)
              && old(ValueInv(g.M[key], key, g.at[key], g.role)) && |g.M[key]| == old(g.at[key].vlen) <= maxValue
    {
      hide ChainsInv, PoolInv, BufsInv, CountsInv, Hash;
    }

    /** Swap the value of an entry: all the source does to an existing key under the lock. */
    method Swap(e: Entry, vs: nat, val: Buf?) returns (was: Buf?, wasLen: nat)
      requires e.vlen <= used
      modifies `used, e`val, e`vlen
      ensures used == old(used) - old(e.vlen) + vs && e.val == val && e.vlen == vs
      ensures was == old(e.val) && wasLen == old(e.vlen)
    {
      used := used - e.vlen;
      was, wasLen := e.val, e.vlen;
      e.val := val;
      e.vlen := vs;
      used := used + vs;
    }

    method Replace(e: Entry, key: Key, vs: nat, val: Buf?) returns (was: Buf?, wasLen: nat)
      requires Valid() && key in g.M && key in g.at && e == g.at[key] && vs <= maxValue && Holds(val, vs)
      requires used - e.vlen + vs <= limits.capacity
      modifies `used, `g, e`val, e`vlen
      ensures used == old(used) - |old(g).M[key]| + vs
      ensures was != null ==> was in old(g).role && old(g).role[was] == Live(key)
      ensures g == old(g).(M := old(g).M[key := old(Content(val, vs))],
                           role := Assign(Assign(old(g).role, was, Held), val, Live(key)))
      ensures Holds(was, wasLen)
      ensures Valid()
    {
      hide ChainsInv, KeysInv, PoolInv, ValuesInv, BufsInv, CountsInv, IsClass, P2, Weight, Hash;
      EntryFacts(key);
      EntryBuf(key);
      KeyFacts();
      UsedFacts(key);
      ghost var h := g.(M := g.M[key := Content(val, vs)],
                        role := Assign(Assign(g.role, e.val, Held), val, Live(key)));
      was, wasLen := Swap(e, vs, val);
      SwapKeeps(g, h, key);
      SwapValues(g, h, key);
      SwapCounts(g, h, key);
      g := h;
    }

    // ---- a new entry ----

    /** A new entry goes in front of its bucket's chain. */
    method Link(b: nat, key: Key, vs: nat, val: Buf?) returns (e: Entry)
      requires b < bucket.Length
      modifies `used, `nkeys, bucket
      ensures fresh(e) && e.key == key && e.klen == |key| && e.next == old(bucket[b]) && e.val == val && e.vlen == vs
      ensures bucket[..] == old(bucket[..])[b := e]
      ensures used == old(used) + |key| + vs && nkeys == old(nkeys) + 1
    {
      e := new Entry(key, bucket[b], 0, null);
      bucket[b] := e;
      used := used + e.klen;
      nkeys := nkeys + 1;
      e.val := val;
      e.vlen := vs;
      used := used + vs;
    }

    /** Entries and buffers a table knows have not changed. */
    twostate predicate SameEntries(g: Shadow)
      reads g.ents, g.role.Keys
    {
      && (forall x :: x in g.ents ==>
            && x.next == old(x.next) && x.key == old(x.key) && x.klen == old(x.klen)
            && x.val == old(x.val) && x.vlen == old(x.vlen))
      && (forall b :: b in g.role ==> b.bytes == old(b.bytes) && b.next == old(b.next))
    }

    twostate lemma OtherBucket(g: Shadow, new h: Shadow, new b: nat)
      requires b < |g.chains| == |h.chains| == bucket.Length && h.chains[b] == g.chains[b] && bucket[b] == old(bucket[b])
      requires old(BucketInv(bucket[b], b, g.chains[b], g.at, g.ents))
      requires forall x :: x in g.chains[b] ==> x in g.ents && x in h.ents && x.next == old(x.next) && x.key == old(x.key)
      requires forall x :: x in g.chains[b] && x.key in g.at ==> x.key in h.at && h.at[x.key] == g.at[x.key]
      ensures BucketInv(bucket[b], b, h.chains[b], h.at, h.ents)
    {
      hide Hash;
    }

    twostate lemma LinkChain(g: Shadow, new h: Shadow, new key: Key)
      requires 1 <= |key| <= MAX_KEY && key !in g.at && SameEntries(g) && key in h.at
      requires |g.chains| == bucket.Length == NBUCKET
      requires var e, b := h.at[key], Hash(key);
               && e !in g.ents && h.chains == g.chains[b := [e] + g.chains[b]]
               && h.ents == g.ents + {e} && h.at == g.at[key := e]
               && e.key == key && e.next == old(bucket[b]) && bucket[b] == e
      requires old(BucketInv(bucket[Hash(key)], Hash(key), g.chains[Hash(key)], g.at, g.ents))
      ensures BucketInv(bucket[Hash(key)], Hash(key), h.chains[Hash(key)], h.at, h.ents)
    {
      hide Hash;
      var ch, new_ := g.chains[Hash(key)], h.chains[Hash(key)];
      assert forall i :: 0 < i < |new_| ==> new_[i] == ch[i - 1];
    }

    /** A new entry for an absent key stands in front of its chain, and nothing else has happened. */
    twostate predicate Linked(g: Shadow, new h: Shadow, new key: Key)
      reads this, bucket, g.ents, g.role.Keys, h.ents
    {
      && g == old(this.g) && key !in g.at && key !in g.M && 1 <= |key| <= MAX_KEY && SameEntries(g)
      && poolFree == old(poolFree) && |g.chains| == bucket.Length == NBUCKET
      && key in h.at && h.at[key] in h.ents
      && var e, b := h.at[key], Hash(key);
      && e !in g.ents && e.key == key && e.klen == |key| && e.next == old(bucket[b])
      && bucket[..] == old(bucket[..])[b := e]
      && e.vlen <= maxValue && (e.vlen == 0 <==> e.val == null)
      && used == old(used) + |key| + e.vlen <= limits.capacity && nkeys == old(nkeys) + 1
      && (e.val != null ==> e.val in g.role && g.role[e.val] == Held
                            && IsClass(e.vlen, e.val.cls) && e.vlen <= |e.val.bytes|)
      && h == g.(M := g.M[key := Content(e.val, e.vlen)], at := g.at[key := e],
                 chains := g.chains[b := [e] + g.chains[b]], ents := g.ents + {e},
                 role := Assign(g.role, e.val, Live(key)))
    }

    twostate lemma LinkChains(g: Shadow, new h: Shadow, new key: Key)
      requires old(Valid()) && Linked(g, h, key)
      ensures ChainsInv(h.chains, h.at, h.ents)
    {
      hide Hash, KeysInv, PoolInv, ValuesInv, BufsInv, CountsInv, IsClass, P2, BucketInv, Content;
      assert old(BucketInv(bucket[Hash(key)], Hash(key), g.chains[Hash(key)], g.at, g.ents));
      assert bucket[Hash(key)] == bucket[..][Hash(key)];
      LinkChain(g, h, key);
      forall b: nat | b < NBUCKET ensures BucketInv(bucket[b], b, h.chains[b], h.at, h.ents) {
        if b != Hash(key) {
          assert old(BucketInv(bucket[b], b, g.chains[b], g.at, g.ents));
          assert bucket[b] == bucket[..][b] == old(bucket[b]);
          BucketMembers(g, b);
          OtherBucket(g, h, b);
        }
      }
    }

    twostate lemma BucketMembers(g: Shadow, new b: nat)
      requires b < |g.chains| == bucket.Length && old(BucketInv(bucket[b], b, g.chains[b], g.at, g.ents))
      ensures forall x :: x in g.chains[b] ==> x in g.ents && old(x.key) in g.at && old(g.at[x.key]) == x
      ensures forall x :: x in g.chains[b] ==> |old(x.key)| < 256 && Hash(old(x.key)) == b
    {
      hide Hash;
    }

    twostate lemma LinkKeys(g: Shadow, new h: Shadow, new key: Key)
      requires old(Valid()) && Linked(g, h, key)
      ensures KeysInv(h.chains, h.at, h.ents)
    {
      hide Hash, ChainsInv, PoolInv, ValuesInv, BufsInv, CountsInv, IsClass, P2, Content;
    }

    twostate lemma LinkValues(g: Shadow, new h: Shadow, new key: Key)
      requires old(Valid()) && Linked(g, h, key)
      ensures ValuesInv(h.M, h.at, h.ents, h.role)
    {
      hide ChainsInv, KeysInv, PoolInv, ValuesInv, BufsInv, CountsInv, IsClass, P2, Weight, Hash;
      OldKeyFacts();
      if h.at[key].val != null { OldBufFacts(h.at[key].val); }
      NewValue(h.at[key], key, h.role);
      ValuesKept(g, h, key);
    }

    twostate lemma LinkCounts(g: Shadow, new h: Shadow, new key: Key)
      requires old(Valid()) && Linked(g, h, key)
      ensures CountsInv(h.M, h.lost)
    {
      hide ChainsInv, KeysInv, PoolInv, ValuesInv, BufsInv, IsClass, P2, Weight, Hash;
      WeightInsert(g.M, key, h.M[key]);
    }

    twostate lemma LinkBufs(g: Shadow, new h: Shadow, new key: Key)
      requires old(Valid()) && Linked(g, h, key)
      ensures PoolInv(h.lists, h.role) && BufsInv(h.at, h.ents, h.role, h.lists)
    {
      hide ChainsInv, KeysInv, PoolInv, ValuesInv, CountsInv, IsClass, P2, Weight, Hash, Content;
      OldKeyFacts();
      PoolKept(g, h);
    }

    twostate lemma OldKeyFacts()
      requires old(Valid())
      ensures var g := old(g);
              g.M.Keys == g.at.Keys && (forall k :: k in g.at ==> g.at[k] in g.ents && old(g.at[k].key) == k)
    {
      hide ChainsInv, PoolInv, BufsInv, CountsInv, Hash;
    }

    method Insert(key: Key, vs: nat, val: Buf?)
      requires Valid() && key !in g.M && key !in g.at && 1 <= |key| <= MAX_KEY
      requires vs <= maxValue && Holds(val, vs)
      requires used + |key| + vs <= limits.capacity
      modifies `used, `nkeys, `g, bucket
      ensures used == old(used) + |key| + vs
      ensures key in g.at && fresh(g.at[key])
      ensures g == old(g).(M := old(g).M[key := Content(val, vs)], at := old(g).at[key := g.at[key]],
                           chains := old(g).chains[Hash(key) := [g.at[key]] + old(g).chains[Hash(key)]],
                           ents := old(g).ents + {g.at[key]}, role := Assign(old(g).role, val, Live(key)))
      ensures Valid()
    {
      hide ChainsInv, KeysInv, PoolInv, ValuesInv, BufsInv, CountsInv, IsClass, P2, Weight, Hash;
      KeyFacts();
      ChainCount();
      var b := KvHash(key);
      var e := Link(b, key, vs, val);
      ghost var h := g.(M := g.M[key := Content(val, vs)], at := g.at[key := e],
                        chains := g.chains[b := [e] + g.chains[b]], ents := g.ents + {e},
                        role := Assign(g.role, val, Live(key)));
      LinkChains(g, h, key);
      LinkKeys(g, h, key);
      LinkValues(g, h, key);
      LinkCounts(g, h, key);
      LinkBufs(g, h, key);
      g := h;
    }

    lemma ChainCount()
      requires Valid()
      ensures |g.chains| == bucket.Length == NBUCKET && |g.lists| == |poolFree| == NCLASS
    {
      hide Hash, KeysInv, ListInv, ValuesInv, BufsInv, CountsInv, BucketInv;
    }

    // ---- an entry less ----

    /** An entry leaves its chain; the bytes it held are given back as a 32-bit sum. */
    method Unlink(b: nat, prev: Entry?, e: Entry)
      requires b < bucket.Length && Size32(e.klen, e.vlen) <= used && nkeys > 0
      requires prev != null ==> prev in g.ents
      modifies `used, `nkeys, bucket, g.ents`next
      ensures prev == null ==> bucket[..] == old(bucket[..])[b := old(e.next)]
      ensures prev != null ==> bucket[..] == old(bucket[..]) && prev.next == old(e.next)
      ensures forall x :: x in g.ents && x != prev ==> x.next == old(x.next)
      ensures used == old(used) - Size32(old(e.klen), old(e.vlen)) && nkeys == old(nkeys) - 1
    {
      if prev == null {
        bucket[b] := e.next;
      } else {
        prev.next := e.next;
      }
      used := used - Size32(e.klen, e.vlen);
      nkeys := nkeys - 1;
    }

    static ghost function Without(ch: seq<Entry>, i: nat): seq<Entry>
      requires i < |ch|
    {
      ch[..i] + ch[i + 1..]
    }

    /** The entry at place i of this key's chain has been taken out, and nothing else has happened. */
    twostate predicate Unlinked(g: Shadow, new h: Shadow, new key: Key, new i: nat)
      reads this, bucket, g.ents, g.role.Keys
    {
      && g == old(this.g) && key in g.at && key in g.M && 1 <= |key| <= MAX_KEY && g.at[key] in g.ents
      && poolFree == old(poolFree) && |g.chains| == bucket.Length == NBUCKET
      && (forall b :: b in g.role ==> b.bytes == old(b.bytes) && b.next == old(b.next))
      && var e, b := g.at[key], Hash(key);
      && var ch := g.chains[b];
      && i < |ch| && ch[i] == e && (i > 0 ==> ch[i - 1] in g.ents)
      && (forall x :: x in g.ents ==>
            && x.key == old(x.key) && x.klen == old(x.klen) && x.val == old(x.val) && x.vlen == old(x.vlen)
            && (i == 0 || x != ch[i - 1] ==> x.next == old(x.next)))
      && (if i == 0 then bucket[..] == old(bucket[..])[b := old(e.next)]
          else bucket[..] == old(bucket[..]) && ch[i - 1].next == old(e.next))
      && used == old(used) - Size32(old(e.klen), old(e.vlen)) && nkeys == old(nkeys) - 1
      && h == g.(M := g.M - {key}, at := g.at - {key}, chains := g.chains[b := Without(ch, i)],
                 ents := g.ents - {e}, role := Assign(g.role, old(e.val), Held),
                 lost := g.lost + Short32(old(e.klen), old(e.vlen)))
    }

    /** Passing over the i-th entry leaves a chain of the others. */
    twostate lemma ChainCut(ch: seq<Entry>, new i: nat, new head: Entry?)
      requires i < |ch| && (forall j, k :: 0 <= j < k < |ch| ==> ch[j] != ch[k])
      requires old(ChainOk(ch[0], ch)) && head == (if i == 0 then old(ch[0].next) else ch[0])
      requires forall j :: 0 <= j < |ch| && j + 1 != i ==> ch[j].next == old(ch[j].next)
      requires i > 0 ==> ch[i - 1].next == old(ch[i].next)
      ensures ChainOk(head, Without(ch, i))
    {
      var rest := Without(ch, i);
      assert forall j :: 0 <= j < |rest| ==> rest[j] == ch[if j < i then j else j + 1];
    }

    twostate lemma UnlinkChain(g: Shadow, new h: Shadow, new key: Key, new i: nat)
      requires Unlinked(g, h, key, i)
      requires old(BucketInv(bucket[Hash(key)], Hash(key), g.chains[Hash(key)], g.at, g.ents))
      ensures BucketInv(bucket[Hash(key)], Hash(key), h.chains[Hash(key)], h.at, h.ents)
    {
      hide Hash, ChainOk;
      var b := Hash(key);
      var ch, rest := g.chains[b], h.chains[b];
      assert forall j :: 0 <= j < |rest| ==> rest[j] == ch[if j < i then j else j + 1];
      assert bucket[b] == bucket[..][b];
      HeadIs(g, b);
      ChainCut(ch, i, bucket[b]);
      assert forall j :: 0 <= j < |ch| && j != i ==> ch[j] in h.ents && ch[j].key != key;
    }

    twostate lemma HeadIs(g: Shadow, new b: nat)
      requires b < |g.chains| == bucket.Length && g.chains[b] != []
      requires old(BucketInv(bucket[b], b, g.chains[b], g.at, g.ents))
      ensures old(bucket[b]) == g.chains[b][0] && old(ChainOk(g.chains[b][0], g.chains[b]))
    {
      hide Hash;
    }

    twostate lemma UnlinkChains(g: Shadow, new h: Shadow, new key: Key, new i: nat)
      requires old(Valid()) && Unlinked(g, h, key, i)
      ensures ChainsInv(h.chains, h.at, h.ents)
    {
      hide Hash, KeysInv, PoolInv, ValuesInv, BufsInv, CountsInv, IsClass, P2, BucketInv, Content, Size32;
      assert old(BucketInv(bucket[Hash(key)], Hash(key), g.chains[Hash(key)], g.at, g.ents));
      BucketMembers(g, Hash(key));
      UnlinkChain(g, h, key, i);
      forall b: nat | b < NBUCKET ensures BucketInv(bucket[b], b, h.chains[b], h.at, h.ents) {
        if b != Hash(key) {
          assert old(BucketInv(bucket[b], b, g.chains[b], g.at, g.ents));
          assert bucket[b] == bucket[..][b] == old(bucket[b]);
          BucketMembers(g, b);
          OtherBucket(g, h, b);
        }
      }
    }

    twostate lemma UnlinkKeys(g: Shadow, new h: Shadow, new key: Key, new i: nat)
      requires old(Valid()) && Unlinked(g, h, key, i)
      ensures KeysInv(h.chains, h.at, h.ents)
    {
      hide Hash, ChainsInv, PoolInv, ValuesInv, BufsInv, CountsInv, IsClass, P2, Content, Size32;
      var ch := g.chains[Hash(key)];
      forall k | k in h.at && Hash(k) == Hash(key) ensures h.at[k] in h.chains[Hash(k)] {
        var j :| 0 <= j < |ch| && ch[j] == g.at[k];
        assert Without(ch, i)[if j < i then j else j - 1] == h.at[k];
      }
    }

    twostate lemma UnlinkValues(g: Shadow, new h: Shadow, new key: Key, new i: nat)
      requires old(Valid()) && Unlinked(g, h, key, i)
      ensures ValuesInv(h.M, h.at, h.ents, h.role)
    {
      hide ChainsInv, KeysInv, PoolInv, ValuesInv, BufsInv, CountsInv, IsClass, P2, Weight, Hash, Without, Size32;
      OldKeyFacts();
      OldEntryFacts(key);
      ValuesKept(g, h, key);
    }

    twostate lemma UnlinkCounts(g: Shadow, new h: Shadow, new key: Key, new i: nat)
      requires old(Valid()) && Unlinked(g, h, key, i)
      ensures CountsInv(h.M, h.lost)
    {
      hide ChainsInv, KeysInv, PoolInv, ValuesInv, BufsInv, ValueInv, IsClass, P2, Weight, Hash, Without, Size32;
      OldEntryFacts(key);
      OldKeyLen(key);
      WeightRemove(g.M, key);
      Size32Exact(|key|, |g.M[key]|);
    }

    twostate lemma UnlinkBufs(g: Shadow, new h: Shadow, new key: Key, new i: nat)
      requires old(Valid()) && Unlinked(g, h, key, i)
      ensures PoolInv(h.lists, h.role) && BufsInv(h.at, h.ents, h.role, h.lists)
    {
      hide ChainsInv, KeysInv, PoolInv, ValuesInv, CountsInv, IsClass, P2, Weight, Hash, Without, Size32;
      OldKeyFacts();
      OldEntryFacts(key);
      PoolKept(g, h);
    }

    twostate lemma OldKeyLen(key: Key)
      requires old(Valid()) && key in old(g).at
      ensures old(g.at[key].klen) == |key| && 1 <= |key| <= MAX_KEY
    {
      hide ChainsInv, PoolInv, ValuesInv, BufsInv, CountsInv, Hash;
    }

    /** The table without this key, whose entry had this buffer and these lengths. */
    static ghost function Cut(g: Shadow, key: Key, i: nat, val: Buf?, klen: nat, vlen: nat): Shadow
      requires key in g.at && |g.chains| == NBUCKET && |key| < 256 && i < |g.chains[Hash(key)]|
    {
      g.(M := g.M - {key}, at := g.at - {key}, chains := g.chains[Hash(key) := Without(g.chains[Hash(key)], i)],
         ents := g.ents - {g.at[key]}, role := Assign(g.role, val, Held), lost := g.lost + Short32(klen, vlen))
    }

    method Detach(key: Key, prev: Entry?, e: Entry, ghost i: nat)
      requires key in g.M && key in g.at && e == g.at[key] && e in g.ents && 1 <= |key| <= MAX_KEY
      requires |g.chains| == bucket.Length == NBUCKET && i < |g.chains[Hash(key)]| && g.chains[Hash(key)][i] == e
      requires prev == (if i == 0 then null else g.chains[Hash(key)][i - 1])
      requires prev != null ==> prev in g.ents && prev != e
      requires Size32(e.klen, e.vlen) <= used && nkeys > 0
      modifies `used, `nkeys, bucket, g.ents`next
      ensures Unlinked(g, Cut(g, key, i, e.val, e.klen, e.vlen), key, i)
    {
      hide IsClass, P2, Weight, Hash, Short32, Size32, Without;
      var slot := KvHash(key);
      Unlink(slot, prev, e);
    }

    method Remove(key: Key, prev: Entry?, e: Entry, ghost i: nat)
      requires key in g.M && key in g.at && e == g.at[key] && e in g.ents && 1 <= |key| <= MAX_KEY
      requires |g.chains| == NBUCKET && i < |g.chains[Hash(key)]| && g.chains[Hash(key)][i] == e
      requires prev == (if i == 0 then null else g.chains[Hash(key)][i - 1])
      requires Valid()
      modifies `used, `nkeys, `g, bucket, g.ents`next
      ensures g == Cut(old(g), key, i, e.val, |key|, |old(g).M[key]|)
      ensures used == old(used) - Size32(|key|, |old(g).M[key]|)
      ensures e.val == old(e.val) && e.vlen == old(e.vlen) == |old(g).M[key]|
      ensures e.val != null ==> e.val in old(g).role && old(g).role[e.val] == Live(key)
      ensures Valid()
    {
      hide ChainsInv, KeysInv, PoolInv, ValuesInv, BufsInv, CountsInv, IsClass, P2, Weight, Hash, Short32, Size32, Cut;
      EntryFacts(key);
      EntryBuf(key);
      ChainCount();
      UsedFacts(key);
      ChainFacts(Hash(key), i);
      Detach(key, prev, e, i);
      ghost var h := Cut(g, key, i, e.val, e.klen, e.vlen);
      UnlinkChains(g, h, key, i);
      UnlinkKeys(g, h, key, i);
      UnlinkValues(g, h, key, i);
      UnlinkCounts(g, h, key, i);
      UnlinkBufs(g, h, key, i);
      g := h;
    }

    /** The entry before this one in its chain is another one, and links to it. */
    lemma ChainFacts(b: nat, i: nat)
      requires Valid() && b < |g.chains| && i < |g.chains[b]|
      ensures g.chains[b][i] in g.ents
      ensures i > 0 ==> g.chains[b][i - 1] in g.ents && g.chains[b][i - 1] != g.chains[b][i]
                        && g.chains[b][i - 1].next == g.chains[b][i]
    {
      hide KeysInv, PoolInv, ValuesInv, BufsInv, CountsInv, Hash;
      assert BucketInv(bucket[b], b, g.chains[b], g.at, g.ents);
    }

    // ---- under the pool lock, and on buffers in a request's hands ----

    /** Entries, and the buffers they use, have not changed. */
    twostate predicate SameTable(g: Shadow, new h: Shadow)
      reads this, bucket, g.ents, g.role.Keys
    {
      && g == old(this.g) && used == old(used) && nkeys == old(nkeys) && bucket[..] == old(bucket[..])
      && h == g.(lists := h.lists, role := h.role) && g.role.Keys <= h.role.Keys
      && (forall x :: x in g.ents ==>
            && x.next == old(x.next) && x.key == old(x.key) && x.klen == old(x.klen)
            && x.val == old(x.val) && x.vlen == old(x.vlen))
      && (forall b :: b in g.role && g.role[b].Live? ==> h.role[b] == g.role[b] && b.bytes == old(b.bytes))
    }

    twostate lemma TableKept(g: Shadow, new h: Shadow)
      requires old(Valid()) && SameTable(g, h)
      ensures ChainsInv(h.chains, h.at, h.ents) && KeysInv(h.chains, h.at, h.ents)
      ensures ValuesInv(h.M, h.at, h.ents, h.role) && CountsInv(h.M, h.lost)
    {
      hide ChainsInv, KeysInv, PoolInv, ValuesInv, BufsInv, IsClass, P2, Weight, Hash;
      OldKeyFacts();
      TableLinks(g, h);
      NoEmptyKey();
      ValuesKept(g, h, []);
    }

    twostate lemma NoEmptyKey()
      requires old(Valid())
      ensures [] !in old(g).at
      ensures forall b :: b in old(g).role && old(g).role[b].Live? ==> old(g).role[b].key != []
    {
      hide ChainsInv, PoolInv, ValuesInv, CountsInv, Hash, P2;
    }

    twostate lemma TableLinks(g: Shadow, new h: Shadow)
      requires SameTable(g, h)
      ensures old(ChainsInv(g.chains, g.at, g.ents)) ==> ChainsInv(g.chains, g.at, g.ents)
      ensures old(KeysInv(g.chains, g.at, g.ents)) ==> KeysInv(g.chains, g.at, g.ents)
    {
      hide Hash, BucketInv;
      assert forall i :: 0 <= i < bucket.Length ==> bucket[i] == bucket[..][i] == old(bucket[i]);
    }

    /** Another class's list, or the same one less or more by its first buffer. */
    twostate lemma ListKept(g: Shadow, new h: Shadow, new c: nat)
      requires c < NCLASS && old(PoolInv(g.lists, g.role)) && |poolFree| == |h.lists| == NCLASS
      requires poolFree[c] == old(poolFree[c]) && h.lists[c] == g.lists[c]
      requires forall b :: b in g.role && g.role[b] == Free && b.cls == c ==>
                 b in h.role && h.role[b] == Free && b.next == old(b.next)
      ensures ListInv(poolFree[c], c, h.lists[c], h.role)
    {
      assert old(ListInv(poolFree[c], c, g.lists[c], g.role));
    }

    twostate lemma TakenList(g: Shadow, new h: Shadow, new c: nat)
      requires c < NCLASS && old(PoolInv(g.lists, g.role)) && |poolFree| == |h.lists| == NCLASS
      requires g.lists[c] != [] && h.lists[c] == g.lists[c][1..] && poolFree[c] == old(g.lists[c][0].next)
      requires h.role == g.role[g.lists[c][0] := Held] && forall b :: b in g.role ==> b.next == old(b.next)
      ensures ListInv(poolFree[c], c, h.lists[c], h.role)
    {
      assert old(ListInv(poolFree[c], c, g.lists[c], g.role));
      var l := g.lists[c];
      assert forall i :: 0 <= i < |l| - 1 ==> h.lists[c][i] == l[i + 1];
    }

    twostate lemma GivenList(g: Shadow, new h: Shadow, new c: nat)
      requires c < NCLASS && old(PoolInv(g.lists, g.role)) && |poolFree| == |h.lists| == NCLASS
      requires h.lists[c] != [] && h.lists[c][1..] == g.lists[c]
      requires var b := h.lists[c][0];
               && poolFree[c] == b && b.next == old(poolFree[c]) && b.cls == c
               && b in g.role && g.role[b] == Held && h.role == g.role[b := Free]
               && forall x :: x in g.role && x != b ==> x.next == old(x.next)
      ensures ListInv(poolFree[c], c, h.lists[c], h.role)
    {
      assert old(ListInv(poolFree[c], c, g.lists[c], g.role));
      var l := h.lists[c];
      assert forall i :: 0 < i < |l| ==> l[i] == g.lists[c][i - 1];
      if |l| > 1 { assert l[1] == g.lists[c][0]; }
    }

    /** The first free buffer of a class, or null. */
    method PoolTake(c: nat) returns (p: Buf?)
      requires Valid() && c < NCLASS && |g.lists| == NCLASS
      modifies `poolFree, `hits, `g
      ensures if old(g).lists[c] == [] then p == null && g == old(g)
              else p == old(g).lists[c][0] && p in old(g).role && old(g).role[p] == Free && p.cls == c
                   && g == old(g).(lists := old(g).lists[c := old(g).lists[c][1..]], role := old(g).role[p := Held])
      ensures hits == old(hits) + if p != null then 1 else 0
      ensures Valid()
    {
      hide ChainsInv, KeysInv, ValuesInv, PoolInv, BufsInv, CountsInv, Hash, P2;
      FirstFree(c);
      p := poolFree[c];
      if p != null {
        ghost var h := g.(lists := g.lists[c := g.lists[c][1..]], role := g.role[p := Held]);
        poolFree := poolFree[c := p.next];
        hits := hits + 1;
        TableKept(g, h);
        TakenKeeps(g, h, c);
        ghost var l := old(g).lists[c];
        assert forall b :: b in l && b != p ==> b in l[1..] by { assert l == [p] + l[1..]; }
        BufsKept(g, h);
        g := h;
      }
    }

    lemma FirstFree(c: nat)
      requires Valid() && c < NCLASS
      ensures |poolFree| == |g.lists| == NCLASS && (poolFree[c] == null <==> g.lists[c] == [])
      ensures var p := poolFree[c];
              p != null ==> p == g.lists[c][0] && p in g.role && g.role[p] == Free && p.cls == c
    {
      hide ChainsInv, KeysInv, ValuesInv, BufsInv, CountsInv;
    }

    twostate lemma TakenKeeps(g: Shadow, new h: Shadow, new c: nat)
      requires old(Valid()) && c < |g.lists| == NCLASS && SameTable(g, h) && g.lists[c] != []
      requires forall b :: b in g.role ==> b.next == old(b.next) && b.bytes == old(b.bytes)
      requires poolFree == old(poolFree[c := g.lists[c][0].next])
      requires h.lists == g.lists[c := g.lists[c][1..]] && h.role == g.role[g.lists[c][0] := Held]
      ensures PoolInv(h.lists, h.role)
    {
      hide ChainsInv, KeysInv, ValuesInv, BufsInv, CountsInv, Hash, P2, ListInv;
      forall d: nat | d < NCLASS ensures ListInv(poolFree[d], d, h.lists[d], h.role) {
        if d == c { TakenList(g, h, c); } else { FirstClass(c); ListKept(g, h, d); }
      }
    }

    /** Entries, lists and roles still agree when every buffer's place follows its role. */
    twostate lemma BufsKept(g: Shadow, new h: Shadow)
      requires old(Valid()) && SameTable(g, h) && |h.lists| == NCLASS
      requires forall b :: b in h.role ==>
                 && (if b in g.role then |b.bytes| == old(|b.bytes|)
                     else b.cls < NCLASS && |b.bytes| == P2(MIN_SHIFT + b.cls) && h.role[b] == Held)
                 && (h.role[b].Live? ==> b in g.role && h.role[b] == g.role[b])
                 && (h.role[b] == Free ==>
                       if b in g.role && g.role[b] == Free
                       then b.cls < NCLASS == |g.lists| && b in g.lists[b.cls] ==> b in h.lists[b.cls]
                       else b.cls < NCLASS && b in h.lists[b.cls])
      ensures BufsInv(h.at, h.ents, h.role, h.lists)
    {
      hide ChainsInv, KeysInv, ValuesInv, PoolInv, CountsInv, Hash, P2;
    }

    twostate lemma FirstClass(c: nat)
      requires old(Valid()) && c < |old(g).lists| && old(g).lists[c] != []
      ensures c < NCLASS && old(g).lists[c][0].cls == c
    {
      hide ChainsInv, KeysInv, ValuesInv, BufsInv, CountsInv;
    }

    /** Memory newly got for a class joins the pool's accounts, in its request's hands. */
    method Adopt(b: Buf)
      requires Valid() && b !in g.role && b.cls < NCLASS && |b.bytes| == P2(MIN_SHIFT + b.cls)
      modifies `poolBytes, `misses, `g
      ensures poolBytes == old(poolBytes) + P2(MIN_SHIFT + b.cls) && misses == old(misses) + 1
      ensures g == old(g).(role := old(g).role[b := Held])
      ensures Valid()
    {
      hide ChainsInv, KeysInv, ValuesInv, PoolInv, BufsInv, CountsInv, Hash, P2;
      ghost var h := g.(role := g.role[b := Held]);
      poolBytes := poolBytes + P2(MIN_SHIFT + b.cls);
      misses := misses + 1;
      ChainCount();
      TableKept(g, h);
      PoolKept(g, h);
      BufsKept(g, h);
      g := h;
    }

    twostate lemma GivenKeeps(g: Shadow, new h: Shadow, new c: nat)
      requires old(Valid()) && c < |g.lists| == NCLASS && SameTable(g, h)
      requires |h.lists| == NCLASS && h.lists[c] != [] && h.lists == g.lists[c := h.lists[c]]
      requires h.lists[c][1..] == g.lists[c]
      requires var b := h.lists[c][0];
               && |old(poolFree)| == NCLASS && poolFree == old(poolFree)[c := b] && b.next == old(poolFree[c])
               && b.cls == c && b in g.role && g.role[b] == Held && h.role == g.role[b := Free]
               && forall x :: x in g.role && x != b ==> x.next == old(x.next)
      ensures PoolInv(h.lists, h.role)
    {
      hide ChainsInv, KeysInv, ValuesInv, BufsInv, CountsInv, Hash, P2, ListInv;
      forall d: nat | d < NCLASS ensures ListInv(poolFree[d], d, h.lists[d], h.role) {
        if d == c { GivenList(g, h, c); } else { ListKept(g, h, d); }
      }
    }

    /** The link to the next free buffer is stored over the buffer's first bytes. */
    method Push(c: nat, b: Buf)
      requires c < |poolFree| && |b.bytes| >= 8
      modifies `poolFree, b`next, b`bytes
      ensures poolFree == old(poolFree)[c := b] && b.next == old(poolFree[c])
      ensures |b.bytes| == old(|b.bytes|) && b.bytes[8..] == old(b.bytes[8..])
    {
      var zeros: seq<byte> := seq(8, _ => 0);
      var link: seq<byte> :| |link| == |zeros|;
      b.bytes := link + b.bytes[8..];
      b.next := poolFree[c];
      poolFree := poolFree[c := b];
    }

    /** A buffer goes back to its class's list, which may overwrite what it held. */
    method PoolPut(b: Buf, len: nat)
      requires Valid() && b in g.role && g.role[b] == Held && IsClass(len, b.cls) && len < W32
      requires b.cls < |g.lists|
      modifies `poolFree, `g, b`next, b`bytes
      ensures g == old(g).(lists := old(g).lists[b.cls := [b] + old(g).lists[b.cls]], role := old(g).role[b := Free])
      ensures Valid()
    {
      hide ChainsInv, KeysInv, ValuesInv, PoolInv, BufsInv, CountsInv, Hash, IsClass, P2;
      var c := KvPoolClass(len);
      ClassUnique(len, c, b.cls);
      BufFacts(b);
      ChainCount();
      HoldsLink(b.cls);
      ghost var h := g.(lists := g.lists[c := [b] + g.lists[c]], role := g.role[b := Free]);
      Push(c, b);
      TableKept(g, h);
      GivenKeeps(g, h, c);
      BufsKept(g, h);
      g := h;
    }

    /** Writing to a buffer in a request's hands concerns nobody else. */
    twostate lemma HeldWrite(b: Buf)
      requires old(Valid()) && g == old(g) && b in g.role && g.role[b] == Held && |b.bytes| == old(|b.bytes|)
      requires used == old(used) && nkeys == old(nkeys) && poolFree == old(poolFree) && bucket[..] == old(bucket[..])
      requires forall x :: x in g.ents ==>
                 && x.next == old(x.next) && x.key == old(x.key) && x.klen == old(x.klen)
                 && x.val == old(x.val) && x.vlen == old(x.vlen)
      requires forall x :: x in g.role ==> x.next == old(x.next) && (x != b ==> x.bytes == old(x.bytes))
      ensures Valid()
    {
      hide ChainsInv, KeysInv, ValuesInv, PoolInv, BufsInv, CountsInv, Hash, IsClass, P2;
      ListCount();
      TableKept(g, g);
      PoolKept(g, g);
      BufsKept(g, g);
    }

    twostate lemma ListCount()
      requires old(Valid())
      ensures |old(g).lists| == NCLASS
    {
      hide ChainsInv, KeysInv, ValuesInv, BufsInv, CountsInv, ListInv;
    }

    /** A buffer is where its role says, and only there. */
    lemma WhereBuf(b: Buf)
      requires Valid() && b in g.role
      ensures b.cls < NCLASS == |g.lists| && (b in g.lists[b.cls] <==> g.role[b] == Free)
      ensures g.role[b].Live? ==> g.role[b].key in g.at && g.at[g.role[b].key].val == b
      ensures forall k :: k in g.at && g.at[k].val == b ==> g.role[b] == Live(k)
      ensures forall c, i :: 0 <= c < |g.lists| && 0 <= i < |g.lists[c]| && g.lists[c][i] == b ==> c == b.cls
    {
      hide ChainsInv, KeysInv, CountsInv, Hash, P2, IsClass;
      assert ListInv(poolFree[b.cls], b.cls, g.lists[b.cls], g.role);
      forall k | k in g.at && g.at[k].val == b ensures g.role[b] == Live(k) {
        assert ValueInv(g.M[k], k, g.at[k], g.role);
      }
    }
  }
}
