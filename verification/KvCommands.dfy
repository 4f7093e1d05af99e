/**
 * The commands, section by section: what each does under the table lock, and what it does
 * before and after with a buffer that is its own.
 */
module KvCommands {
  import opened KvSpec
  import opened KvTable
  import opened KvIov

  ghost function DbOf(kv: Kv): Db
    reads kv
  {
    Db(kv.g.M, kv.used)
  }

  lemma Counted(kv: Kv)
    requires kv.Valid()
    ensures Sane(DbOf(kv)) && kv.used <= kv.limits.capacity && kv.maxValue < W32 && kv.nkeys == |kv.g.M|
    ensures kv.maxValue + MAX_KEY < W32 ==> Exact(DbOf(kv))
  {
    hide Weight, Kv.ChainsInv, Kv.KeysInv, Kv.ValuesInv, Kv.PoolInv, Kv.BufsInv;
  }

  lemma Found(kv: Kv, key: Key)
    requires kv.Valid()
    ensures key in kv.g.at <==> key in kv.g.M
    ensures key in kv.g.at ==>
              && kv.g.at[key] in kv.g.ents && |kv.g.M[key]| == kv.g.at[key].vlen
              && kv.g.at[key].klen == |key| && |key| + |kv.g.M[key]| <= kv.used
  {
    hide Kv.Valid;
    kv.KeyFacts();
    if key in kv.g.at {
      kv.EntryFacts(key);
      kv.UsedFacts(key);
    }
  }

  /** Buffers in the hands of other requests stay there; mine is traded for the one I get back. */
  ghost predicate HandsOff(before: map<Buf, Role>, after: map<Buf, Role>, mine: Buf?, back: Buf?) {
    && (forall b :: b in before && before[b] == Held && b != mine ==> b in after && after[b] == Held)
    && (forall b :: b in after && after[b] == Held && b != back ==> b in before && before[b] == Held && b != mine)
  }

  lemma Traded(before: map<Buf, Role>, mine: Buf?, back: Buf?, r: Role)
    requires mine != null ==> mine in before && before[mine] == Held
    requires back != null ==> back in before && before[back] != Held
    requires r.Live?
    ensures HandsOff(before, Assign(Assign(before, back, Held), mine, r), mine, back)
    ensures Assign(Assign(before, back, Held), mine, r).Keys == before.Keys
  {}

  lemma NoBuffer(role: map<Buf, Role>)
    ensures Assign(role, null, Held) == role
  {}

  lemma Kept(role: map<Buf, Role>, mine: Buf?)
    ensures HandsOff(role, role, mine, mine)
  {}

  /** The part of a store that runs under the table lock. */
  method StoreLocked(kv: Kv, key: Key, vs: nat, val: Buf?, sike: bool, sinke: bool)
    returns (sc: nat, back: Buf?, backLen: nat)
    requires kv.Valid() && 1 <= |key| <= MAX_KEY && vs <= kv.maxValue && kv.Holds(val, vs)
    modifies kv`used, kv`nkeys, kv`g, kv.bucket, kv.g.ents`val, kv.g.ents`vlen
    ensures Sane(old(DbOf(kv)))
    ensures sc == StoreStatus(kv.limits, old(DbOf(kv)), Store(key, old(Content(val, vs)), sike, sinke))
    ensures DbOf(kv) == After(kv.limits, old(DbOf(kv)), Store(key, old(Content(val, vs)), sike, sinke))
    ensures kv.g.lists == old(kv.g.lists) && fresh(kv.g.ents - old(kv.g.ents))
    ensures sc != SC_OK ==> back == val && backLen == vs && kv.g.role == old(kv.g.role)
    ensures sc == SC_OK ==> kv.g.role == Assign(Assign(old(kv.g.role), back, Held), val, Live(key))
    ensures sc == SC_OK && back != null ==> back in old(kv.g.role) && old(kv.g.role)[back] == Live(key)
    ensures HandsOff(old(kv.g.role), kv.g.role, val, back) && kv.g.role.Keys == old(kv.g.role.Keys)
    ensures kv.Holds(back, backLen)
    ensures kv.Valid()
  {
    hide Kv.Valid, Hash, IsClass, Weight, HandsOff, Assign;
    Counted(kv);
    Found(kv, key);
    Kept(kv.g.role, val);
    var prev, e, _ := kv.Find(key);
    back, backLen := val, vs;
    if e != null && sinke {
      return SC_KEY_EXISTS, back, backLen;
    }
    if e == null && sike {
      return SC_KEY_NOT_EXIST, back, backLen;
    }
    if kv.used - (if e == null then 0 else Size32(e.klen, e.vlen)) + (|key| + vs) > kv.limits.capacity {
      return SC_CAPACITY_EXCEEDED, back, backLen;
    }
    sc := SC_OK;
    if e != null {
      back, backLen := kv.Replace(e, key, vs, val);
    } else {
      kv.Insert(key, vs, val);
      back, backLen := null, 0;
      assert Assign(old(kv.g.role), back, Held) == old(kv.g.role) by { NoBuffer(old(kv.g.role)); }
    }
    Traded(old(kv.g.role), val, back, Live(key));
  }

  /** The part of a delete that runs under the table lock; the buffer is for the caller to give back. */
  method DeleteLocked(kv: Kv, key: Key) returns (sc: nat, back: Buf?, backLen: nat)
    requires kv.Valid() && 1 <= |key| <= MAX_KEY
    modifies kv`used, kv`nkeys, kv`g, kv.bucket, kv.g.ents`next
    ensures Sane(old(DbOf(kv)))
    ensures sc == Answer(kv.limits, old(DbOf(kv)), Delete(key)).status
    ensures DbOf(kv) == After(kv.limits, old(DbOf(kv)), Delete(key))
    ensures kv.g.lists == old(kv.g.lists) && kv.g.ents <= old(kv.g.ents)
    ensures kv.g.role == Assign(old(kv.g.role), back, Held)
    ensures back != null ==> back in old(kv.g.role) && old(kv.g.role)[back] == Live(key)
    ensures HandsOff(old(kv.g.role), kv.g.role, null, back) && kv.g.role.Keys == old(kv.g.role.Keys)
    ensures kv.Holds(back, backLen)
    ensures kv.Valid()
  {
    hide Kv.Valid, Hash, IsClass, Weight, Kv.Without;
    Counted(kv);
    Found(kv, key);
    var prev, e, i := kv.Find(key);
    if e == null {
      return if kv.limits.ednek then SC_KEY_NOT_EXIST else SC_OK, null, 0;
    }
    kv.ChainCount();
    kv.ChainFacts(Hash(key), i);
    kv.EntryBuf(key);
    kv.Remove(key, prev, e, i);
    return SC_OK, e.val, e.vlen;
  }

  predicate Apart(iov: seq<array<byte>>) {
    forall i, j :: 0 <= i < j < |iov| ==> iov[i] != iov[j]
  }

  /** A retrieve, under the table lock throughout: it shows a prefix of the value, then zeros. */
  method RetrieveLocked(kv: Kv, key: Key, hbs: nat, nbytes: nat, iov: seq<array<byte>>) returns (sc: nat, dw0: nat)
    requires kv.Valid() && 1 <= |key| <= MAX_KEY && Apart(iov)
    modifies iov
    ensures var r := Answer(kv.limits, DbOf(kv), Retrieve(key));
            && sc == r.status
            && (sc == SC_OK ==>
                  && dw0 == |r.value|
                  && Flat(iov) == Shown(r.value, Min(|r.value|, Min(hbs, nbytes)), |Flat(iov)|))
            && (sc != SC_OK ==> dw0 == 0 && Flat(iov) == old(Flat(iov)))
    ensures |Flat(iov)| == old(|Flat(iov)|)
    ensures kv.Valid()
  {
    hide Kv.Valid, Hash, IsClass, Weight, Flat, Shown;
    Found(kv, key);
    var prev, e, _ := kv.Find(key);
    if e == null {
      return SC_KEY_NOT_EXIST, 0;
    }
    kv.EntryFacts(key);
    kv.EntryBuf(key);
    var n := Min(e.vlen, Min(hbs, nbytes));
    var src := if e.val == null then [] else e.val.bytes;
    BufToIov(iov, src, n);
    ShownPrefix(src, e.vlen, n, |Flat(iov)|);
    return SC_OK, e.vlen;
  }

  lemma ShownPrefix(src: seq<byte>, len: nat, n: nat, size: nat)
    requires n <= len <= |src|
    ensures Shown(src[..len], n, size) == Shown(src, n, size)
  {}

  method ExistLocked(kv: Kv, key: Key) returns (sc: nat)
    requires kv.Valid() && 1 <= |key| <= MAX_KEY
    ensures sc == Answer(kv.limits, DbOf(kv), Exist(key)).status
  {
    hide Kv.Valid, Hash, Weight;
    Found(kv, key);
    var _, e, _ := kv.Find(key);
    sc := if e != null then SC_OK else SC_KEY_NOT_EXIST;
  }

  // ---- a buffer for a value, from the pool or from memory ----

  /** First half of the allocation: a free buffer of the right class, under the pool lock. */
  method TakeFree(kv: Kv, len: nat) returns (p: Buf?)
    requires kv.Valid() && 0 < len < W32
    modifies kv`poolFree, kv`hits, kv`g
    ensures p == null ==> kv.g == old(kv.g)
    ensures p != null ==>
              && p in old(kv.g.role) && old(kv.g.role)[p] == Free
              && kv.g == old(kv.g).(lists := kv.g.lists, role := old(kv.g.role)[p := Held]) && kv.Holds(p, len)
    ensures kv.Valid()
  {
    hide Kv.Valid, IsClass, P2;
    var c := KvPoolClass(len);
    assert kv.Valid() by {
      assert unchanged(kv) && unchanged(kv.bucket) && unchanged(kv.g.ents) && unchanged(kv.g.role.Keys);
    }
    kv.FirstFree(c);
    p := kv.PoolTake(c);
    if p != null {
      kv.BufFacts(p);
      FitsClass(len, c);
    }
  }

  lemma FitsClass(len: nat, c: nat)
    requires IsClass(len, c)
    ensures len <= P2(MIN_SHIFT + c)
  {}

  /** Second half, when the pool has none: new memory, whose content is unspecified. */
  method TakeFresh(kv: Kv, len: nat) returns (p: Buf)
    requires kv.Valid() && 0 < len < W32
    modifies kv`poolBytes, kv`misses, kv`g
    ensures fresh(p) && kv.g == old(kv.g).(role := old(kv.g.role)[p := Held]) && kv.Holds(p, len)
    ensures kv.Valid()
  {
    hide Kv.Valid, IsClass, P2;
    var c := KvPoolClass(len);
    var zeros: seq<byte> := Zeros(P2(MIN_SHIFT + c));
    var content: seq<byte> :| |content| == |zeros|;
    p := new Buf(c, content);
    assert kv.Valid() by {
      assert unchanged(kv) && unchanged(kv.bucket) && unchanged(kv.g.ents) && unchanged(kv.g.role.Keys);
    }
    kv.Adopt(p);
    FitsClass(len, c);
  }

  /** The value comes in, into a buffer nobody else knows. */
  method Gather(kv: Kv, val: Buf?, len: nat, iov: seq<array<byte>>)
    requires kv.Valid() && kv.Holds(val, len) && len <= |Flat(iov)|
    modifies if val == null then {} else {val}
    ensures kv.Holds(val, len)
    ensures Content(val, len) == old(Flat(iov))[..len]
    ensures kv.Valid()
  {
    hide Kv.Valid, IsClass, P2, Flat;
    if val != null {
      var done := IovToBuf(val, len, iov);
      kv.HeldWrite(val);
    }
  }

  method GiveBack(kv: Kv, val: Buf?, len: nat)
    requires kv.Valid() && kv.Holds(val, len)
    modifies kv`poolFree, kv`g, if val == null then {} else {val}
    ensures val == null ==> kv.g == old(kv.g)
    ensures val != null ==> kv.g == old(kv.g).(lists := kv.g.lists, role := old(kv.g.role)[val := Free])
    ensures kv.Valid()
  {
    hide Kv.Valid, IsClass, P2;
    if val != null {
      kv.ChainCount();
      kv.PoolPut(val, len);
    }
  }
}
