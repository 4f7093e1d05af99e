/**
 * The key-value commands as effects on a plain map from keys to values. Keys of different
 * length are different keys (NVM Express Key Value Command Set 1.3, section 2.1).
 */
module KvSpec {
  type byte = x: int | 0 <= x < 256
  type Key = seq<byte>
  type Value = seq<byte>

  const MAX_KEY: nat := 16
  const W32: nat := 0x1_0000_0000

  // generic status codes (Key Value Command Set 1.3, figure 4; base specification)
  const SC_OK: nat := 0
  const SC_INVALID_FIELD: nat := 0x02
  const SC_CAPACITY_EXCEEDED: nat := 0x81
  const SC_INVALID_VALUE_SIZE: nat := 0x85
  const SC_KEY_NOT_EXIST: nat := 0x87
  const SC_KEY_EXISTS: nat := 0x89

  /** Bytes a table accounts for: keys and values. */
  ghost function Weight(m: map<Key, Value>): nat {
    if m == map[] then 0
    else
      var k :| k in m;
      |k| + |m[k]| + Weight(m - {k})
  }

  /** The order in which entries are counted does not matter. */
  lemma {:induction false} WeightSplit(m: map<Key, Value>, k: Key)
    requires k in m
    ensures Weight(m) == |k| + |m[k]| + Weight(m - {k})
    decreases |m|
  {
    var p :| p in m && Weight(m) == |p| + |m[p]| + Weight(m - {p});
    if p != k {
      WeightSplit(m - {p}, k);
      WeightSplit(m - {k}, p);
      assert m - {p} - {k} == m - {k} - {p};
    }
  }

  lemma WeightInsert(m: map<Key, Value>, k: Key, v: Value)
    requires k !in m
    ensures Weight(m[k := v]) == Weight(m) + |k| + |v| && |m[k := v]| == |m| + 1
  {
    WeightSplit(m[k := v], k);
    assert m[k := v] - {k} == m;
  }

  lemma WeightReplace(m: map<Key, Value>, k: Key, v: Value)
    requires k in m
    ensures Weight(m[k := v]) == Weight(m) - |m[k]| + |v| && |m[k := v]| == |m|
    ensures |k| + |m[k]| <= Weight(m)
  {
    WeightSplit(m, k);
    WeightSplit(m[k := v], k);
    assert m[k := v] - {k} == m - {k};
    assert m[k := v].Keys == m.Keys;
  }

  lemma WeightRemove(m: map<Key, Value>, k: Key)
    requires k in m
    ensures Weight(m - {k}) == Weight(m) - |k| - |m[k]| && |m - {k}| == |m| - 1
  {
    WeightSplit(m, k);
    assert m == (m - {k})[k := m[k]];
  }

  // ---- the accounting in 32 bits ----

  /** klen + vlen as the source adds it: an 8-bit and a 32-bit number, in 32 bits. */
  function Size32(klen: nat, vlen: nat): (r: nat)
    ensures r <= klen + vlen
  {
    (klen + vlen) % W32
  }

  /** What the 32-bit sum falls short by. */
  function Short32(klen: nat, vlen: nat): nat { klen + vlen - Size32(klen, vlen) }

  /** The sum is right exactly while it stays below 2^32. */
  lemma Size32Exact(klen: nat, vlen: nat)
    requires klen < 256 && vlen < W32
    ensures Size32(klen, vlen) == klen + vlen <==> klen + vlen < W32
    ensures Short32(klen, vlen) == 0 <==> klen + vlen < W32
  {}

  // ---- commands ----

  datatype Command =
    | Store(key: Key, value: Value, sike: bool, sinke: bool)
    | Retrieve(key: Key)
    | Exist(key: Key)
    | Delete(key: Key)

  datatype Limits = Limits(capacity: nat, ednek: bool)

  /** A map, and the bytes it is believed to hold. */
  datatype Db = Db(m: map<Key, Value>, used: nat)

  /** Status and, for Retrieve, the whole value. */
  datatype Reply = Reply(status: nat, value: Value)

  /** A store of a present key gives back the old pair, as the 32-bit sum sees it. */
  predicate TooBig(l: Limits, d: Db, c: Command)
    requires c.Store?
  {
    d.used - (if c.key in d.m then Size32(|c.key|, |d.m[c.key]|) else 0) + |c.key| + |c.value| > l.capacity
  }

  function StoreStatus(l: Limits, d: Db, c: Command): nat
    requires c.Store?
  {
    if c.key in d.m && c.sinke then SC_KEY_EXISTS
    else if c.key !in d.m && c.sike then SC_KEY_NOT_EXIST
    else if TooBig(l, d, c) then SC_CAPACITY_EXCEEDED
    else SC_OK
  }

  function Answer(l: Limits, d: Db, c: Command): Reply {
    match c
    case Store(_, _, _, _) => Reply(StoreStatus(l, d, c), [])
    case Retrieve(k) => if k in d.m then Reply(SC_OK, d.m[k]) else Reply(SC_KEY_NOT_EXIST, [])
    case Exist(k) => Reply(if k in d.m then SC_OK else SC_KEY_NOT_EXIST, [])
    case Delete(k) => Reply(if k !in d.m && l.ednek then SC_KEY_NOT_EXIST else SC_OK, [])
  }

  ghost predicate Sane(d: Db) { Weight(d.m) <= d.used }

  /** The map and the count after a command. */
  ghost function After(l: Limits, d: Db, c: Command): Db
    requires Sane(d)
  {
    match c
    case Store(k, v, _, _) =>
      if StoreStatus(l, d, c) != SC_OK then d
      else if k in d.m then (WeightReplace(d.m, k, v); Db(d.m[k := v], d.used - |d.m[k]| + |v|))
      else Db(d.m[k := v], d.used + |k| + |v|)
    case Delete(k) =>
      if k !in d.m then d
      else (WeightReplace(d.m, k, []); Db(d.m - {k}, d.used - Size32(|k|, |d.m[k]|)))
    case _ => d
  }

  lemma LooksOnly(l: Limits, d: Db, c: Command)
    requires Sane(d) && (c.Retrieve? || c.Exist?)
    ensures After(l, d, c) == d
  {}

  /** The count never falls below what the map holds, nor rises above the capacity. */
  lemma AfterSane(l: Limits, d: Db, c: Command)
    requires Sane(d)
    ensures Sane(After(l, d, c))
    ensures d.used <= l.capacity ==> After(l, d, c).used <= l.capacity
  {
    hide Weight;
    match c
    case Store(k, v, _, _) =>
      if k in d.m { WeightReplace(d.m, k, v); } else { WeightInsert(d.m, k, v); }
    case Delete(k) =>
      if k in d.m { WeightRemove(d.m, k); }
    case _ =>
  }

  /** Every pair's size fits 32 bits. */
  predicate Short(d: Db) { forall k :: k in d.m ==> |k| + |d.m[k]| < W32 }

  ghost predicate Exact(d: Db) { d.used == Weight(d.m) }

  /** While sizes fit 32 bits the count is exactly the bytes held. */
  lemma AfterExact(l: Limits, d: Db, c: Command)
    requires Exact(d) && Short(d)
    ensures Exact(After(l, d, c))
  {
    hide Weight;
    match c
    case Store(k, v, _, _) =>
      if k in d.m { WeightReplace(d.m, k, v); } else { WeightInsert(d.m, k, v); }
    case Delete(k) =>
      if k in d.m { WeightRemove(d.m, k); }
    case _ =>
  }

  /** Deleting is the one command that can break the count, and it does so exactly when the sum wraps. */
  lemma DeleteExactIff(l: Limits, d: Db, k: Key)
    requires Exact(d) && k in d.m && |k| < 256 && |d.m[k]| < W32
    ensures Exact(After(l, d, Delete(k))) <==> |k| + |d.m[k]| < W32
  {
    hide Weight;
    WeightRemove(d.m, k);
    Size32Exact(|k|, |d.m[k]|);
  }

  /** A one-pair table whose deletion leaves 2^32 bytes charged to an empty map. */
  lemma CountLeaks(k: Key, v: Value)
    requires |k| == 16 && |v| == W32 - 16
    ensures After(Limits(2 * W32, false), Db(map[k := v], W32), Delete(k)) == Db(map[], W32)
    ensures Exact(Db(map[k := v], W32)) && !Exact(Db(map[], W32))
  {
    WeightInsert(map[], k, v);
    assert map[][k := v] == map[k := v];
    assert map[k := v] - {k} == map[];
  }

  /** What a run of commands leaves behind. */
  ghost function Run(l: Limits, cs: seq<Command>): (d: Db)
    ensures Sane(d)
  {
    if cs == [] then Db(map[], 0)
    else
      var d := Run(l, cs[..|cs| - 1]);
      AfterSane(l, d, cs[|cs| - 1]);
      After(l, d, cs[|cs| - 1])
  }

  lemma RunStep(l: Limits, cs: seq<Command>, c: Command)
    ensures Run(l, cs + [c]) == After(l, Run(l, cs), c)
  {
    assert (cs + [c])[..|cs|] == cs;
  }

  /** No command stores a pair whose size does not fit 32 bits. */
  predicate AllFit(cs: seq<Command>) {
    forall i :: 0 <= i < |cs| && cs[i].Store? ==> |cs[i].key| + |cs[i].value| < W32
  }

  /** Commands whose pairs fit leave the count exact: it can go wrong no other way. */
  lemma {:induction false} RunExact(l: Limits, cs: seq<Command>)
    requires AllFit(cs)
    ensures Short(Run(l, cs)) && Exact(Run(l, cs))
    decreases |cs|
  {
    hide Weight, StoreStatus, Size32;
    if cs != [] {
      var n := |cs| - 1;
      RunExact(l, cs[..n]);
      AfterExact(l, Run(l, cs[..n]), cs[n]);
    }
  }

  /** Commands on other keys leave a key's value alone. */
  lemma {:induction false} OtherKeys(l: Limits, cs: seq<Command>, more: seq<Command>, k: Key)
    requires forall i :: 0 <= i < |more| ==> more[i].key != k
    ensures var d, e := Run(l, cs), Run(l, cs + more);
            (k in e.m <==> k in d.m) && (k in d.m ==> e.m[k] == d.m[k])
    decreases |more|
  {
    hide Weight, Run, StoreStatus;
    if more == [] {
      assert cs + more == cs;
    } else {
      var n := |more| - 1;
      OtherKeys(l, cs, more[..n], k);
      assert cs + more == (cs + more[..n]) + [more[n]];
      RunStep(l, cs + more[..n], more[n]);
    }
  }

  /** A value that was stored is what a later Retrieve gets, whatever happened to other keys. */
  lemma StoredIsRetrieved(l: Limits, cs: seq<Command>, c: Command, more: seq<Command>)
    requires c.Store? && StoreStatus(l, Run(l, cs), c) == SC_OK
    requires forall i :: 0 <= i < |more| ==> more[i].key != c.key
    ensures Answer(l, Run(l, cs + [c] + more), Retrieve(c.key)) == Reply(SC_OK, c.value)
  {
    RunStep(l, cs, c);
    OtherKeys(l, cs + [c], more, c.key);
  }
}
