/**
 * The bytes of commands and work-queue entries: several encoders of the same layouts, and the
 * decoders that read them.
 */
module Wire {
  import opened Bytes

  // ---- words ----

  function Lo32(v: bv64): bv32 { (v & 0xffff_ffff) as bv32 }
  function Hi32(v: bv64): bv32 { (v >> 32) as bv32 }
  function Pair(lo: bv32, hi: bv32): bv64 { (lo as bv64) | ((hi as bv64) << 32) }

  function Octet(v: bv32, i: nat): bv8 {
    if i == 0 then (v & 0xff) as bv8 else if i == 1 then ((v >> 8) & 0xff) as bv8
    else if i == 2 then ((v >> 16) & 0xff) as bv8 else ((v >> 24) & 0xff) as bv8
  }

  /** Little-endian and big-endian bytes of a 32-bit word. */
  function Le32(v: bv32): (b: seq<bv8>) ensures |b| == 4 { [Octet(v, 0), Octet(v, 1), Octet(v, 2), Octet(v, 3)] }
  function Be32(v: bv32): (b: seq<bv8>) ensures |b| == 4 { [Octet(v, 3), Octet(v, 2), Octet(v, 1), Octet(v, 0)] }

  /** The byte swap the device code spells out. */
  function Swap32(x: bv32): bv32 {
    ((x & 0x0000_00ff) << 24) | ((x & 0x0000_ff00) << 8) | ((x & 0x00ff_0000) >> 8) | ((x & 0xff00_0000) >> 24)
  }

  /** Known answers for the byte orders. */
  lemma ByteOrders()
    ensures Le32(0x0403_0201) == [1, 2, 3, 4] && Be32(0x0102_0304) == [1, 2, 3, 4]
    ensures Cid(0x8001, 0) == 0x01 && Cid(0x8001, 1) == 0x80
  {}

  lemma SwapTurns(x: bv32)
    ensures Le32(Swap32(x)) == Be32(x)
  {}

  // ---- memory as 32-bit words ----

  const Z: seq<bv8> := [0, 0, 0, 0]

  predicate Words(ws: seq<seq<bv8>>) { forall k :: 0 <= k < |ws| ==> |ws[k]| == 4 }

  /** The bytes of a sequence of four-byte words. */
  function Flatten(ws: seq<seq<bv8>>): (b: seq<bv8>)
    requires Words(ws)
    ensures |b| == 4 * |ws|
  {
    if ws == [] then [] else Flatten(ws[..|ws| - 1]) + ws[|ws| - 1]
  }

  lemma {:induction false} FlattenSplit(a: seq<seq<bv8>>, b: seq<seq<bv8>>)
    requires Words(a) && Words(b)
    ensures Flatten(a + b) == Flatten(a) + Flatten(b)
    decreases |b|
  {
    if b == [] {
      assert a + b == a;
    } else {
      var n := |b| - 1;
      assert (a + b)[..|a| + n] == a + b[..n];
      FlattenSplit(a, b[..n]);
    }
  }

  lemma FlattenParts(ws: seq<seq<bv8>>, k: nat)
    requires Words(ws) && k < |ws|
    ensures Flatten(ws) == Flatten(ws[..k]) + ws[k] + Flatten(ws[k + 1..])
  {
    hide Flatten;
    CutAt(ws, k);
    FlattenThree(ws[..k], ws[k], ws[k + 1..]);
  }

  lemma CutAt(ws: seq<seq<bv8>>, k: nat)
    requires k < |ws|
    ensures ws == ws[..k] + ([ws[k]] + ws[k + 1..])
  {}

  lemma FlattenAt(ws: seq<seq<bv8>>, k: nat)
    requires Words(ws) && k < |ws|
    ensures Flatten(ws) == Flatten(ws[..k]) + ws[k] + Flatten(ws[k + 1..])
    ensures Flatten(ws)[4 * k..4 * k + 4] == ws[k]
  {
    hide Flatten;
    FlattenParts(ws, k);
    Middle(Flatten(ws[..k]), ws[k], Flatten(ws[k + 1..]));
  }

  lemma Middle(a: seq<bv8>, w: seq<bv8>, b: seq<bv8>)
    ensures (a + w + b)[|a|..|a| + |w|] == w
  {}

  lemma FlattenThree(a: seq<seq<bv8>>, w: seq<bv8>, b: seq<seq<bv8>>)
    requires Words(a) && Words(b) && |w| == 4
    ensures Words(a + ([w] + b)) && Flatten(a + ([w] + b)) == Flatten(a) + w + Flatten(b)
  {
    hide Flatten;
    FlattenSplit([w], b);
    FlattenSplit(a, [w] + b);
    FlattenOne(w);
  }

  lemma FlattenOne(w: seq<bv8>)
    requires |w| == 4
    ensures Flatten([w]) == w
  {
    assert [w][..0] == [];
  }

  lemma FlattenUpdate(ws: seq<seq<bv8>>, k: nat, w: seq<bv8>)
    requires Words(ws) && k < |ws| && |w| == 4
    ensures Words(ws[k := w])
    ensures Flatten(ws[k := w]) == Flatten(ws)[..4 * k] + w + Flatten(ws)[4 * k + 4..]
  {
    FlattenAt(ws, k);
    FlattenAt(ws[k := w], k);
    assert ws[k := w][..k] == ws[..k] && ws[k := w][k + 1..] == ws[k + 1..];
  }

  /** Memory of a number of words, and what they are. */
  ghost predicate Is(m: array<bv8>, ws: seq<seq<bv8>>)
    reads m
  {
    Words(ws) && m[..] == Flatten(ws)
  }

  method PutWord(m: array<bv8>, k: nat, w: seq<bv8>, ghost ws: seq<seq<bv8>>)
    requires Is(m, ws) && k < |ws| && |w| == 4
    modifies m
    ensures Is(m, ws[k := w])
  {
    FlattenUpdate(ws, k, w);
    forall j | 0 <= j < 4 {
      m[4 * k + j] := w[j];
    }
    assert m[..] == old(m[..])[..4 * k] + w + old(m[..])[4 * k + 4..];
  }

  method PutByte(m: array<bv8>, k: nat, i: nat, b: bv8, ghost ws: seq<seq<bv8>>)
    requires Is(m, ws) && k < |ws| && i < 4
    modifies m
    ensures Is(m, ws[k := ws[k][i := b]])
  {
    hide Flatten;
    ghost var w := ws[k][i := b];
    FlattenAt(ws, k);
    FlattenUpdate(ws, k, w);
    m[4 * k + i] := b;
    assert m[..] == old(m[..])[..4 * k] + w + old(m[..])[4 * k + 4..];
  }

  // ---- the command capsule ----

  function Cid(cid: bv16, i: nat): bv8 {
    if i == 0 then (cid & 0xff) as bv8 else ((cid >> 8) & 0xff) as bv8
  }

  /** A keyed data-block descriptor: address, 24-bit length, key, type. */
  function Sgl(addr: bv64, len: bv32, rkey: bv32): (ws: seq<seq<bv8>>)
    ensures |ws| == 4 && Words(ws)
  {
    [Le32(Lo32(addr)), Le32(Hi32(addr)),
     [Octet(len, 0), Octet(len, 1), Octet(len, 2), Octet(rkey, 0)],
     [Octet(rkey, 1), Octet(rkey, 2), Octet(rkey, 3), 0x40]]
  }

  /** Zero-based block count, 16 bits. */
  function Blocks(nlb: bv32): bv32 { (nlb - 1) & 0xffff }

  /** A read or write command, 16 words. */
  function RwSqe(opc: bv8, cid: bv16, nsid: bv32, slba: bv64, nlb: bv32, addr: bv64, rkey: bv32, len: bv32)
    : (ws: seq<seq<bv8>>)
    ensures |ws| == 16 && Words(ws)
  {
    [[opc, 0x40, Cid(cid, 0), Cid(cid, 1)], Le32(nsid), Z, Z, Z, Z]
    + Sgl(addr, len, rkey)
    + [Le32(Lo32(slba)), Le32(Hi32(slba)), Le32(Blocks(nlb)), Z, Z, Z]
  }

  method PutSgl(cmd: array<bv8>, addr: bv64, len: bv32, rkey: bv32, ghost was: seq<seq<bv8>>)
    requires Is(cmd, was) && |was| == 16 && |was[8]| == |was[9]| == 4
    modifies cmd
    ensures Is(cmd, was[..6] + Sgl(addr, len, rkey) + was[10..])
  {
    hide Octet, Lo32, Hi32, Flatten, Is, Words, Le32;
    ghost var ws := was;
    PutWord(cmd, 6, Le32(Lo32(addr)), ws);
    ws := ws[6 := Le32(Lo32(addr))];
    PutWord(cmd, 7, Le32(Hi32(addr)), ws);
    ws := ws[7 := Le32(Hi32(addr))];
    PutFour(cmd, 8, Octet(len, 0), Octet(len, 1), Octet(len, 2), Octet(rkey, 0), ws);
    ws := ws[8 := [Octet(len, 0), Octet(len, 1), Octet(len, 2), Octet(rkey, 0)]];
    PutFour(cmd, 9, Octet(rkey, 1), Octet(rkey, 2), Octet(rkey, 3), 0x40, ws);
    ws := ws[9 := [Octet(rkey, 1), Octet(rkey, 2), Octet(rkey, 3), 0x40]];
    assert ws == was[..6] + Sgl(addr, len, rkey) + was[10..];
  }

  /** Four single-byte stores. */
  method PutFour(m: array<bv8>, k: nat, b0: bv8, b1: bv8, b2: bv8, b3: bv8, ghost ws: seq<seq<bv8>>)
    requires Is(m, ws) && k < |ws| && |ws[k]| == 4
    modifies m
    ensures Is(m, ws[k := [b0, b1, b2, b3]])
  {
    hide Flatten, Is, Words;
    ghost var cur := ws;
    PutByte(m, k, 0, b0, cur);
    cur := cur[k := cur[k][0 := b0]];
    PutByte(m, k, 1, b1, cur);
    cur := cur[k := cur[k][1 := b1]];
    PutByte(m, k, 2, b2, cur);
    cur := cur[k := cur[k][2 := b2]];
    PutByte(m, k, 3, b3, cur);
    cur := cur[k := cur[k][3 := b3]];
    assert cur[k] == [b0, b1, b2, b3];
    assert cur == ws[k := [b0, b1, b2, b3]];
  }

  method BuildRw(cmd: array<bv8>, opc: bv8, cid: bv16, nsid: bv32, slba: bv64, nlb: bv32,
                 addr: bv64, rkey: bv32, len: bv32)
    requires cmd.Length == 64
    modifies cmd
    ensures Is(cmd, RwSqe(opc, cid, nsid, slba, nlb, addr, rkey, len))
  {
    hide Octet, Lo32, Hi32, Cid, Flatten, Is, Words, Sgl, Le32;
    forall k | 0 <= k < 64 {
      cmd[k] := 0;
    }
    ghost var ws := [Z, Z, Z, Z, Z, Z, Z, Z, Z, Z, Z, Z, Z, Z, Z, Z];
    IsZero(cmd, ws);
    PutWord(cmd, 0, [opc, 0x40, Cid(cid, 0), Cid(cid, 1)], ws);
    ws := ws[0 := [opc, 0x40, Cid(cid, 0), Cid(cid, 1)]];
    PutWord(cmd, 1, Le32(nsid), ws);
    ws := ws[1 := Le32(nsid)];
    PutSgl(cmd, addr, len, rkey, ws);
    ws := ws[..6] + Sgl(addr, len, rkey) + ws[10..];
    PutWord(cmd, 10, Le32(Lo32(slba)), ws);
    ws := ws[10 := Le32(Lo32(slba))];
    PutWord(cmd, 11, Le32(Hi32(slba)), ws);
    ws := ws[11 := Le32(Hi32(slba))];
    PutWord(cmd, 12, Le32(Blocks(nlb)), ws);
    ws := ws[12 := Le32(Blocks(nlb))];
    assert ws == RwSqe(opc, cid, nsid, slba, nlb, addr, rkey, len);
  }

  lemma IsZero(m: array<bv8>, ws: seq<seq<bv8>>)
    requires m.Length == 4 * |ws| && (forall k :: 0 <= k < m.Length ==> m[k] == 0) && forall k :: 0 <= k < |ws| ==> ws[k] == Z
    ensures Is(m, ws)
  {
    AllZero(m[..], ws);
  }

  lemma {:induction false} AllZero(m: seq<bv8>, ws: seq<seq<bv8>>)
    requires |m| == 4 * |ws| && (forall k :: 0 <= k < |m| ==> m[k] == 0) && forall k :: 0 <= k < |ws| ==> ws[k] == Z
    ensures Words(ws) && m == Flatten(ws)
    decreases |ws|
  {
    if ws != [] {
      var n := |ws| - 1;
      AllZero(m[..4 * n], ws[..n]);
      assert m == m[..4 * n] + m[4 * n..] && m[4 * n..] == Z;
    }
  }

  // ---- key-value commands ----

  const OPC_STORE: bv8 := 0x01
  const OPC_RETRIEVE: bv8 := 0x02
  const OPC_LIST: bv8 := 0x06
  const OPC_DELETE: bv8 := 0x10
  const OPC_EXIST: bv8 := 0x14
  const OPC_FLUSH: bv8 := 0x00

  predicate HasData(opc: bv8) { opc == OPC_STORE || opc == OPC_RETRIEVE || opc == OPC_LIST }

  /** A key in sixteen bytes, zeros after its end. */
  function Padded(key: seq<bv8>, klen: nat): (p: seq<bv8>)
    requires |key| >= if klen < 16 then klen else 16
    ensures |p| == 16
  {
    seq(16, i requires 0 <= i < 16 => if i < klen then key[i] else 0)
  }

  function Cdw11(opc: bv8, klen: bv8, opts: bv32): bv32 {
    (klen as bv32) | (if opc == OPC_STORE || opc == OPC_RETRIEVE then opts & 0xff00 else 0)
  }

  function KvSqe(opc: bv8, cid: bv16, nsid: bv32, key: seq<bv8>, klen: nat, opts: bv32,
                 addr: bv64, rkey: bv32, len: bv32): (ws: seq<seq<bv8>>)
    requires klen < 256 && |key| >= if klen < 16 then klen else 16
    ensures |ws| == 16 && Words(ws)
  {
    var k := Padded(key, klen);
    var has := HasData(opc);
    [[opc, 0x40, Cid(cid, 0), Cid(cid, 1)], Le32(nsid), k[0..4], k[4..8], Z, Z]
    + (if has then Sgl(addr, len, rkey) else Sgl(0, 0, 0))
    + [Le32(if has then len else 0), Le32(Cdw11(opc, klen as bv8, opts)), Z, Z, k[8..12], k[12..16]]
  }

  /** Word of the capsule that holds the i-th key byte. */
  function KeyWord(i: nat): nat { if i < 8 then 2 + i / 4 else 14 + (i - 8) / 4 }

  /** Words of a capsule after the first i key bytes have gone in. */
  ghost function KeyIn(was: seq<seq<bv8>>, p: seq<bv8>, i: nat): (ws: seq<seq<bv8>>)
    requires Words(was) && |was| == 16 && |p| == 16 && i <= 16
    ensures Words(ws) && |ws| == 16
  {
    if i == 0 then was
    else
      var ws := KeyIn(was, p, i - 1);
      var k := KeyWord(i - 1);
      ws[k := ws[k][(i - 1) % 4 := p[i - 1]]]
  }

  lemma {:induction false} KeyInPlace(was: seq<seq<bv8>>, p: seq<bv8>, i: nat)
    requires Words(was) && |was| == 16 && |p| == 16 && i <= 16
    ensures forall k :: 0 <= k < 16 && k != 2 && k != 3 && k != 14 && k != 15 ==> KeyIn(was, p, i)[k] == was[k]
    ensures forall j: nat :: j < i ==> KeyIn(was, p, i)[KeyWord(j)][j % 4] == p[j]
  {
    if i > 0 {
      KeyInPlace(was, p, i - 1);
    }
  }

  lemma KeyInAll(was: seq<seq<bv8>>, p: seq<bv8>)
    requires Words(was) && |was| == 16 && |p| == 16
    ensures KeyIn(was, p, 16) == was[2 := p[0..4]][3 := p[4..8]][14 := p[8..12]][15 := p[12..16]]
  {
    hide KeyIn;
    KeyInPlace(was, p, 16);
    var ws := KeyIn(was, p, 16);
    assert KeyWord(0) == KeyWord(1) == KeyWord(2) == KeyWord(3) == 2;
    assert KeyWord(4) == KeyWord(5) == KeyWord(6) == KeyWord(7) == 3;
    assert KeyWord(8) == KeyWord(9) == KeyWord(10) == KeyWord(11) == 14;
    assert KeyWord(12) == KeyWord(13) == KeyWord(14) == KeyWord(15) == 15;
    Four(ws[2], p, 0);
    Four(ws[3], p, 4);
    Four(ws[14], p, 8);
    Four(ws[15], p, 12);
  }

  method PutKey(cmd: array<bv8>, key: seq<bv8>, klen: nat, ghost was: seq<seq<bv8>>)
    requires Is(cmd, was) && |was| == 16 && |key| >= if klen < 16 then klen else 16
    modifies cmd
    ensures var k := Padded(key, klen);
            Is(cmd, was[2 := k[0..4]][3 := k[4..8]][14 := k[8..12]][15 := k[12..16]])
  {
    ghost var p := Padded(key, klen);
    var i := 0;
    while i < 16
      invariant i <= 16 && Words(was) && Is(cmd, KeyIn(was, p, i))
    {
      hide Flatten, Is;
      var b := if i < klen then key[i] else 0;
      PutByte(cmd, KeyWord(i), i % 4, b, KeyIn(was, p, i));
      i := i + 1;
    }
    KeyInAll(was, p);
  }

  lemma Four(w: seq<bv8>, p: seq<bv8>, off: nat)
    requires |w| == 4 && off + 4 <= |p|
    requires w[0] == p[off] && w[1] == p[off + 1] && w[2] == p[off + 2] && w[3] == p[off + 3]
    ensures w == p[off..off + 4]
  {}

  method BuildKv(cmd: array<bv8>, opc: bv8, cid: bv16, nsid: bv32, key: seq<bv8>, klen: nat, opts: bv32,
                 addr: bv64, rkey: bv32, len: bv32)
    requires cmd.Length == 64 && klen < 256 && |key| >= if klen < 16 then klen else 16
    modifies cmd
    ensures Is(cmd, KvSqe(opc, cid, nsid, key, klen, opts, addr, rkey, len))
  {
    hide Octet, Lo32, Hi32, Cid, Flatten, Is, Words, Sgl, Le32, Cdw11, Padded, Blocks, HasData;
    var has := HasData(opc);
    var a, r, n := if has then addr else 0, if has then rkey else 0, if has then len else 0;
    BuildRw(cmd, opc, cid, nsid, 0, 1, a, r, n);
    ghost var ws := RwSqe(opc, cid, nsid, 0, 1, a, r, n);
    PutWord(cmd, 10, Le32(n), ws);
    ws := ws[10 := Le32(n)];
    PutWord(cmd, 11, Le32(Cdw11(opc, klen as bv8, opts)), ws);
    ws := ws[11 := Le32(Cdw11(opc, klen as bv8, opts))];
    PutWord(cmd, 12, Z, ws);
    ws := ws[12 := Z];
    PutKey(cmd, key, klen, ws);
    KvAssembled(RwSqe(opc, cid, nsid, 0, 1, a, r, n), Le32(n), Le32(Cdw11(opc, klen as bv8, opts)), Padded(key, klen),
                KvSqe(opc, cid, nsid, key, klen, opts, addr, rkey, len));
  }

  lemma KvAssembled(rw: seq<seq<bv8>>, c10: seq<bv8>, c11: seq<bv8>, k: seq<bv8>, kv: seq<seq<bv8>>)
    requires |rw| == |kv| == 16 && |k| == 16
    requires kv[..2] == rw[..2] && kv[4..10] == rw[4..10] && kv[13] == rw[13]
    requires kv[2] == k[0..4] && kv[3] == k[4..8] && kv[14] == k[8..12] && kv[15] == k[12..16]
    requires kv[10] == c10 && kv[11] == c11 && kv[12] == Z
    ensures rw[10 := c10][11 := c11][12 := Z][2 := k[0..4]][3 := k[4..8]][14 := k[8..12]][15 := k[12..16]] == kv
  {
    assert forall i :: 4 <= i < 10 ==> kv[i] == kv[4..10][i - 4] == rw[i];
    assert kv[0] == kv[..2][0] == rw[0] && kv[1] == kv[..2][1] == rw[1];
  }

  // ---- work-queue entries ----

  function IndexWord(pi: bv16): bv32 { ((pi as bv32) << 8) | 0x0a }
  function SizeWord(qpn: bv32, ds: bv32): bv32 { (qpn << 8) | ds }
  function InlineHeader(): bv32 { 64 | 0x8000_0000 }

  /** Control segment of a SEND: opcode 0x0a and counter, queue number and size, completion flag. */
  function Ctrl(pi: bv16, qpn: bv32, ds: bv32, signal: bool): (ws: seq<seq<bv8>>)
    ensures |ws| == 4 && Words(ws)
  {
    [Be32(IndexWord(pi)), Be32(SizeWord(qpn, ds)), if signal then [0, 0, 0, 8] else Z, Z]
  }

  /** A SEND of a capsule in memory. */
  function SendWqe(pi: bv16, qpn: bv32, signal: bool, addr: bv64, lkey: bv32, len: bv32): (ws: seq<seq<bv8>>)
    ensures |ws| == 8 && Words(ws)
  {
    Ctrl(pi, qpn, 2, signal) + [Be32(len), Be32(lkey), Be32(Hi32(addr)), Be32(Lo32(addr))]
  }

  /** A SEND that carries its capsule: control segment, inline header, the capsule, padding. */
  function InlineWqe(pi: bv16, qpn: bv32, signal: bool, sqe: seq<seq<bv8>>): (ws: seq<seq<bv8>>)
    requires |sqe| == 16 && Words(sqe)
    ensures |ws| == 24 && Words(ws)
  {
    Ctrl(pi, qpn, 6, signal) + [Be32(InlineHeader())] + sqe + [Z, Z, Z]
  }

  /** The counter stands in the middle of the first word, the opcode last. */
  lemma CtrlReads(pi: bv16, qpn: bv32, ds: bv32, signal: bool)
    requires ds & 0xffff_ffc0 == 0
    ensures var ws := Ctrl(pi, qpn, ds, signal);
            && ws[0] == [0, Cid(pi, 1), Cid(pi, 0), 0x0a]
            && ws[1][3] & 0x3f == (ds & 0xff) as bv8
  {}

  method PutData(slot: array<bv8>, addr: bv64, lkey: bv32, len: bv32, ghost was: seq<seq<bv8>>)
    requires Is(slot, was) && |was| == 16
    modifies slot
    ensures Is(slot, was[..4] + [Be32(len), Be32(lkey), Be32(Hi32(addr)), Be32(Lo32(addr))] + was[8..])
  {
    hide Octet, Lo32, Hi32, Flatten, Is, Words, Le32, Be32, Swap32;
    ghost var ws := was;
    PutSwapped(slot, 4, len, ws);
    ws := ws[4 := Be32(len)];
    PutSwapped(slot, 5, lkey, ws);
    ws := ws[5 := Be32(lkey)];
    PutSwapped(slot, 6, Hi32(addr), ws);
    ws := ws[6 := Be32(Hi32(addr))];
    PutSwapped(slot, 7, Lo32(addr), ws);
    ws := ws[7 := Be32(Lo32(addr))];
    assert ws == was[..4] + [Be32(len), Be32(lkey), Be32(Hi32(addr)), Be32(Lo32(addr))] + was[8..];
  }

  /** Word for word through the structure, then the flag taken back if no completion is wanted. */
  method BuildSend(slot: array<bv8>, pi: bv16, qpn: bv32, addr: bv64, lkey: bv32, len: bv32, unsig: bool,
                   ghost was: seq<seq<bv8>>)
    requires Is(slot, was) && |was| == 16
    modifies slot
    ensures Is(slot, SendWqe(pi, qpn, !unsig, addr, lkey, len) + was[8..])
  {
    hide Octet, Lo32, Hi32, Flatten, Is, Words, Le32, Be32, Swap32, IndexWord, SizeWord;
    var d0, d1 := IndexWord(pi), SizeWord(qpn, 2);
    Flag();
    ghost var ws := was;
    PutSwapped(slot, 0, d0, ws);
    ws := ws[0 := Be32(d0)];
    PutSwapped(slot, 1, d1, ws);
    ws := ws[1 := Be32(d1)];
    PutWord(slot, 2, Le32(8 << 24), ws);
    ws := ws[2 := Le32(8 << 24)];
    PutWord(slot, 3, Z, ws);
    ws := ws[3 := Z];
    PutData(slot, addr, lkey, len, ws);
    ws := ws[..4] + [Be32(len), Be32(lkey), Be32(Hi32(addr)), Be32(Lo32(addr))] + ws[8..];
    if unsig {
      PutWord(slot, 2, Z, ws);
      ws := ws[2 := Z];
    }
    assert ws == SendWqe(pi, qpn, !unsig, addr, lkey, len) + was[8..];
  }

  method PutSwapped(m: array<bv8>, k: nat, v: bv32, ghost ws: seq<seq<bv8>>)
    requires Is(m, ws) && k < |ws|
    modifies m
    ensures Is(m, ws[k := Be32(v)])
  {
    hide Octet, Flatten, Le32, Be32, Swap32;
    SwapTurns(v);
    PutWord(m, k, Le32(Swap32(v)), ws);
  }

  lemma Flag()
    ensures Le32(8 << 24) == [0, 0, 0, 8] && Le32(0) == Z
  {}

  lemma PairHalves(lo: bv32, hi: bv32)
    ensures Lo32(Pair(lo, hi)) == lo && Hi32(Pair(lo, hi)) == hi
  {}

  /** One 64-bit store. */
  method Put64(m: array<bv8>, k: nat, q: bv64, ghost lo: seq<bv8>, ghost hi: seq<bv8>, ghost ws: seq<seq<bv8>>)
    requires Is(m, ws) && k + 1 < |ws| && lo == Le32(Lo32(q)) && hi == Le32(Hi32(q))
    modifies m
    ensures Is(m, ws[k := lo][k + 1 := hi])
  {
    hide Octet, Flatten, Le32, Lo32, Hi32, Is, Words;
    PutWord(m, k, Le32(Lo32(q)), ws);
    PutWord(m, k + 1, Le32(Hi32(q)), ws[k := Le32(Lo32(q))]);
  }

  lemma SwappedPair(a: bv32, b: bv32)
    ensures Be32(a) == Le32(Lo32(Pair(Swap32(a), Swap32(b))))
    ensures Be32(b) == Le32(Hi32(Pair(Swap32(a), Swap32(b))))
  {
    hide *;
    PairHalves(Swap32(a), Swap32(b));
    SwapTurns(a);
    SwapTurns(b);
  }

  /** Word 1 of the control segment, 64 bits at once. */
  function FlagWord(unsig: bool): bv64 { if unsig then 0 else 0x0800_0000 }

  lemma FlagHalves(unsig: bool)
    ensures Le32(Lo32(FlagWord(unsig))) == (if !unsig then [0, 0, 0, 8] else Z)
    ensures Le32(Hi32(FlagWord(unsig))) == Z
  {}

  /** The same entry put together in registers and stored as four 64-bit words. */
  method PostReg(slot: array<bv8>, pi: bv16, qpn: bv32, addr: bv64, lkey: bv32, unsig: bool, ghost was: seq<seq<bv8>>)
    requires Is(slot, was) && |was| == 16
    modifies slot
    ensures Is(slot, SendWqe(pi, qpn, !unsig, addr, lkey, 64) + was[8..])
  {
    hide Octet, Lo32, Hi32, Flatten, Is, Words, Le32, Be32, Swap32, Pair, FlagWord;
    var d0, d1 := IndexWord(pi), SizeWord(qpn, 2);
    SwappedPair(d0, d1);
    FlagHalves(unsig);
    SwappedPair(64, lkey);
    SwappedPair(Hi32(addr), Lo32(addr));
    ghost var ws := was;
    Put64(slot, 0, Pair(Swap32(d0), Swap32(d1)), Be32(d0), Be32(d1), ws);
    ws := ws[0 := Be32(d0)][1 := Be32(d1)];
    Put64(slot, 2, FlagWord(unsig), if !unsig then [0, 0, 0, 8] else Z, Z, ws);
    ws := ws[2 := if !unsig then [0, 0, 0, 8] else Z][3 := Z];
    Put64(slot, 4, Pair(Swap32(64), Swap32(lkey)), Be32(64), Be32(lkey), ws);
    ws := ws[4 := Be32(64)][5 := Be32(lkey)];
    Put64(slot, 6, Pair(Swap32(Hi32(addr)), Swap32(Lo32(addr))), Be32(Hi32(addr)), Be32(Lo32(addr)), ws);
    ws := ws[6 := Be32(Hi32(addr))][7 := Be32(Lo32(addr))];
    assert ws == SendWqe(pi, qpn, !unsig, addr, lkey, 64) + was[8..];
  }

  // ---- the inline entry, from registers ----

  function D0(opc: bv8, cid: bv16): bv32 { (opc as bv32) | (0x40 << 8) | ((cid as bv32) << 16) }
  function D8(len: bv32, rkey: bv32): bv32 { (len & 0xff_ffff) | ((rkey & 0xff) << 24) }
  function D9(rkey: bv32): bv32 { (rkey >> 8) | (0x40 << 24) }

  lemma D0Bytes(opc: bv8, cid: bv16)
    ensures Le32(D0(opc, cid)) == [opc, 0x40, Cid(cid, 0), Cid(cid, 1)]
  {}

  lemma D8Bytes(len: bv32, rkey: bv32)
    ensures Le32(D8(len, rkey)) == [Octet(len, 0), Octet(len, 1), Octet(len, 2), Octet(rkey, 0)]
    ensures Le32(D9(rkey)) == [Octet(rkey, 1), Octet(rkey, 2), Octet(rkey, 3), 0x40]
  {}

  // The 64-bit words, spelt as the code spells them.
  function Q2(d0: bv32): bv64 { (Swap32(InlineHeader()) as bv64) | ((d0 as bv64) << 32) }
  function Q3(nsid: bv32): bv64 { nsid as bv64 }
  function Q5(addr: bv64): bv64 { (Lo32(addr) as bv64) << 32 }
  function Q6(addr: bv64, d8: bv32): bv64 { (addr >> 32) | ((d8 as bv64) << 32) }
  function Q7(d9: bv32, lba: bv64): bv64 { (d9 as bv64) | ((Lo32(lba) as bv64) << 32) }
  function Q8(lba: bv64, nlb: bv32): bv64 { (lba >> 32) | ((Blocks(nlb) as bv64) << 32) }

  lemma Q2Halves(d0: bv32)
    ensures Le32(Lo32(Q2(d0))) == Be32(InlineHeader()) && Hi32(Q2(d0)) == d0
  {}

  lemma Q3Halves(nsid: bv32)
    ensures Lo32(Q3(nsid)) == nsid && Hi32(Q3(nsid)) == 0
    ensures Lo32(0) == 0 && Hi32(0) == 0
  {}

  lemma Q5Halves(addr: bv64)
    ensures Lo32(Q5(addr)) == 0 && Hi32(Q5(addr)) == Lo32(addr)
  {}

  lemma Q6Halves(addr: bv64, d8: bv32)
    ensures Lo32(Q6(addr, d8)) == Hi32(addr) && Hi32(Q6(addr, d8)) == d8
  {}

  lemma Q7Halves(d9: bv32, lba: bv64)
    ensures Lo32(Q7(d9, lba)) == d9 && Hi32(Q7(d9, lba)) == Lo32(lba)
  {}

  lemma Q8Halves(lba: bv64, nlb: bv32)
    ensures Lo32(Q8(lba, nlb)) == Hi32(lba) && Hi32(Q8(lba, nlb)) == Blocks(nlb)
  {}

  /**
   * The inline post: eight stores into the block of the counter and four into the next. Together
   * they leave the inline entry with exactly the capsule the builder makes, and the rest of the
   * second block as it was.
   */
  method PostInline(b0: array<bv8>, b1: array<bv8>, pi: bv16, qpn: bv32, unsig: bool,
                    opc: bv8, cid: bv16, nsid: bv32, lba: bv64, nlb: bv32, addr: bv64, rkey: bv32, len: bv32,
                    ghost was0: seq<seq<bv8>>, ghost was1: seq<seq<bv8>>)
    requires b0 != b1 && Is(b0, was0) && |was0| == 16 && Is(b1, was1) && |was1| == 16
    modifies b0, b1
    ensures var w := InlineWqe(pi, qpn, !unsig, RwSqe(opc, cid, nsid, lba, nlb, addr, rkey, len));
            Is(b0, w[..16]) && Is(b1, w[16..] + was1[8..])
  {
    hide Octet, Lo32, Hi32, Flatten, Is, Words, Le32, Be32, IndexWord, SizeWord, InlineHeader, Cid, Blocks;
    PostHead(b0, pi, qpn, unsig, D0(opc, cid), was0);
    ghost var h := Ctrl(pi, qpn, 6, !unsig) + [Be32(InlineHeader()), Le32(D0(opc, cid))];
    PostBody(b0, nsid, lba, addr, D8(len, rkey), D9(rkey), h + was0[6..]);
    PostSecond(b1, lba, nlb, was1);
    D0Bytes(opc, cid);
    D8Bytes(len, rkey);
    ghost var w := InlineWqe(pi, qpn, !unsig, RwSqe(opc, cid, nsid, lba, nlb, addr, rkey, len));
    assert w[..16] == h + Body(nsid, lba, addr, D8(len, rkey), D9(rkey));
    assert w[16..] == [Le32(Hi32(lba)), Le32(Blocks(nlb)), Z, Z, Z, Z, Z, Z];
  }

  method PostHead(b0: array<bv8>, pi: bv16, qpn: bv32, unsig: bool, d0: bv32, ghost was: seq<seq<bv8>>)
    requires Is(b0, was) && |was| == 16
    modifies b0
    ensures Is(b0, Ctrl(pi, qpn, 6, !unsig) + [Be32(InlineHeader()), Le32(d0)] + was[6..])
  {
    hide Octet, Lo32, Hi32, Flatten, Is, Words, Le32, Be32, Swap32, Pair, FlagWord, Q2;
    hide IndexWord, SizeWord, InlineHeader;
    var h0, h1 := IndexWord(pi), SizeWord(qpn, 6);
    SwappedPair(h0, h1);
    FlagHalves(unsig);
    Q2Halves(d0);
    ghost var ws := was;
    Put64(b0, 0, Pair(Swap32(h0), Swap32(h1)), Be32(h0), Be32(h1), ws);
    ws := ws[0 := Be32(h0)][1 := Be32(h1)];
    Put64(b0, 2, FlagWord(unsig), if !unsig then [0, 0, 0, 8] else Z, Z, ws);
    ws := ws[2 := if !unsig then [0, 0, 0, 8] else Z][3 := Z];
    Put64(b0, 4, Q2(d0), Be32(InlineHeader()), Le32(d0), ws);
    ws := ws[4 := Be32(InlineHeader())][5 := Le32(d0)];
    assert ws == Ctrl(pi, qpn, 6, !unsig) + [Be32(InlineHeader()), Le32(d0)] + was[6..];
  }

  /** Words 6 to 15 of the inline entry. */
  function Body(nsid: bv32, lba: bv64, addr: bv64, d8: bv32, d9: bv32): (ws: seq<seq<bv8>>)
    ensures |ws| == 10
  {
    [Le32(nsid), Z, Z, Z, Z, Le32(Lo32(addr)), Le32(Hi32(addr)), Le32(d8), Le32(d9), Le32(Lo32(lba))]
  }

  method PostBody(b0: array<bv8>, nsid: bv32, lba: bv64, addr: bv64, d8: bv32, d9: bv32, ghost was: seq<seq<bv8>>)
    requires Is(b0, was) && |was| == 16
    modifies b0
    ensures Is(b0, was[..6] + Body(nsid, lba, addr, d8, d9))
  {
    hide Octet, Lo32, Hi32, Flatten, Is, Words, Le32, Q3, Q5, Q6, Q7;
    Flag();
    Q3Halves(nsid);
    Q5Halves(addr);
    ghost var ws := was;
    Put64(b0, 6, Q3(nsid), Le32(nsid), Z, ws);
    ws := ws[6 := Le32(nsid)][7 := Z];
    Put64(b0, 8, 0, Z, Z, ws);
    ws := ws[8 := Z][9 := Z];
    Put64(b0, 10, Q5(addr), Z, Le32(Lo32(addr)), ws);
    ws := ws[10 := Z][11 := Le32(Lo32(addr))];
    PostTail(b0, lba, addr, d8, d9, ws);
    assert ws[..12] + [Le32(Hi32(addr)), Le32(d8), Le32(d9), Le32(Lo32(lba))]
           == was[..6] + Body(nsid, lba, addr, d8, d9);
  }

  method PostTail(b0: array<bv8>, lba: bv64, addr: bv64, d8: bv32, d9: bv32, ghost was: seq<seq<bv8>>)
    requires Is(b0, was) && |was| == 16
    modifies b0
    ensures Is(b0, was[..12] + [Le32(Hi32(addr)), Le32(d8), Le32(d9), Le32(Lo32(lba))])
  {
    hide Octet, Lo32, Hi32, Flatten, Is, Words, Le32, Q6, Q7;
    Q6Halves(addr, d8);
    Q7Halves(d9, lba);
    ghost var ws := was;
    Put64(b0, 12, Q6(addr, d8), Le32(Hi32(addr)), Le32(d8), ws);
    ws := ws[12 := Le32(Hi32(addr))][13 := Le32(d8)];
    Put64(b0, 14, Q7(d9, lba), Le32(d9), Le32(Lo32(lba)), ws);
    ws := ws[14 := Le32(d9)][15 := Le32(Lo32(lba))];
    assert ws == was[..12] + [Le32(Hi32(addr)), Le32(d8), Le32(d9), Le32(Lo32(lba))];
  }

  method PostSecond(b1: array<bv8>, lba: bv64, nlb: bv32, ghost was: seq<seq<bv8>>)
    requires Is(b1, was) && |was| == 16
    modifies b1
    ensures Is(b1, [Le32(Hi32(lba)), Le32(Blocks(nlb)), Z, Z, Z, Z, Z, Z] + was[8..])
  {
    hide Octet, Lo32, Hi32, Flatten, Is, Words, Le32, Q3, Q8, Blocks;
    Q3Halves(0);
    Q8Halves(lba, nlb);
    Flag();
    ghost var ws := was;
    Put64(b1, 0, Q8(lba, nlb), Le32(Hi32(lba)), Le32(Blocks(nlb)), ws);
    ws := ws[0 := Le32(Hi32(lba))][1 := Le32(Blocks(nlb))];
    Put64(b1, 2, 0, Z, Z, ws);
    ws := ws[2 := Z][3 := Z];
    Put64(b1, 4, 0, Z, Z, ws);
    ws := ws[4 := Z][5 := Z];
    Put64(b1, 6, 0, Z, Z, ws);
    ws := ws[6 := Z][7 := Z];
    assert ws == [Le32(Hi32(lba)), Le32(Blocks(nlb)), Z, Z, Z, Z, Z, Z] + was[8..];
  }

  // ---- decoders ----

  function Word32(b0: bv8, b1: bv8, b2: bv8, b3: bv8): bv32 {
    (b0 as bv32) | ((b1 as bv32) << 8) | ((b2 as bv32) << 16) | ((b3 as bv32) << 24)
  }

  function Word16(b0: bv8, b1: bv8): bv16 { (b0 as bv16) | ((b1 as bv16) << 8) }

  lemma OctetsJoin(v: bv32)
    ensures Word32(Octet(v, 0), Octet(v, 1), Octet(v, 2), Octet(v, 3)) == v
  {}

  lemma CidJoins(c: bv16)
    ensures Word16(Cid(c, 0), Cid(c, 1)) == c
  {}

  lemma HalvesJoin(v: bv64)
    ensures Join(Octet(Lo32(v), 0), Octet(Lo32(v), 1), Octet(Lo32(v), 2), Octet(Lo32(v), 3),
                 Octet(Hi32(v), 0), Octet(Hi32(v), 1), Octet(Hi32(v), 2), Octet(Hi32(v), 3)) == v
  {}

  /** What the dump of an inline entry shows. */
  datatype Dump = Dump(opcode: bv8, ds: bv8, header: bv32, opc: bv8, psdt: bv8, cid: bv16, nsid: bv32,
                       addr: bv64, len: bv32, key: bv32, sgl: bv8, slba: bv64, nlb: bv32)

  function Size(b: bv8): bv8 { b & 0x3f }
  function Count(b0: bv8, b1: bv8): bv32 { (Word16(b0, b1) as bv32) + 1 }

  function DumpInline(w: seq<bv8>): Dump
    requires |w| == 128
  {
    Dump(w[3], Size(w[7]), Word32(w[19], w[18], w[17], w[16]), w[20], w[21], Word16(w[22], w[23]),
         Word32(w[24], w[25], w[26], w[27]), Get64(w, 44),
         Word32(w[52], w[53], w[54], 0), Word32(w[55], w[56], w[57], w[58]), w[59], Get64(w, 60),
         Count(w[68], w[69]))
  }

  /** Bytes of the k-th word. */
  lemma BytesAt(m: seq<bv8>, ws: seq<seq<bv8>>, k: nat)
    requires Words(ws) && m == Flatten(ws) && k < |ws|
    ensures m[4 * k] == ws[k][0] && m[4 * k + 1] == ws[k][1] && m[4 * k + 2] == ws[k][2] && m[4 * k + 3] == ws[k][3]
  {
    hide Flatten;
    FlattenAt(ws, k);
    var w := m[4 * k..4 * k + 4];
    assert w[0] == m[4 * k] && w[1] == m[4 * k + 1] && w[2] == m[4 * k + 2] && w[3] == m[4 * k + 3];
  }

  lemma DumpFront(m: seq<bv8>, ws: seq<seq<bv8>>)
    requires Words(ws) && |ws| == 32 && m == Flatten(ws)
    ensures m[3] == ws[0][3] && m[7] == ws[1][3]
    ensures m[16] == ws[4][0] && m[17] == ws[4][1] && m[18] == ws[4][2] && m[19] == ws[4][3]
    ensures m[20] == ws[5][0] && m[21] == ws[5][1] && m[22] == ws[5][2] && m[23] == ws[5][3]
    ensures m[24] == ws[6][0] && m[25] == ws[6][1] && m[26] == ws[6][2] && m[27] == ws[6][3]
  {
    hide Flatten;
    BytesAt(m, ws, 0);
    BytesAt(m, ws, 1);
    BytesAt(m, ws, 4);
    BytesAt(m, ws, 5);
    BytesAt(m, ws, 6);
  }

  lemma DumpBack(m: seq<bv8>, ws: seq<seq<bv8>>)
    requires Words(ws) && |ws| == 32 && m == Flatten(ws)
    ensures Get64(m, 44) == Join(ws[11][0], ws[11][1], ws[11][2], ws[11][3], ws[12][0], ws[12][1], ws[12][2], ws[12][3])
    ensures m[52] == ws[13][0] && m[53] == ws[13][1] && m[54] == ws[13][2] && m[55] == ws[13][3]
    ensures m[56] == ws[14][0] && m[57] == ws[14][1] && m[58] == ws[14][2] && m[59] == ws[14][3]
    ensures Get64(m, 60) == Join(ws[15][0], ws[15][1], ws[15][2], ws[15][3], ws[16][0], ws[16][1], ws[16][2], ws[16][3])
    ensures m[68] == ws[17][0] && m[69] == ws[17][1]
  {
    hide Flatten, Join;
    BytesAt(m, ws, 11);
    BytesAt(m, ws, 12);
    BytesAt(m, ws, 13);
    BytesAt(m, ws, 14);
    BytesAt(m, ws, 15);
    BytesAt(m, ws, 16);
    BytesAt(m, ws, 17);
  }

  lemma DumpWords(m: seq<bv8>, ws: seq<seq<bv8>>)
    requires Words(ws) && |ws| == 32 && m == Flatten(ws)
    ensures DumpInline(m) ==
            Dump(ws[0][3], Size(ws[1][3]), Word32(ws[4][3], ws[4][2], ws[4][1], ws[4][0]),
                 ws[5][0], ws[5][1], Word16(ws[5][2], ws[5][3]), Word32(ws[6][0], ws[6][1], ws[6][2], ws[6][3]),
                 Join(ws[11][0], ws[11][1], ws[11][2], ws[11][3], ws[12][0], ws[12][1], ws[12][2], ws[12][3]),
                 Word32(ws[13][0], ws[13][1], ws[13][2], 0), Word32(ws[13][3], ws[14][0], ws[14][1], ws[14][2]),
                 ws[14][3],
                 Join(ws[15][0], ws[15][1], ws[15][2], ws[15][3], ws[16][0], ws[16][1], ws[16][2], ws[16][3]),
                 Count(ws[17][0], ws[17][1]))
  {
    hide Flatten, Word32, Word16, Join, Size, Count, Get64;
    DumpFront(m, ws);
    DumpBack(m, ws);
  }

  lemma DumpFields(qpn: bv32, len: bv32, rkey: bv32, nlb: bv32)
    ensures Size(Octet(SizeWord(qpn, 6), 0)) == 6
    ensures Word32(Octet(len, 0), Octet(len, 1), Octet(len, 2), 0) == len & 0xff_ffff
    ensures Count(Octet(Blocks(nlb), 0), Octet(Blocks(nlb), 1)) == Blocks(nlb) + 1
  {}

  lemma HeaderReads()
    ensures Word32(Octet(InlineHeader(), 0), Octet(InlineHeader(), 1), Octet(InlineHeader(), 2), Octet(InlineHeader(), 3))
            == 0x8000_0040
  {}

  lemma OpcodeReads(pi: bv16)
    ensures Octet(IndexWord(pi), 0) == 0x0a
  {}

  /** The dump recovers every field, the length to its 24 bits and the block count from 1 to 65536. */
  lemma DumpReads(pi: bv16, qpn: bv32, signal: bool, opc: bv8, cid: bv16, nsid: bv32, lba: bv64, nlb: bv32,
                  addr: bv64, rkey: bv32, len: bv32, tail: seq<seq<bv8>>)
    requires |tail| == 8 && Words(tail)
    ensures var sqe := RwSqe(opc, cid, nsid, lba, nlb, addr, rkey, len);
            DumpInline(Flatten(InlineWqe(pi, qpn, signal, sqe) + tail)) ==
            Dump(0x0a, 6, 0x8000_0040, opc, 0x40, cid, nsid, addr, len & 0xff_ffff, rkey, 0x40, lba, Blocks(nlb) + 1)
    ensures 1 <= nlb <= 65536 ==> Blocks(nlb) + 1 == nlb
  {
    hide Octet, Lo32, Hi32, Flatten, Word32, Word16, Join, IndexWord, SizeWord, InlineHeader, Cid, DumpInline, Size, Count;
    var sqe := RwSqe(opc, cid, nsid, lba, nlb, addr, rkey, len);
    var ws := InlineWqe(pi, qpn, signal, sqe) + tail;
    DumpWords(Flatten(ws), ws);
    OpcodeReads(pi);
    DumpFields(qpn, len, rkey, nlb);
    HeaderReads();
    CidJoins(cid);
    OctetsJoin(nsid);
    OctetsJoin(rkey);
    HalvesJoin(addr);
    HalvesJoin(lba);
    BlocksExact(nlb);
  }

  // ---- the control segment and the 32-byte entry, read back ----

  /** What the NIC makes of the first four words of an entry. */
  datatype Control = Control(opcode: bv8, idx: bv16, qpn: bv32, ds: bv8, flags: bv8)

  function ReadControl(w: seq<bv8>): Control
    requires |w| >= 16
  {
    Control(w[3], Word16(w[2], w[1]), Word32(w[6], w[5], w[4], 0), w[7], w[11])
  }

  /** The byte address and length of the message, in the entry's data segment. */
  datatype Gather = Gather(len: bv32, lkey: bv32, addr: bv64)

  function ReadGather(w: seq<bv8>): Gather
    requires |w| >= 32
  {
    Gather(Word32(w[19], w[18], w[17], w[16]), Word32(w[23], w[22], w[21], w[20]),
           Join(w[31], w[30], w[29], w[28], w[27], w[26], w[25], w[24]))
  }

  lemma IndexReads(pi: bv16)
    ensures Octet(IndexWord(pi), 0) == 0x0a && Octet(IndexWord(pi), 3) == 0
    ensures Word16(Octet(IndexWord(pi), 1), Octet(IndexWord(pi), 2)) == pi
  {}

  lemma QueueReads(qpn: bv32, ds: bv32)
    requires ds == 2 || ds == 6
    ensures Octet(SizeWord(qpn, ds), 0) == if ds == 2 then 2 else 6
    ensures Word32(Octet(SizeWord(qpn, ds), 1), Octet(SizeWord(qpn, ds), 2), Octet(SizeWord(qpn, ds), 3), 0)
            == qpn & 0xff_ffff
  {}

  /** Every field of the control segment comes back; the completion flag is 8 exactly if one is wanted. */
  lemma ControlReads(ws: seq<seq<bv8>>, pi: bv16, qpn: bv32, ds: bv32, signal: bool)
    requires Words(ws) && |ws| >= 4 && ws[..4] == Ctrl(pi, qpn, ds, signal) && (ds == 2 || ds == 6)
    ensures var w := Flatten(ws);
            && ReadControl(w) == Control(0x0a, pi, qpn & 0xff_ffff, if ds == 2 then 2 else 6, if signal then 8 else 0)
            && w[0] == w[8] == w[9] == w[10] == w[12] == w[13] == w[14] == w[15] == 0
  {
    hide Octet, Flatten, Word16, Word32, IndexWord, SizeWord;
    var c, w := Ctrl(pi, qpn, ds, signal), Flatten(ws);
    assert ws[0] == c[0] && ws[1] == c[1] && ws[2] == c[2] && ws[3] == c[3];
    BytesAt(w, ws, 0);
    BytesAt(w, ws, 1);
    BytesAt(w, ws, 2);
    BytesAt(w, ws, 3);
    IndexReads(pi);
    QueueReads(qpn, ds);
  }

  /** The 32-byte entry, read back in full: nothing is lost but the queue number's upper byte. */
  lemma EntryReads(pi: bv16, qpn: bv32, signal: bool, addr: bv64, lkey: bv32, len: bv32, rest: seq<seq<bv8>>)
    requires Words(rest)
    ensures var w := Flatten(SendWqe(pi, qpn, signal, addr, lkey, len) + rest);
            && ReadControl(w) == Control(0x0a, pi, qpn & 0xff_ffff, 2, if signal then 8 else 0)
            && w[0] == w[8] == w[9] == w[10] == w[12] == w[13] == w[14] == w[15] == 0
            && ReadGather(w) == Gather(len, lkey, addr)
  {
    hide Octet, Flatten, Word16, Word32, Join, Lo32, Hi32, Ctrl, ReadControl;
    var ws := SendWqe(pi, qpn, signal, addr, lkey, len) + rest;
    var w := Flatten(ws);
    assert ws[..4] == Ctrl(pi, qpn, 2, signal);
    ControlReads(ws, pi, qpn, 2, signal);
    assert ws[4] == Be32(len) && ws[5] == Be32(lkey) && ws[6] == Be32(Hi32(addr)) && ws[7] == Be32(Lo32(addr));
    BytesAt(w, ws, 4);
    BytesAt(w, ws, 5);
    BytesAt(w, ws, 6);
    BytesAt(w, ws, 7);
    OctetsJoin(len);
    OctetsJoin(lkey);
    HalvesJoin(addr);
  }

  /** The inline entry: its control segment, the header, the capsule byte for byte, then zeros. */
  lemma InlineReads(pi: bv16, qpn: bv32, signal: bool, sqe: seq<seq<bv8>>, rest: seq<seq<bv8>>)
    requires |sqe| == 16 && Words(sqe) && Words(rest)
    ensures var w := Flatten(InlineWqe(pi, qpn, signal, sqe) + rest);
            && ReadControl(w) == Control(0x0a, pi, qpn & 0xff_ffff, 6, if signal then 8 else 0)
            && w[0] == w[8] == w[9] == w[10] == w[12] == w[13] == w[14] == w[15] == 0
            && Word32(w[19], w[18], w[17], w[16]) == 0x8000_0040
            && w[20..84] == Flatten(sqe) && (forall i :: 84 <= i < 96 ==> w[i] == 0)
  {
    hide Octet, Flatten, Word16, Word32, Ctrl, ReadControl, InlineHeader;
    var head := Ctrl(pi, qpn, 6, signal) + [Be32(InlineHeader())];
    var ws := InlineWqe(pi, qpn, signal, sqe) + rest;
    var w := Flatten(ws);
    assert ws[..4] == Ctrl(pi, qpn, 6, signal);
    ControlReads(ws, pi, qpn, 6, signal);
    assert ws[4] == Be32(InlineHeader());
    BytesAt(w, ws, 4);
    HeaderReads();
    assert ws == head + (sqe + ([Z, Z, Z] + rest));
    CapsuleIn(head, sqe, rest);
  }

  lemma CapsuleIn(head: seq<seq<bv8>>, sqe: seq<seq<bv8>>, rest: seq<seq<bv8>>)
    requires |head| == 5 && Words(head) && |sqe| == 16 && Words(sqe) && Words(rest)
    ensures var w := Flatten(head + (sqe + ([Z, Z, Z] + rest)));
            w[20..84] == Flatten(sqe) && forall i :: 84 <= i < 96 ==> w[i] == 0
  {
    hide Flatten;
    FlattenSplit(head, sqe + ([Z, Z, Z] + rest));
    FlattenSplit(sqe, [Z, Z, Z] + rest);
    ZerosFirst(rest);
    InTheMiddle(Flatten(head), Flatten(sqe), Flatten([Z, Z, Z] + rest));
  }

  lemma ZerosFirst(rest: seq<seq<bv8>>)
    requires Words(rest)
    ensures forall i :: 0 <= i < 12 ==> Flatten([Z, Z, Z] + rest)[i] == 0
  {
    hide Flatten;
    var ws := [Z, Z, Z] + rest;
    BytesAt(Flatten(ws), ws, 0);
    BytesAt(Flatten(ws), ws, 1);
    BytesAt(Flatten(ws), ws, 2);
  }

  lemma InTheMiddle(a: seq<bv8>, m: seq<bv8>, b: seq<bv8>)
    requires |a| == 20 && |m| == 64 && |b| >= 12 && forall i :: 0 <= i < 12 ==> b[i] == 0
    ensures (a + (m + b))[20..84] == m && forall i :: 84 <= i < 96 ==> (a + (m + b))[i] == 0
  {}

  // ---- the fields every capsule has ----

  datatype Head = Head(opc: bv8, psdt: bv8, cid: bv16, nsid: bv32, addr: bv64, len: bv32, rkey: bv32, sgl: bv8)

  function ReadHead(raw: seq<bv8>): Head
    requires |raw| == 64
  {
    Head(raw[0], raw[1], Word16(raw[2], raw[3]), Word32(raw[4], raw[5], raw[6], raw[7]),
         Join(raw[24], raw[25], raw[26], raw[27], raw[28], raw[29], raw[30], raw[31]),
         Word32(raw[32], raw[33], raw[34], 0), Word32(raw[35], raw[36], raw[37], raw[38]), raw[39])
  }

  lemma LengthReads(len: bv32)
    ensures Word32(Octet(len, 0), Octet(len, 1), Octet(len, 2), 0) == len & 0xff_ffff
  {}

  lemma HeadReads(ws: seq<seq<bv8>>, opc: bv8, cid: bv16, nsid: bv32, addr: bv64, len: bv32, rkey: bv32)
    requires Words(ws) && |ws| == 16 && ws[0] == [opc, 0x40, Cid(cid, 0), Cid(cid, 1)] && ws[1] == Le32(nsid)
    requires ws[4] == ws[5] == Z && ws[6..10] == Sgl(addr, len, rkey)
    ensures var raw := Flatten(ws);
            && ReadHead(raw) == Head(opc, 0x40, cid, nsid, addr, len & 0xff_ffff, rkey, 0x40)
            && forall i :: 16 <= i < 24 ==> raw[i] == 0
  {
    hide Octet, Flatten, Word16, Word32, Join, Lo32, Hi32, Cid;
    var raw, g := Flatten(ws), Sgl(addr, len, rkey);
    assert ws[6] == ws[6..10][0] == g[0] && ws[7] == ws[6..10][1] == g[1];
    assert ws[8] == ws[6..10][2] == g[2] && ws[9] == ws[6..10][3] == g[3];
    BytesAt(raw, ws, 0);
    BytesAt(raw, ws, 1);
    BytesAt(raw, ws, 4);
    BytesAt(raw, ws, 5);
    BytesAt(raw, ws, 6);
    BytesAt(raw, ws, 7);
    BytesAt(raw, ws, 8);
    BytesAt(raw, ws, 9);
    CidJoins(cid);
    OctetsJoin(nsid);
    OctetsJoin(rkey);
    HalvesJoin(addr);
    LengthReads(len);
  }

  lemma LowBlocks(nlb: bv32)
    ensures Octet(Blocks(nlb), 2) == 0 && Octet(Blocks(nlb), 3) == 0
    ensures 1 <= nlb <= 65536 ==> (Word16(Octet(Blocks(nlb), 0), Octet(Blocks(nlb), 1)) as bv32) + 1 == nlb
  {}

  /** A read or write command, all 64 bytes: the common fields, first block, block count, and zeros. */
  lemma RwReads(opc: bv8, cid: bv16, nsid: bv32, slba: bv64, nlb: bv32, addr: bv64, rkey: bv32, len: bv32)
    requires 1 <= nlb <= 65536
    ensures var raw := Flatten(RwSqe(opc, cid, nsid, slba, nlb, addr, rkey, len));
            && ReadHead(raw) == Head(opc, 0x40, cid, nsid, addr, len & 0xff_ffff, rkey, 0x40)
            && Join(raw[40], raw[41], raw[42], raw[43], raw[44], raw[45], raw[46], raw[47]) == slba
            && (Word16(raw[48], raw[49]) as bv32) + 1 == nlb
            && forall i :: (8 <= i < 24 || 50 <= i < 64) ==> raw[i] == 0
  {
    hide Octet, Flatten, Word16, Word32, Join, Lo32, Hi32, Cid, Sgl, Blocks, ReadHead;
    var ws := RwSqe(opc, cid, nsid, slba, nlb, addr, rkey, len);
    var raw := Flatten(ws);
    assert ws[6..10] == Sgl(addr, len, rkey);
    HeadReads(ws, opc, cid, nsid, addr, len, rkey);
    BytesAt(raw, ws, 2);
    BytesAt(raw, ws, 3);
    BytesAt(raw, ws, 10);
    BytesAt(raw, ws, 11);
    BytesAt(raw, ws, 12);
    BytesAt(raw, ws, 13);
    BytesAt(raw, ws, 14);
    BytesAt(raw, ws, 15);
    HalvesJoin(slba);
    LowBlocks(nlb);
  }

  lemma BlocksExact(nlb: bv32)
    ensures 1 <= nlb <= 65536 <==> Blocks(nlb) + 1 == nlb
  {}

  // ---- the key-value command as the target reads it ----

  /** The target's view of a capsule: opcode, key length, key (zeros after its end), CDW10, CDW11. */
  datatype Request = Request(opc: bv8, klen: bv8, key: seq<bv8>, cdw10: bv32, cdw11: bv32)

  function DecodeKv(raw: seq<bv8>): Request
    requires |raw| == 64
  {
    var klen := raw[44];
    var key := raw[8..16] + raw[56..64];
    Request(raw[0], klen, Padded(key, if klen < 16 then klen as nat else 16),
            Word32(raw[40], raw[41], raw[42], raw[43]), Word32(raw[44], raw[45], raw[46], raw[47]))
  }

  /** SGL length of the capsule, 24 bits: what the transport moves. */
  function SglLength(raw: seq<bv8>): bv32
    requires |raw| == 64
  {
    Word32(raw[32], raw[33], raw[34], 0)
  }

  // The store conditions, in CDW11 and in the builder's options.
  predicate Sike(cdw11: bv32) { cdw11 & 0x100 != 0 }
  predicate Sinke(cdw11: bv32) { cdw11 & 0x200 != 0 }

  /** Above the key length, CDW11 has the options of a Store or a Retrieve, and nothing otherwise. */
  predicate OptionsKept(opc: bv8, opts: bv32, cdw11: bv32) {
    cdw11 & 0xffff_ff00 == if opc == 0x01 || opc == 0x02 then opts & 0xff00 else 0
  }

  function Low24(n: bv32): bv32 { n & 0xff_ffff }

  /** What the target answers before it looks at the table. */
  datatype Gate = Run | InvalidField | InvalidKeySize | InvalidOpcode

  function Admit(r: Request): Gate {
    if r.opc != OPC_FLUSH && r.klen > 16 then InvalidField
    else if r.klen == 0 && r.opc != OPC_FLUSH && r.opc != OPC_LIST then InvalidKeySize
    else if r.opc == OPC_FLUSH || r.opc == OPC_STORE || r.opc == OPC_RETRIEVE || r.opc == OPC_LIST
            || r.opc == OPC_DELETE || r.opc == OPC_EXIST then Run
    else InvalidOpcode
  }

  /** Which requests reach the table, and what the others are refused for. */
  lemma AdmitSays(r: Request)
    ensures r.opc == 0x00 ==> Admit(r) == Run
    ensures r.opc == 0x06 ==> Admit(r) == if r.klen <= 16 then Run else InvalidField
    ensures r.opc == 0x01 || r.opc == 0x02 || r.opc == 0x10 || r.opc == 0x14 ==>
              Admit(r) == if r.klen > 16 then InvalidField else if r.klen == 0 then InvalidKeySize else Run
    ensures Admit(r) == InvalidOpcode <==>
              1 <= r.klen <= 16 && r.opc !in {0x00, 0x01, 0x02, 0x06, 0x10, 0x14}
  {}

  lemma Cdw11Reads(opc: bv8, klen: bv8, opts: bv32)
    ensures Octet(Cdw11(opc, klen, opts), 0) == klen
    ensures opc == OPC_STORE ==> Cdw11(opc, klen, opts) & 0x100 == opts & 0x100 && Cdw11(opc, klen, opts) & 0x200 == opts & 0x200
    ensures opc != OPC_STORE && opc != OPC_RETRIEVE ==> Cdw11(opc, klen, opts) & 0xff00 == 0
  {}

  lemma SmallLength(klen: nat)
    requires 1 <= klen <= 16
    ensures (klen as bv8) as nat == klen && 1 <= klen as bv8 <= 16 && (klen as bv8 < 16 <==> klen < 16)
  {
    if klen <= 8 {
      assert klen == 1 || klen == 2 || klen == 3 || klen == 4 || klen == 5 || klen == 6 || klen == 7 || klen == 8;
    } else {
      assert klen == 9 || klen == 10 || klen == 11 || klen == 12 || klen == 13 || klen == 14 || klen == 15 || klen == 16;
    }
  }

  lemma TwoWords(raw: seq<bv8>, ws: seq<seq<bv8>>, k: nat)
    requires Words(ws) && raw == Flatten(ws) && k + 1 < |ws|
    ensures raw[4 * k..4 * k + 8] == ws[k] + ws[k + 1]
  {
    hide Flatten;
    FlattenAt(ws, k);
    FlattenAt(ws, k + 1);
    Adjacent(raw, 4 * k, ws[k], ws[k + 1]);
  }

  lemma Adjacent(m: seq<bv8>, off: nat, a: seq<bv8>, b: seq<bv8>)
    requires off + 8 <= |m| && m[off..off + 4] == a && m[off + 4..off + 8] == b
    ensures m[off..off + 8] == a + b
  {}

  lemma KvWords(raw: seq<bv8>, ws: seq<seq<bv8>>)
    requires Words(ws) && |ws| == 16 && raw == Flatten(ws)
    ensures raw[0] == ws[0][0] && raw[8..16] == ws[2] + ws[3] && raw[56..64] == ws[14] + ws[15]
    ensures raw[32] == ws[8][0] && raw[33] == ws[8][1] && raw[34] == ws[8][2]
    ensures raw[40] == ws[10][0] && raw[41] == ws[10][1] && raw[42] == ws[10][2] && raw[43] == ws[10][3]
    ensures raw[44] == ws[11][0] && raw[45] == ws[11][1] && raw[46] == ws[11][2] && raw[47] == ws[11][3]
  {
    hide Flatten;
    BytesAt(raw, ws, 0);
    BytesAt(raw, ws, 8);
    BytesAt(raw, ws, 10);
    BytesAt(raw, ws, 11);
    TwoWords(raw, ws, 2);
    TwoWords(raw, ws, 14);
  }

  lemma PaddedAgain(key: seq<bv8>, klen: nat)
    requires 1 <= klen <= 16 && |key| >= klen
    ensures var p := Padded(key, klen);
            Padded(p[0..4] + p[4..8] + (p[8..12] + p[12..16]), klen) == p && p[..klen] == key[..klen]
  {}

  lemma KvKeyReads(opc: bv8, cid: bv16, nsid: bv32, key: seq<bv8>, klen: nat, opts: bv32, addr: bv64, rkey: bv32, len: bv32)
    requires 1 <= klen <= 16 && |key| >= klen
    ensures var raw := Flatten(KvSqe(opc, cid, nsid, key, klen, opts, addr, rkey, len));
            var r := DecodeKv(raw);
            && r.opc == opc && r.klen as nat == klen && r.key[..klen] == key[..klen] && r.key == Padded(key, klen)
            && r.cdw10 == (if HasData(opc) then len else 0)
            && (opc == OPC_STORE ==> (Sike(r.cdw11) <==> Sike(opts)) && (Sinke(r.cdw11) <==> Sinke(opts)))
            && (HasData(opc) || opc == OPC_DELETE || opc == OPC_EXIST <==> Admit(r) == Run && opc != OPC_FLUSH)
            && SglLength(raw) == Low24(if HasData(opc) then len else 0) && r.cdw11 == Cdw11(opc, klen as bv8, opts)
  {
    hide Octet, Lo32, Hi32, Flatten, Word32, Cid, Cdw11, Padded, DecodeKv, Admit, Sike, Sinke, SglLength, HasData, Low24;
    var ws := KvSqe(opc, cid, nsid, key, klen, opts, addr, rkey, len);
    var raw := Flatten(ws);
    var c11 := Cdw11(opc, klen as bv8, opts);
    KvWords(raw, ws);
    SmallLength(klen);
    Cdw11Reads(opc, klen as bv8, opts);
    PaddedAgain(key, klen);
    OctetsJoin(if HasData(opc) then len else 0);
    OctetsJoin(c11);
    KvFields(raw, key, klen, ws);
    KvConditions(DecodeKv(raw), opts, klen);
    KvSglLength(raw, ws, if HasData(opc) then len else 0);
  }

  /**
   * A key-value capsule is read back as it was built: opcode, key and key length, value or buffer
   * length, the options, and everything a capsule has besides. The length the transport moves agrees
   * below 2^24.
   */
  lemma KvReads(opc: bv8, cid: bv16, nsid: bv32, key: seq<bv8>, klen: nat, opts: bv32, addr: bv64, rkey: bv32, len: bv32)
    requires 1 <= klen <= 16 && |key| >= klen
    ensures var raw := Flatten(KvSqe(opc, cid, nsid, key, klen, opts, addr, rkey, len));
            var r := DecodeKv(raw);
            && r.opc == opc && r.klen as nat == klen && r.key[..klen] == key[..klen] && r.key == Padded(key, klen)
            && r.cdw10 == (if HasData(opc) then len else 0)
            && (opc == OPC_STORE ==> (Sike(r.cdw11) <==> Sike(opts)) && (Sinke(r.cdw11) <==> Sinke(opts)))
            && (HasData(opc) || opc == OPC_DELETE || opc == OPC_EXIST <==> Admit(r) == Run && opc != OPC_FLUSH)
            && SglLength(raw) == Low24(if HasData(opc) then len else 0)
    ensures var raw := Flatten(KvSqe(opc, cid, nsid, key, klen, opts, addr, rkey, len));
            && ReadHead(raw) == (if HasData(opc) then Head(opc, 0x40, cid, nsid, addr, len & 0xff_ffff, rkey, 0x40)
                                 else Head(opc, 0x40, cid, nsid, 0, 0, 0, 0x40))
            && OptionsKept(opc, opts, DecodeKv(raw).cdw11) && KeyStands(raw, key, klen)
            && forall i :: (16 <= i < 24 || 48 <= i < 56) ==> raw[i] == 0
  {
    hide *;
    KvKeyReads(opc, cid, nsid, key, klen, opts, addr, rkey, len);
    KvRest(opc, cid, nsid, key, klen, opts, addr, rkey, len);
    KvOptions(opc, cid, nsid, key, klen, opts, addr, rkey, len);
    KvKeyBytes(opc, cid, nsid, key, klen, opts, addr, rkey, len);
  }

  /** Key bytes 0 to 7 stand at 8, bytes 8 to 15 at 56, and zeros after the key's end. */
  predicate KeyStands(raw: seq<bv8>, key: seq<bv8>, klen: nat)
    requires |raw| == 64 && klen <= |key|
  {
    forall i :: 0 <= i < 16 ==> KeyByte(raw, i) == if i < klen then key[i] else 0
  }

  function KeyByte(raw: seq<bv8>, i: nat): bv8
    requires |raw| == 64 && i < 16
  {
    if i < 8 then raw[8 + i] else raw[48 + i]
  }

  lemma KvKeyBytes(opc: bv8, cid: bv16, nsid: bv32, key: seq<bv8>, klen: nat, opts: bv32, addr: bv64, rkey: bv32, len: bv32)
    requires 1 <= klen <= 16 && |key| >= klen
    ensures KeyStands(Flatten(KvSqe(opc, cid, nsid, key, klen, opts, addr, rkey, len)), key, klen)
  {
    hide Octet, Flatten, Cid, Sgl, Cdw11, HasData, Le32, KeyByte;
    var ws := KvSqe(opc, cid, nsid, key, klen, opts, addr, rkey, len);
    var raw, p := Flatten(ws), Padded(key, klen);
    TwoWords(raw, ws, 2);
    TwoWords(raw, ws, 14);
    KeyFromWords(raw, p, ws);
  }

  lemma KeyFromWords(raw: seq<bv8>, p: seq<bv8>, ws: seq<seq<bv8>>)
    requires |raw| == 64 && |p| == 16 && |ws| == 16
    requires ws[2] == p[0..4] && ws[3] == p[4..8] && ws[14] == p[8..12] && ws[15] == p[12..16]
    requires raw[8..16] == ws[2] + ws[3] && raw[56..64] == ws[14] + ws[15]
    ensures forall i :: 0 <= i < 16 ==> KeyByte(raw, i) == p[i]
  {
    forall i | 0 <= i < 16
      ensures KeyByte(raw, i) == p[i]
    {
      if i < 8 {
        OneKeyByte(raw, 8, p, 0, i);
      } else {
        OneKeyByte(raw, 56, p, 8, i - 8);
      }
    }
  }

  lemma OneKeyByte(raw: seq<bv8>, off: nat, p: seq<bv8>, at: nat, i: nat)
    requires off + 8 <= |raw| && at + 8 <= |p| && i < 8
    requires raw[off..off + 8] == p[at..at + 4] + p[at + 4..at + 8]
    ensures raw[off + i] == p[at + i]
  {
    assert raw[off + i] == raw[off..off + 8][i];
    assert p[at..at + 4] + p[at + 4..at + 8] == p[at..at + 8];
    assert p[at + i] == p[at..at + 8][i];
  }

  lemma KvOptions(opc: bv8, cid: bv16, nsid: bv32, key: seq<bv8>, klen: nat, opts: bv32, addr: bv64, rkey: bv32, len: bv32)
    requires 1 <= klen <= 16 && |key| >= klen
    ensures OptionsKept(opc, opts, DecodeKv(Flatten(KvSqe(opc, cid, nsid, key, klen, opts, addr, rkey, len))).cdw11)
  {
    hide *;
    KvKeyReads(opc, cid, nsid, key, klen, opts, addr, rkey, len);
    OptionsRead(opc, klen as bv8, opts);
  }

  lemma OptionsRead(opc: bv8, klen: bv8, opts: bv32)
    ensures OptionsKept(opc, opts, Cdw11(opc, klen, opts))
  {}

  lemma NoLength()
    ensures 0 as bv32 & 0xff_ffff == 0
  {}

  /** The fields a key-value capsule shares with the others, and its zeros. */
  lemma KvRest(opc: bv8, cid: bv16, nsid: bv32, key: seq<bv8>, klen: nat, opts: bv32, addr: bv64, rkey: bv32, len: bv32)
    requires 1 <= klen <= 16 && |key| >= klen
    ensures var raw := Flatten(KvSqe(opc, cid, nsid, key, klen, opts, addr, rkey, len));
            && ReadHead(raw) == (if HasData(opc) then Head(opc, 0x40, cid, nsid, addr, len & 0xff_ffff, rkey, 0x40)
                                 else Head(opc, 0x40, cid, nsid, 0, 0, 0, 0x40))
            && forall i :: (16 <= i < 24 || 48 <= i < 56) ==> raw[i] == 0
  {
    hide Octet, Flatten, Word16, Word32, Join, Lo32, Hi32, Cid, Sgl, ReadHead, Cdw11, Padded, HasData, Le32;
    var ws := KvSqe(opc, cid, nsid, key, klen, opts, addr, rkey, len);
    var raw := Flatten(ws);
    var a, n, r := if HasData(opc) then addr else 0, if HasData(opc) then len else 0, if HasData(opc) then rkey else 0;
    assert ws[6..10] == Sgl(a, n, r);
    HeadReads(ws, opc, cid, nsid, a, n, r);
    NoLength();
    BytesAt(raw, ws, 12);
    BytesAt(raw, ws, 13);
  }

  lemma KvFields(raw: seq<bv8>, key: seq<bv8>, klen: nat, ws: seq<seq<bv8>>)
    requires |raw| == 64 && 1 <= klen <= 16 && |key| >= klen && |ws| == 16 && Words(ws)
    requires raw[44] == klen as bv8 && (klen as bv8) as nat == klen && (klen as bv8 < 16 <==> klen < 16)
    requires raw[8..16] == ws[2] + ws[3] && raw[56..64] == ws[14] + ws[15]
    ensures var p := ws[2] + ws[3] + (ws[14] + ws[15]);
            DecodeKv(raw) == Request(raw[0], klen as bv8, Padded(p, klen),
                                     Word32(raw[40], raw[41], raw[42], raw[43]),
                                     Word32(raw[44], raw[45], raw[46], raw[47]))
  {
    hide Word32, Padded;
  }

  lemma KvConditions(r: Request, opts: bv32, klen: nat)
    requires 1 <= klen <= 16 && r.klen == klen as bv8 && 1 <= klen as bv8 <= 16 && r.cdw11 == Cdw11(r.opc, r.klen, opts)
    ensures r.opc == OPC_STORE ==> (Sike(r.cdw11) <==> Sike(opts)) && (Sinke(r.cdw11) <==> Sinke(opts))
    ensures HasData(r.opc) || r.opc == OPC_DELETE || r.opc == OPC_EXIST <==> Admit(r) == Run && r.opc != OPC_FLUSH
  {
    hide Cdw11;
    Cdw11Reads(r.opc, r.klen, opts);
  }

  lemma KvSglLength(raw: seq<bv8>, ws: seq<seq<bv8>>, n: bv32)
    requires |raw| == 64 && |ws| == 16 && Words(ws)
    requires raw[32] == ws[8][0] && raw[33] == ws[8][1] && raw[34] == ws[8][2]
    requires ws[8][0] == Octet(n, 0) && ws[8][1] == Octet(n, 1) && ws[8][2] == Octet(n, 2)
    ensures SglLength(raw) == Low24(n)
  {
    DumpFields(0, n, 0, 0);
  }
}
