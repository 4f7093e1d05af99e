/** From the builder's capsule through the target to the stored value and back. */
module KvPath {
  import opened Wire
  import KvSpec
  import opened KvIov
  import opened KvServer

  /** Bytes as the table's model has them. */
  function Nums(b: seq<bv8>): (r: seq<KvSpec.byte>)
    ensures |r| == |b|
  {
    seq(|b|, i requires 0 <= i < |b| => b[i] as int)
  }

  /** A Store or Retrieve as the client asks for it. */
  datatype Ask = Ask(opc: bv8, cid: bv16, nsid: bv32, key: seq<bv8>, klen: nat, opts: bv32,
                     addr: bv64, rkey: bv32, len: bv32)
  {
    predicate Legal() { 1 <= klen <= 16 && |key| >= klen && (opc == OPC_STORE || opc == OPC_RETRIEVE) }

    function Key(): KvSpec.Key
      requires Legal()
    {
      Nums(key[..klen])
    }

    /** The 64 bytes on the wire. */
    function Capsule(): (raw: seq<bv8>)
      requires Legal()
      ensures |raw| == 64
    {
      Flatten(KvSqe(opc, cid, nsid, key, klen, opts, addr, rkey, len))
    }
  }

  /** The request the target makes of a capsule it admits. */
  predicate FromCapsule(raw: seq<bv8>, kind: Kind, key: KvSpec.Key)
    requires |raw| == 64
  {
    var r := DecodeKv(raw);
    && Admit(r) == Gate.Run && 1 <= r.klen <= 16 && r.klen as nat <= |r.key|
    && key == Nums(r.key[..r.klen as nat])
    && (r.opc == OPC_STORE ==> kind == KStore(r.cdw10 as nat, Sike(r.cdw11), Sinke(r.cdw11)))
    && (r.opc == OPC_RETRIEVE ==> kind == KRetrieve(r.cdw10 as nat))
  }

  /** What the client asked for is what the target goes by. */
  lemma CapsuleSays(a: Ask, kind: Kind, k: KvSpec.Key)
    requires a.Legal() && FromCapsule(a.Capsule(), kind, k)
    ensures k == a.Key()
    ensures a.opc == OPC_STORE ==> kind == KStore(a.len as nat, Sike(a.opts), Sinke(a.opts))
    ensures a.opc == OPC_RETRIEVE ==> kind == KRetrieve(a.len as nat)
  {
    hide Flatten, KvSqe, DecodeKv, Admit, Nums, Sike, Sinke, Padded, SglLength, Low24;
    KvReads(a.opc, a.cid, a.nsid, a.key, a.klen, a.opts, a.addr, a.rkey, a.len);
    assert HasData(a.opc);
  }

  /**
   * The whole way: of a value stored by one capsule and, after commands on other keys only, asked
   * for by another with the same key, the second client gets the first bytes, as many as its
   * buffer length and its list have room for, then zeros, and the full length.
   */
  lemma StoredComesBack(s: Server, i: nat, p: nat, put: Ask, j: nat, q: nat, get: Ask)
    requires s.Inv() && s.Turn(p, i) && s.Turn(q, j) && p < q && s.Served(i) && s.Served(j)
    requires put.Legal() && get.Legal() && put.opc == OPC_STORE && get.opc == OPC_RETRIEVE
    requires FromCapsule(put.Capsule(), s.reqs[i].kind, s.reqs[i].key)
    requires FromCapsule(get.Capsule(), s.reqs[j].kind, s.reqs[j].key)
    requires get.key[..get.klen] == put.key[..put.klen] && s.reqs[i].sc == KvSpec.SC_OK
    requires forall t :: p < t < q ==> s.log[t].key != put.Key()
    ensures s.reqs[j].sc == KvSpec.SC_OK && s.reqs[j].dw0 == put.len as nat <= |s.reqs[i].sent|
    ensures Flat(s.reqs[j].iov) == Clip(s.reqs[i].sent[..put.len as nat], get.len as nat, s.reqs[j].nbytes)
  {
    hide Server.Inv, Server.Served, Told, FromCapsule, Ask.Capsule, Nums, Flat, Clip;
    CapsuleSays(put, s.reqs[i].kind, s.reqs[i].key);
    CapsuleSays(get, s.reqs[j].kind, s.reqs[j].key);
    s.RoundTrip(i, p, j, q);
  }
}
