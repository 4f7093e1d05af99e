/**
 * Many requests at once. A step runs one section of one request: a pool-lock section, the
 * table-lock section, or work on the request's own buffer. Any request may step next.
 */
module KvServer {
  import opened KvSpec
  import opened KvTable
  import opened KvIov
  import opened KvCommands

  datatype Kind = KStore(vs: nat, sike: bool, sinke: bool) | KRetrieve(hbs: nat) | KExist | KDelete

  /** A store goes by the pool, or past an empty one to memory, for a buffer, and fills it. */
  datatype Phase = Begin | NoBuffer | PoolEmpty | Unfilled | Filled | Returning | Finished

  class Request {
    const kind: Kind
    const key: Key
    const nbytes: nat
    const iov: seq<array<byte>>
    ghost const sent: seq<byte>      // what the host put into the list
    var phase: Phase
    var val: Buf?
    var len: nat
    var sc: nat
    var dw0: nat
    ghost var refused: bool          // turned away before any lock was taken

    constructor (kind: Kind, key: Key, iov: seq<array<byte>>)
      ensures phase == Begin && val == null && !refused && dw0 == 0
      ensures this.kind == kind && this.key == key && this.iov == iov
      ensures nbytes == |Flat(iov)| && sent == Flat(iov)
    {
      var n := 0;
      var i := 0;
      while i < |iov|
        invariant i <= |iov| && n == |Flat(iov[..i])|
      {
        FlatTo(iov, i);
        n := n + iov[i].Length;
        i := i + 1;
      }
      assert iov[..|iov|] == iov;
      this.kind, this.key, this.nbytes, this.iov := kind, key, n, iov;
      sent := Flat(iov);
      phase, val, len, sc, dw0, refused := Begin, null, 0, 0, 0, false;
    }

    ghost function Cmd(): Command {
      match kind
      case KStore(vs, sike, sinke) => Store(key, if vs <= |sent| then sent[..vs] else sent, sike, sinke)
      case KRetrieve(_) => Retrieve(key)
      case KExist => Exist(key)
      case KDelete => Delete(key)
    }
  }

  /** Requests and the table have nothing in common but the pool's buffers. */
  ghost predicate Fits(kv: Kv, r: Request)
    reads kv, r, r.iov, if r.val == null then {} else {r.val}
  {
    && 1 <= |r.key| <= MAX_KEY && r.nbytes == |r.sent| == |Flat(r.iov)| && Apart(r.iov)
    && (r.refused ==> r.phase == Finished)
    && (r.phase.Begin? || r.phase.NoBuffer? || r.phase.PoolEmpty? || r.phase.Finished? ==> r.val == null)
    && (r.phase.NoBuffer? || r.phase.PoolEmpty? || r.phase.Unfilled? || r.phase.Filled? ==>
          r.kind.KStore? && r.len == r.kind.vs)
    && (r.kind.KStore? && !r.phase.Begin? && !r.refused ==> r.kind.vs <= kv.maxValue && r.kind.vs <= r.nbytes)
    && (r.phase.NoBuffer? || r.phase.PoolEmpty? ==> 0 < r.len < W32)
    && (r.phase.Unfilled? || r.phase.Filled? || r.phase.Returning? ==> kv.Holds(r.val, r.len))
    && (r.phase == Filled ==> Content(r.val, r.len) == r.sent[..r.len])
    && (!(r.phase.Returning? || r.phase.Finished?) || !r.kind.KRetrieve? ==> Flat(r.iov) == r.sent)
  }

  /** What an answered request was told is what the commands before its own make right. */
  ghost predicate Told(l: Limits, before: seq<Command>, r: Request)
    reads r`sc, r`dw0, r.iov
  {
    var a := Answer(l, Run(l, before), r.Cmd());
    && r.sc == a.status
    && (r.kind.KRetrieve? && r.sc == SC_OK ==>
          && r.dw0 == |a.value|
          && Flat(r.iov) == Shown(a.value, Min(|a.value|, Min(r.kind.hbs, r.nbytes)), |r.sent|))
    && (r.kind.KRetrieve? && r.sc != SC_OK ==> Flat(r.iov) == r.sent)
  }

  ghost predicate Refused(kv: Kv, r: Request)
    reads r
  {
    && r.kind.KStore?
    && r.sc == (if r.kind.vs > kv.maxValue then SC_INVALID_VALUE_SIZE else SC_INVALID_FIELD)
    && (r.kind.vs > kv.maxValue || r.kind.vs > r.nbytes)
  }

  class Server {
    const kv: Kv
    const reqs: seq<Request>
    ghost var log: seq<Command>     // commands in the order of their table-lock sections
    ghost var order: seq<nat>       // whose they are

    /** The memory of every request's list. */
    static ghost function Lists(reqs: seq<Request>): (p: set<array<byte>>)
      ensures forall i :: 0 <= i < |reqs| ==> forall a :: a in reqs[i].iov ==> a in p
    {
      set i: nat, a | i < |reqs| && a in reqs[i].iov :: a
    }

    ghost function Pieces(): set<array<byte>> { Lists(reqs) }

    ghost predicate Private()
    {
      && (forall i, j :: 0 <= i < j < |reqs| ==> reqs[i] != reqs[j])
      && (forall i, j, a :: 0 <= i < |reqs| && 0 <= j < |reqs| && i != j && a in reqs[i].iov ==> a !in reqs[j].iov)
    }

    ghost predicate LogInv()
      reads this, reqs
    {
      && |order| == |log|
      && (forall p :: 0 <= p < |order| ==> order[p] < |reqs| && log[p] == reqs[order[p]].Cmd())
      && (forall p, q :: 0 <= p < q < |order| ==> order[p] != order[q])
      && (forall i :: 0 <= i < |reqs| ==> (i in order <==> (reqs[i].phase.Returning? || reqs[i].phase.Finished?) && !reqs[i].refused))
    }

    /** Request i is in order, alone and beside the others. */
    ghost predicate One(i: nat)
      requires i < |reqs|
      reads kv, reqs, reqs[i].iov, if reqs[i].val == null then {} else {reqs[i].val}
    {
      && Fits(kv, reqs[i]) && (reqs[i].refused ==> Refused(kv, reqs[i]))
      && (forall j :: 0 <= j < |reqs| && j != i && reqs[j].val != null ==> reqs[j].val != reqs[i].val)
    }

    ghost predicate ToldAt(p: nat)
      reads `log, `order, reqs`sc, reqs`dw0, Pieces()
      requires p < |order| == |log|
    {
      order[p] < |reqs| && Told(kv.limits, log[..p], reqs[order[p]])
    }

    ghost predicate Inv()
      reads *
    {
      && kv.Valid() && Private() && LogInv() && DbOf(kv) == Run(kv.limits, log)
      && (forall i :: 0 <= i < |reqs| ==> One(i))
      && (forall p :: 0 <= p < |order| ==> ToldAt(p))
      && (forall b :: b in kv.g.role && kv.g.role[b] == Held ==> InHand(b))
    }

    /** Some request has this buffer. */
    ghost predicate InHand(b: Buf)
      reads reqs
    {
      exists i :: 0 <= i < |reqs| && reqs[i].val == b
    }

    /** Requests that have not begun, with nothing in common. */
    static ghost predicate Waiting(reqs: seq<Request>)
      reads reqs, Lists(reqs)
    {
      && (forall i, j :: 0 <= i < j < |reqs| ==> reqs[i] != reqs[j])
      && (forall i, j, a :: 0 <= i < |reqs| && 0 <= j < |reqs| && i != j && a in reqs[i].iov ==> a !in reqs[j].iov)
      && forall i: nat :: i < |reqs| ==>
           && reqs[i].phase == Begin && reqs[i].val == null && !reqs[i].refused && 1 <= |reqs[i].key| <= MAX_KEY
           && reqs[i].nbytes == |reqs[i].sent| && reqs[i].sent == Flat(reqs[i].iov) && Apart(reqs[i].iov)
    }

    constructor (kv: Kv, reqs: seq<Request>)
      requires kv.Valid() && kv.g.M == map[] && kv.used == 0 && kv.g.role == map[] && Waiting(reqs)
      ensures log == [] && this.kv == kv && this.reqs == reqs
      ensures Inv()
    {
      this.kv, this.reqs, log, order := kv, reqs, [], [];
      new;
      hide Kv.Valid, Waiting;
      Started();
    }

    lemma Started()
      requires kv.Valid() && kv.g.M == map[] && kv.used == 0 && kv.g.role == map[] && Waiting(reqs)
      requires log == [] && order == []
      ensures Inv()
    {
      hide Kv.Valid, Run, Flat;
      EmptyRun(kv.limits);
      forall i: nat | i < |reqs| ensures One(i) {}
    }

    /** All that a step of request i does to the others' world. */
    twostate predicate Aside(i: nat)
      reads this, kv, reqs, kv.g.role.Keys, Pieces()
    {
      && i < |reqs| && old(log) <= log && old(order) <= order && |order| == |log|
      && (forall j :: 0 <= j < |reqs| && j != i ==>
            && unchanged(reqs[j]) && (forall a :: a in reqs[j].iov ==> a[..] == old(a[..])))
      && HandsOff(old(kv.g.role), kv.g.role, old(reqs[i].val), reqs[i].val)
      && (forall b :: b in old(kv.g.role) && old(kv.g.role)[b] == Held && b != old(reqs[i].val) && b in kv.g.role ==>
            b.bytes == old(b.bytes))
      && (var v := reqs[i].val;
          v != null && v != old(reqs[i].val) ==> !(v in old(kv.g.role) && old(kv.g.role)[v] == Held))
    }

    twostate lemma OneKept(i: nat, new j: nat)
      requires Aside(i) && j < |reqs| && j != i && old(One(j))
      ensures Fits(kv, reqs[j]) && (reqs[j].refused ==> Refused(kv, reqs[j]))
      ensures reqs[j].val != null ==> reqs[j].val != reqs[i].val
    {
      hide IsClass, Flat;
      FlatSame(reqs[j].iov);
    }

    twostate lemma ToldKept(i: nat, new p: nat)
      requires Aside(i) && p < |old(order)| == |old(log)| && old(ToldAt(p)) && order[p] != i
      ensures ToldAt(p)
    {
      hide Flat, Answer, Run, Shown;
      FlatSame(reqs[order[p]].iov);
      assert log[..p] == old(log)[..p];
    }

    ghost predicate Served(i: nat)
      reads reqs
      requires i < |reqs|
    {
      (reqs[i].phase.Returning? || reqs[i].phase.Finished?) && !reqs[i].refused
    }

    twostate lemma SameLog(i: nat)
      requires old(LogInv()) && Aside(i) && log == old(log) && order == old(order)
      requires Served(i) <==> old(Served(i))
      ensures LogInv()
    {
      assert forall j :: 0 <= j < |reqs| ==> (Served(j) <==> old(Served(j)));
    }

    twostate lemma LongerLog(i: nat)
      requires old(LogInv()) && Aside(i) && log == old(log) + [reqs[i].Cmd()] && order == old(order) + [i]
      requires Served(i) && !old(Served(i))
      ensures LogInv()
    {
      assert forall j :: 0 <= j < |reqs| && j != i ==> (Served(j) <==> old(Served(j)));
      assert i !in old(order);
    }

    twostate lemma InvBack(i: nat)
      requires old(Inv()) && Aside(i) && kv.Valid() && LogInv() && DbOf(kv) == Run(kv.limits, log)
      requires Fits(kv, reqs[i]) && (reqs[i].refused ==> Refused(kv, reqs[i]))
      requires forall p :: 0 <= p < |order| && order[p] == i ==> ToldAt(p)
      requires forall p :: |old(order)| <= p < |order| ==> order[p] == i
      ensures Inv()
    {
      hide Kv.Valid, LogInv, DbOf, Run, Fits, Refused, One, ToldAt;
      OldParts();
      forall j: nat | j < |reqs| ensures old(One(j)) { OldPart(j); }
      forall j: nat | j < |reqs| ensures One(j) {
        OneBack(i, j);
      }
      forall p: nat | p < |order| ensures ToldAt(p) {
        if order[p] != i {
          OldTold(p);
          ToldKept(i, p);
        }
      }
      forall b | b in kv.g.role && kv.g.role[b] == Held ensures InHand(b) {
        OldHand(i, b);
      }
    }

    twostate lemma OldHand(i: nat, new b: Buf)
      requires old(Inv()) && Aside(i) && b in kv.g.role && kv.g.role[b] == Held
      ensures InHand(b)
    {
      hide Kv.Valid, DbOf, Run, One, ToldAt, LogInv;
      if b == reqs[i].val {
      } else {
        assert old(InHand(b));
        var j :| 0 <= j < |reqs| && old(reqs[j].val) == b;
        assert reqs[j].val == b;
      }
    }

    twostate lemma OldParts()
      requires old(Inv())
      ensures old(LogInv()) && Private() && |old(order)| == |old(log)|
    {
      hide Kv.Valid, DbOf, Run, One, ToldAt;
    }

    twostate lemma OldPart(j: nat)
      requires old(Inv()) && j < |reqs|
      ensures old(One(j))
    {
      hide Kv.Valid, DbOf, Run, One, ToldAt, LogInv;
    }

    twostate lemma OldTold(p: nat)
      requires old(Inv()) && p < |old(order)|
      ensures |old(order)| == |old(log)| && old(ToldAt(p))
    {
      hide Kv.Valid, DbOf, Run, One, ToldAt;
    }

    twostate lemma OneBack(i: nat, new j: nat)
      requires Aside(i) && j < |reqs| && old(One(j))
      requires Fits(kv, reqs[i]) && (reqs[i].refused ==> Refused(kv, reqs[i]))
      requires forall k: nat :: k < |reqs| ==> old(One(k))
      ensures One(j)
    {
      hide IsClass, Flat, Fits, Refused;
      if j != i { OneKept(i, j); }
      forall k: nat | k < |reqs| && k != j && reqs[k].val != null ensures reqs[k].val != reqs[j].val {
        if k == i { OneKept(i, j); } else if j == i { OneKept(i, k); }
      }
    }

    twostate lemma ToldSame(i: nat, new p: nat)
      requires i < |reqs| && log == old(log) && order == old(order) && p < |order| == |log|
      requires order[p] == i && reqs[i].sc == old(reqs[i].sc) && reqs[i].dw0 == old(reqs[i].dw0)
      requires Flat(reqs[i].iov) == old(Flat(reqs[i].iov)) && old(ToldAt(p))
      ensures ToldAt(p)
    {
      hide Flat, Answer, Run, Shown;
    }

    lemma Parts(i: nat)
      requires Inv() && i < |reqs|
      ensures kv.Valid() && Private() && Fits(kv, reqs[i]) && |order| == |log|
    {
      hide Kv.Valid, Run, Fits, Refused, ToldAt;
      assert One(i);
    }

    // ---- the sections of a request ----

    /** Checks that need no lock: a store may be turned away here. */
    method Check(i: nat)
      requires Inv() && i < |reqs| && reqs[i].phase == Begin && reqs[i].kind.KStore?
      modifies reqs[i]
      ensures log == old(log)
      ensures Inv()
    {
      var r := reqs[i];
      if r.kind.vs > kv.maxValue {
        Refuse(i, SC_INVALID_VALUE_SIZE);
      } else if r.kind.vs > r.nbytes {
        Refuse(i, SC_INVALID_FIELD);
      } else {
        Admit(i);
      }
    }

    method Refuse(i: nat, sc: nat)
      requires Inv() && i < |reqs| && reqs[i].phase == Begin && reqs[i].kind.KStore?
      requires reqs[i].kind.vs > kv.maxValue || reqs[i].kind.vs > reqs[i].nbytes
      requires sc == if reqs[i].kind.vs > kv.maxValue then SC_INVALID_VALUE_SIZE else SC_INVALID_FIELD
      modifies reqs[i]
      ensures log == old(log)
      ensures Inv()
    {
      hide Kv.Valid, Run, Flat, IsClass, LogInv, ToldAt;
      OldPart(i);
      OldParts();
      reqs[i].phase, reqs[i].sc, reqs[i].refused := Finished, sc, true;
      SameLog(i);
      InvBack(i);
    }

    method Admit(i: nat)
      requires Inv() && i < |reqs| && reqs[i].phase == Begin && reqs[i].kind.KStore?
      requires reqs[i].kind.vs <= kv.maxValue && reqs[i].kind.vs <= reqs[i].nbytes
      modifies reqs[i]
      ensures log == old(log)
      ensures Inv()
    {
      hide Kv.Valid, Run, Flat, IsClass, LogInv, ToldAt;
      Counted(kv);
      OldPart(i);
      OldParts();
      reqs[i].len := reqs[i].kind.vs;
      reqs[i].phase := if reqs[i].len == 0 then Unfilled else NoBuffer;
      SameLog(i);
      InvBack(i);
    }

    /** A free buffer, if there is one, under the pool lock. */
    method Take(i: nat)
      requires Inv() && i < |reqs| && reqs[i].phase == NoBuffer
      modifies reqs[i], kv`poolFree, kv`hits, kv`g
      ensures log == old(log)
      ensures kv.g.ents == old(kv.g.ents) && kv.g.role.Keys == old(kv.g.role.Keys)
      ensures Inv()
    {
      hide Kv.Valid, Run, Flat, IsClass, LogInv, ToldAt;
      var r := reqs[i];
      OldPart(i);
      OldParts();
      r.val := TakeFree(kv, r.len);
      r.phase := if r.val == null then PoolEmpty else Unfilled;
      SameLog(i);
      InvBack(i);
    }

    /** New memory, and its place in the pool's accounts. */
    method Grow(i: nat)
      requires Inv() && i < |reqs| && reqs[i].phase == PoolEmpty
      modifies reqs[i], kv`poolBytes, kv`misses, kv`g
      ensures log == old(log)
      ensures kv.g.ents == old(kv.g.ents) && fresh(kv.g.role.Keys - old(kv.g.role.Keys))
      ensures Inv()
    {
      hide Kv.Valid, Run, Flat, IsClass, LogInv, ToldAt;
      var r := reqs[i];
      OldPart(i);
      OldParts();
      r.val := TakeFresh(kv, r.len);
      r.phase := Unfilled;
      SameLog(i);
      InvBack(i);
    }

    /** The value arrives in the request's own buffer. */
    method Fill(i: nat)
      requires Inv() && i < |reqs| && reqs[i].phase == Unfilled
      modifies reqs[i], if reqs[i].val == null then {} else {reqs[i].val}
      ensures log == old(log)
      ensures Inv()
    {
      hide Kv.Valid, Run, Flat, IsClass, LogInv, ToldAt;
      var r := reqs[i];
      OldPart(i);
      OldParts();
      Gather(kv, r.val, r.len, r.iov);
      r.phase := Filled;
      FlatSame(r.iov);
      SameLog(i);
      InvBack(i);
    }

    /** A buffer no longer needed goes back, under the pool lock. */
    method Return(i: nat)
      requires Inv() && i < |reqs| && reqs[i].phase == Returning
      modifies reqs[i], kv`poolFree, kv`g, if reqs[i].val == null then {} else {reqs[i].val}
      ensures log == old(log)
      ensures kv.g.ents == old(kv.g.ents) && kv.g.role.Keys == old(kv.g.role.Keys)
      ensures Inv()
    {
      hide Inv, Fits, Refused, One, Kv.Valid, Run, Flat, IsClass, LogInv, ToldAt, Assign;
      var r := reqs[i];
      Parts(i);
      OldParts();
      OldDb();
      ReturnSection(i);
      SameLog(i);
      forall p: nat | p < |order| && order[p] == i ensures ToldAt(p) {
        OldTold(p);
        ToldSame(i, p);
      }
      InvBack(i);
    }

    method ReturnSection(i: nat)
      requires Private() && i < |reqs| && Fits(kv, reqs[i]) && reqs[i].phase == Returning && |order| == |log|
      requires kv.Valid()
      modifies reqs[i], kv`poolFree, kv`g, if reqs[i].val == null then {} else {reqs[i].val}
      ensures kv.g.ents == old(kv.g.ents) && kv.g.role.Keys == old(kv.g.role.Keys)
      ensures reqs[i].phase == Finished && reqs[i].sc == old(reqs[i].sc) && reqs[i].dw0 == old(reqs[i].dw0)
      ensures !reqs[i].refused && !old(reqs[i].refused) && DbOf(kv) == old(DbOf(kv))
      ensures Aside(i) && Fits(kv, reqs[i]) && Flat(reqs[i].iov) == old(Flat(reqs[i].iov))
      ensures kv.Valid()
    {
      hide Kv.Valid, Run, Flat, IsClass;
      var r := reqs[i];
      GiveBack(kv, r.val, r.len);
      r.phase, r.val := Finished, null;
      FlatSame(r.iov);
    }

    /** The command has taken effect; what is left is a buffer to return. */
    method Record(i: nat, sc: nat, dw0: nat, back: Buf?, backLen: nat)
      requires i < |reqs|
      modifies `log, `order, reqs[i]
      ensures log == old(log) + [reqs[i].Cmd()] && order == old(order) + [i]
      ensures var r := reqs[i];
              r.phase == Returning && r.sc == sc && r.dw0 == dw0 && r.val == back && r.len == backLen
              && r.refused == old(r.refused)
    {
      var r := reqs[i];
      r.phase, r.sc, r.dw0, r.val, r.len := Returning, sc, dw0, back, backLen;
      log, order := log + [r.Cmd()], order + [i];
    }

    twostate lemma Recorded(i: nat)
      requires old(Inv()) && Aside(i) && log == old(log) + [reqs[i].Cmd()] && order == old(order) + [i]
      requires Served(i) && !old(Served(i)) && kv.Valid()
      requires DbOf(kv) == After(kv.limits, old(DbOf(kv)), reqs[i].Cmd())
      requires Fits(kv, reqs[i]) && (reqs[i].refused ==> Refused(kv, reqs[i]))
      requires Told(kv.limits, old(log), reqs[i])
      ensures Inv()
    {
      hide Kv.Valid, Run, Flat, IsClass, LogInv, Fits, Refused, Told, After, Weight;
      OldParts();
      LongerLog(i);
      RunStep(kv.limits, old(log), reqs[i].Cmd());
      OldDb();
      FreshEntry(i);
      assert log[..|old(log)|] == old(log);
      InvBack(i);
    }

    twostate lemma OldDb()
      requires old(Inv())
      ensures old(DbOf(kv)) == Run(kv.limits, old(log))
    {
      hide Kv.Valid, Run, One, ToldAt, LogInv;
    }

    twostate lemma FreshEntry(i: nat)
      requires old(LogInv()) && i < |reqs| && !old(Served(i))
      ensures i !in old(order)
    {
    }

    /** The table-lock section of a store. */
    method Put(i: nat)
      requires Inv() && i < |reqs| && reqs[i].phase == Filled
      modifies `log, `order, reqs[i], kv`used, kv`nkeys, kv`g, kv.bucket, kv.g.ents`val, kv.g.ents`vlen
      ensures log == old(log) + [reqs[i].Cmd()]
      ensures fresh(kv.g.ents - old(kv.g.ents)) && kv.g.role.Keys == old(kv.g.role.Keys)
      ensures Inv()
    {
      hide Inv, One, Kv.Valid, Run, Flat, IsClass, LogInv, ToldAt, After, Weight, StoreStatus, Shown, Assign, HandsOff;
      Parts(i);
      OldParts();
      OldDb();
      PutSection(i);
      Recorded(i);
    }

    method PutSection(i: nat)
      requires kv.Valid() && Private() && i < |reqs| && Fits(kv, reqs[i]) && reqs[i].phase == Filled
      requires |order| == |log| && DbOf(kv) == Run(kv.limits, log)
      modifies `log, `order, reqs[i], kv`used, kv`nkeys, kv`g, kv.bucket, kv.g.ents`val, kv.g.ents`vlen
      ensures log == old(log) + [reqs[i].Cmd()] && order == old(order) + [i]
      ensures fresh(kv.g.ents - old(kv.g.ents)) && kv.g.role.Keys == old(kv.g.role.Keys)
      ensures reqs[i].phase == Returning && !reqs[i].refused
      ensures Sane(old(DbOf(kv))) && DbOf(kv) == After(kv.limits, old(DbOf(kv)), reqs[i].Cmd())
      ensures Aside(i) && Fits(kv, reqs[i]) && Told(kv.limits, old(log), reqs[i])
      ensures kv.Valid()
    {
      hide Kv.Valid, Run, Flat, IsClass, After, Weight, StoreStatus, Shown, Assign, HandsOff, Fits, Told;
      var r := reqs[i];
      FilledFacts(kv, r);
      var sc, back, backLen := StoreLocked(kv, r.key, r.kind.vs, r.val, r.kind.sike, r.kind.sinke);
      Record(i, sc, 0, back, backLen);
      FitsReturning(r);
      StoreTold(kv.limits, old(log), r);
    }

    lemma FilledFacts(kv: Kv, r: Request)
      requires Fits(kv, r) && r.phase == Filled
      ensures 1 <= |r.key| <= MAX_KEY && r.kind.KStore? && r.kind.vs <= kv.maxValue && r.len == r.kind.vs
      ensures kv.Holds(r.val, r.len) && r.Cmd() == Store(r.key, Content(r.val, r.len), r.kind.sike, r.kind.sinke)
      ensures !r.refused
    {
      hide IsClass, Flat;
    }

    twostate lemma FitsReturning(r: Request)
      requires old(Fits(kv, r)) && !r.refused && r.phase == Returning && kv.Holds(r.val, r.len)
      requires r.kind.KRetrieve? || forall a :: a in r.iov ==> a[..] == old(a[..])
      requires |Flat(r.iov)| == old(|Flat(r.iov)|) && !old(r.phase.Returning? || r.phase.Finished?)
      requires r.kind.KStore? ==> !old(r.phase.Begin?)
      ensures Fits(kv, r)
    {
      hide IsClass, Flat;
      if !r.kind.KRetrieve? { FlatSame(r.iov); }
    }

    lemma StoreTold(l: Limits, before: seq<Command>, r: Request)
      requires r.kind.KStore? && r.sc == StoreStatus(l, Run(l, before), r.Cmd())
      ensures Told(l, before, r)
    {
      hide Run, StoreStatus;
    }

    method Get(i: nat)
      requires Inv() && i < |reqs| && reqs[i].phase == Begin && reqs[i].kind.KRetrieve?
      modifies `log, `order, reqs[i], reqs[i].iov
      ensures log == old(log) + [reqs[i].Cmd()]
      ensures Inv()
    {
      hide Kv.Valid, Run, Flat, IsClass, LogInv, ToldAt, After, Weight, Shown;
      var r := reqs[i];
      OldPart(i);
      OldParts();
      OldDb();
      Counted(kv);
      LooksOnly(kv.limits, DbOf(kv), r.Cmd());
      var sc, dw0 := RetrieveLocked(kv, r.key, r.kind.hbs, r.nbytes, r.iov);
      ghost var out := Flat(r.iov);
      label L:
      Record(i, sc, dw0, null, 0);
      FlatSame@L(r.iov);
      Recorded(i);
    }

    method Ask(i: nat)
      requires Inv() && i < |reqs| && reqs[i].phase == Begin && reqs[i].kind.KExist?
      modifies `log, `order, reqs[i]
      ensures log == old(log) + [reqs[i].Cmd()]
      ensures Inv()
    {
      hide Kv.Valid, Run, Flat, IsClass, LogInv, ToldAt, After, Weight, Shown;
      var r := reqs[i];
      OldPart(i);
      OldParts();
      OldDb();
      Counted(kv);
      LooksOnly(kv.limits, DbOf(kv), r.Cmd());
      var sc := ExistLocked(kv, r.key);
      Record(i, sc, 0, null, 0);
      FlatSame(r.iov);
      Recorded(i);
    }

    /** The table-lock section of a delete. */
    method Drop(i: nat)
      requires Inv() && i < |reqs| && reqs[i].phase == Begin && reqs[i].kind.KDelete?
      modifies `log, `order, reqs[i], kv`used, kv`nkeys, kv`g, kv.bucket, kv.g.ents`next
      ensures log == old(log) + [reqs[i].Cmd()]
      ensures kv.g.ents <= old(kv.g.ents) && kv.g.role.Keys == old(kv.g.role.Keys)
      ensures Inv()
    {
      hide Kv.Valid, Run, Flat, IsClass, LogInv, ToldAt, After, Weight, Shown, Assign;
      var r := reqs[i];
      OldPart(i);
      OldParts();
      OldDb();
      var sc, back, backLen := DeleteLocked(kv, r.key);
      Record(i, sc, 0, back, backLen);
      FlatSame(r.iov);
      Recorded(i);
    }

    /** Everything a step may write. */
    ghost function Reach(): set<object>
      reads this, kv
    {
      {this, kv, kv.bucket} + kv.g.ents + kv.g.role.Keys + (set r | r in reqs) + Pieces()
    }

    /** The next section of request i, whichever it is. */
    method Step(i: nat)
      requires Inv() && i < |reqs|
      modifies Reach()
      ensures fresh(Reach() - old(Reach()))
      ensures log == old(log) || log == old(log) + [reqs[i].Cmd()]
      ensures Inv()
    {
      hide Inv, Fits;
      InReach(i);
      var r := reqs[i];
      match r.phase
      case Begin =>
        match r.kind {
          case KStore(_, _, _) => Check(i);
          case KRetrieve(_) => Get(i);
          case KExist => Ask(i);
          case KDelete => Drop(i);
        }
      case NoBuffer => Take(i);
      case PoolEmpty => Grow(i);
      case Unfilled => Fill(i);
      case Filled => Put(i);
      case Returning => Return(i);
      case Finished =>
    }

    lemma InReach(i: nat)
      requires Inv() && i < |reqs|
      ensures reqs[i].val != null ==> reqs[i].val in kv.g.role
      ensures forall a :: a in reqs[i].iov ==> a in Reach()
    {
      hide Kv.Valid, LogInv, Run, Flat, ToldAt;
      assert One(i);
    }

    /** Any schedule of sections, however interleaved. */
    method Serve(schedule: seq<nat>)
      requires Inv() && forall t :: 0 <= t < |schedule| ==> schedule[t] < |reqs|
      modifies Reach()
      ensures old(log) <= log
      ensures Inv()
    {
      hide Inv;
      var t := 0;
      while t < |schedule|
        invariant t <= |schedule| && Inv() && old(log) <= log
        invariant fresh(Reach() - old(Reach()))
      {
        Step(schedule[t]);
        t := t + 1;
      }
    }

    // ---- what it all comes to ----

    /** The p-th command to take effect is request i's, and i was told what is right at that point. */
    ghost predicate Turn(p: nat, i: nat)
      reads `log, `order, reqs`sc, reqs`dw0, Pieces()
    {
      && p < |order| == |log| && order[p] == i < |reqs| && log[p] == reqs[i].Cmd()
      && Told(kv.limits, log[..p], reqs[i])
    }

    /** Every answered request had exactly one turn. */
    lemma OneTurn(i: nat)
      requires Inv() && i < |reqs| && Served(i)
      ensures exists p :: Turn(p, i) && forall q :: Turn(q, i) ==> q == p
    {
      hide Kv.Valid, Run, Flat, Told, One;
      var p: nat :| p < |order| && order[p] == i;
      assert ToldAt(p);
      assert Turn(p, i);
    }

    /** The table is what the commands made of it, one after the other, and its accounts are right. */
    lemma Accounts()
      requires Inv()
      ensures DbOf(kv) == Run(kv.limits, log) && kv.nkeys == |Run(kv.limits, log).m|
      ensures kv.used <= kv.limits.capacity && Weight(Run(kv.limits, log).m) <= kv.used
      ensures AllFit(log) ==> kv.used == Weight(Run(kv.limits, log).m)
      ensures kv.maxValue + MAX_KEY < W32 ==> kv.used == Weight(Run(kv.limits, log).m)
    {
      hide Kv.Valid, Run, Weight, One, ToldAt, AllFit;
      Counted(kv);
      if AllFit(log) {
        RunExact(kv.limits, log);
      }
    }

    /** When all requests are done no buffer is astray: each is on its free list or holds a key's value. */
    lemma NothingAstray(b: Buf)
      requires Inv() && b in kv.g.role && forall i :: 0 <= i < |reqs| ==> reqs[i].phase == Finished
      ensures b.cls < NCLASS == |kv.g.lists| && (b in kv.g.lists[b.cls] <==> kv.g.role[b] == Free)
      ensures kv.g.role[b] != Held
      ensures kv.g.role[b] != Free ==>
                exists k :: k in kv.g.at && kv.g.at[k].val == b && k in kv.g.M && kv.g.at[k].vlen == |kv.g.M[k]|
    {
      hide Kv.Valid, Run, Weight, ToldAt;
      if kv.g.role[b] == Held {
        var i :| 0 <= i < |reqs| && reqs[i].val == b;
        assert One(i);
      }
      kv.WhereBuf(b);
      if kv.g.role[b] != Free {
        Found(kv, kv.g.role[b].key);
      }
    }

    /**
     * A stored value comes back: with only other keys' commands in between, a later retrieve
     * into any list gets the value's first bytes, as many as fit, then zeros, and its whole length.
     */
    lemma RoundTrip(i: nat, p: nat, j: nat, q: nat)
      requires Inv() && Turn(p, i) && Turn(q, j) && p < q && Served(i) && Served(j)
      requires reqs[i].kind.KStore? && reqs[i].sc == SC_OK
      requires reqs[j].kind.KRetrieve? && reqs[j].key == reqs[i].key
      requires forall t :: p < t < q ==> log[t].key != reqs[i].key
      ensures reqs[j].sc == SC_OK && reqs[j].dw0 == reqs[i].kind.vs == |reqs[i].Cmd().value|
      ensures reqs[i].Cmd().value <= reqs[i].sent
      ensures Flat(reqs[j].iov) == Clip(reqs[i].Cmd().value, reqs[j].kind.hbs, reqs[j].nbytes)
    {
      hide Inv, Kv.Valid, Run, Flat, IsClass, StoreStatus, Weight, After;
      Parts(i);
      Parts(j);
      var more := log[p + 1..q];
      assert log[..q] == log[..p] + [log[p]] + more;
      forall t | 0 <= t < |more| ensures more[t].key != log[p].key {
        assert more[t] == log[p + 1 + t];
      }
      StoredIsRetrieved(kv.limits, log[..p], log[p], more);
    }
  }

  lemma EmptyRun(l: Limits)
    ensures Run(l, []) == Db(map[], 0)
  {}
}
