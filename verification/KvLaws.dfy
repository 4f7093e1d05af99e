/**
 * What a client may rely on, told from the history of commands alone: which keys are there, with
 * which values, what every command is answered, and what a refused command leaves alone.
 */
module KvLaws {
  import opened KvSpec
  import opened KvIov
  import opened KvTable
  import opened KvServer

  // ---- the history ----

  /** The i-th command stored under k, and was told so. */
  ghost predicate StoredAt(l: Limits, cs: seq<Command>, i: nat, k: Key) {
    i < |cs| && cs[i].Store? && cs[i].key == k && Answer(l, Run(l, cs[..i]), cs[i]).status == 0
  }

  predicate DeletedSince(cs: seq<Command>, i: nat, k: Key) { exists j :: i < j < |cs| && cs[j] == Delete(k) }

  /** A store of k succeeded that no delete followed. */
  ghost predicate Present(l: Limits, cs: seq<Command>, k: Key) {
    exists i: nat :: StoredAt(l, cs, i, k) && !DeletedSince(cs, i, k)
  }

  /** The i-th command is the last successful store of k, and no delete followed it. */
  ghost predicate Latest(l: Limits, cs: seq<Command>, i: nat, k: Key) {
    StoredAt(l, cs, i, k) && !DeletedSince(cs, i, k) && forall j: nat :: i < j ==> !StoredAt(l, cs, j, k)
  }

  lemma Earlier(l: Limits, cs: seq<Command>, c: Command, i: nat, k: Key)
    requires i < |cs|
    ensures StoredAt(l, cs + [c], i, k) <==> StoredAt(l, cs, i, k)
    ensures DeletedSince(cs + [c], i, k) <==> DeletedSince(cs, i, k) || c == Delete(k)
  {
    assert (cs + [c])[..i] == cs[..i];
    if c == Delete(k) {
      assert (cs + [c])[|cs|] == Delete(k);
    }
    if j :| i < j < |cs| && cs[j] == Delete(k) {
      assert (cs + [c])[j] == Delete(k);
    }
  }

  lemma Newest(l: Limits, cs: seq<Command>, c: Command, k: Key)
    ensures StoredAt(l, cs + [c], |cs|, k) <==> c.Store? && c.key == k && Answer(l, Run(l, cs), c).status == 0
    ensures !DeletedSince(cs + [c], |cs|, k)
  {
    assert (cs + [c])[..|cs|] == cs;
  }

  /** One more command makes a key present, absent, or leaves it as it was. */
  lemma PresentStep(l: Limits, cs: seq<Command>, c: Command, k: Key)
    ensures Present(l, cs + [c], k) <==>
              (c.Store? && c.key == k && Answer(l, Run(l, cs), c).status == 0) || (Present(l, cs, k) && c != Delete(k))
  {
    hide Answer, Run;
    Newest(l, cs, c, k);
    forall i: nat | i < |cs|
      ensures StoredAt(l, cs + [c], i, k) <==> StoredAt(l, cs, i, k)
      ensures DeletedSince(cs + [c], i, k) <==> DeletedSince(cs, i, k) || c == Delete(k)
    {
      Earlier(l, cs, c, i, k);
    }
    if Present(l, cs, k) && c != Delete(k) {
      var i: nat :| StoredAt(l, cs, i, k) && !DeletedSince(cs, i, k);
      assert StoredAt(l, cs + [c], i, k) && !DeletedSince(cs + [c], i, k);
    }
    if i: nat :| StoredAt(l, cs + [c], i, k) && !DeletedSince(cs + [c], i, k) {
      if i < |cs| {
        assert StoredAt(l, cs, i, k) && !DeletedSince(cs, i, k);
      }
    }
  }

  lemma LatestStep(l: Limits, cs: seq<Command>, c: Command, i: nat, k: Key)
    requires Latest(l, cs + [c], i, k) && i < |cs|
    ensures Latest(l, cs, i, k) && c != Delete(k)
    ensures !(c.Store? && c.key == k && Answer(l, Run(l, cs), c).status == 0)
  {
    hide Answer, Run;
    Earlier(l, cs, c, i, k);
    Newest(l, cs, c, k);
    forall j: nat | i < j
      ensures !StoredAt(l, cs, j, k)
    {
      if j < |cs| {
        Earlier(l, cs, c, j, k);
      }
    }
  }

  /** The map holds exactly the keys present, with the values stored last. */
  lemma {:induction false} Holds(l: Limits, cs: seq<Command>, k: Key)
    ensures k in Run(l, cs).m <==> Present(l, cs, k)
    ensures forall i: nat :: Latest(l, cs, i, k) ==> k in Run(l, cs).m && Run(l, cs).m[k] == cs[i].value
    decreases |cs|
  {
    if cs != [] {
      var n := |cs| - 1;
      var before, c := cs[..n], cs[n];
      assert cs == before + [c];
      Holds(l, before, k);
      PresentStep(l, before, c, k);
      RunStep(l, before, c);
      Newest(l, before, c, k);
      Effect(l, before, c, k);
      hide Present, Answer, Run, After;
      forall i: nat | Latest(l, cs, i, k)
        ensures k in Run(l, cs).m && Run(l, cs).m[k] == cs[i].value
      {
        if i < n {
          LatestStep(l, before, c, i, k);
        }
      }
    }
  }

  /** What one command does to one key. */
  lemma Effect(l: Limits, cs: seq<Command>, c: Command, k: Key)
    ensures var m, m' := Run(l, cs).m, After(l, Run(l, cs), c).m;
      if c.Store? && c.key == k && Answer(l, Run(l, cs), c).status == 0 then k in m' && m'[k] == c.value
      else if c == Delete(k) then k !in m'
      else (k in m' <==> k in m) && (k in m ==> m'[k] == m[k])
  {
    hide Weight, Run, TooBig;
  }

  // ---- what every command is answered ----

  /**
   * A store is refused with 0x89 if it is insert-only and the key is there, with 0x87 if it is
   * update-only and the key is not; otherwise it succeeds exactly when the pairs held after it fit
   * the capacity. A refused store leaves everything as it was.
   */
  lemma StoreTold(l: Limits, cs: seq<Command>, c: Command)
    requires c.Store?
    ensures var st, d := Answer(l, Run(l, cs), c).status, Run(l, cs);
      && (c.sinke && Present(l, cs, c.key) ==> st == 0x89)
      && (c.sike && !Present(l, cs, c.key) ==> st == 0x87)
      && (!(c.sinke && Present(l, cs, c.key)) && !(c.sike && !Present(l, cs, c.key)) ==>
            && (st == 0 || st == 0x81)
            && (st == 0 ==> Weight(d.m[c.key := c.value]) <= l.capacity)
            && (AllFit(cs) && Weight(d.m[c.key := c.value]) <= l.capacity ==> st == 0))
      && (st != 0 ==> Run(l, cs + [c]) == d)
      && (st == 0 ==> Run(l, cs + [c]).m == d.m[c.key := c.value])
  {
    hide Weight, Run, Present, AllFit;
    Holds(l, cs, c.key);
    RunStep(l, cs, c);
    var d := Run(l, cs);
    if c.key in d.m {
      WeightReplace(d.m, c.key, c.value);
    } else {
      WeightInsert(d.m, c.key, c.value);
    }
    if AllFit(cs) {
      RunExact(l, cs);
    }
  }

  /** Exist and Retrieve answer by presence; a Retrieve gets the value stored last. Neither changes anything. */
  lemma ReadTold(l: Limits, cs: seq<Command>, k: Key)
    ensures Answer(l, Run(l, cs), Exist(k)).status == if Present(l, cs, k) then 0 else 0x87
    ensures Answer(l, Run(l, cs), Retrieve(k)).status == if Present(l, cs, k) then 0 else 0x87
    ensures forall i: nat :: Latest(l, cs, i, k) ==> Answer(l, Run(l, cs), Retrieve(k)).value == cs[i].value
    ensures Run(l, cs + [Exist(k)]) == Run(l, cs) == Run(l, cs + [Retrieve(k)])
  {
    hide Weight, Run, Present, Latest;
    Holds(l, cs, k);
    RunStep(l, cs, Exist(k));
    RunStep(l, cs, Retrieve(k));
  }

  /** A delete is refused only for an absent key, if the target is told to; after it the key is absent, the others as before. */
  lemma DeleteTold(l: Limits, cs: seq<Command>, k: Key)
    ensures Answer(l, Run(l, cs), Delete(k)).status == if !Present(l, cs, k) && l.ednek then 0x87 else 0
    ensures !Present(l, cs + [Delete(k)], k) && Run(l, cs + [Delete(k)]).m == Run(l, cs).m - {k}
  {
    hide Weight, Run, Present;
    Holds(l, cs, k);
    RunStep(l, cs, Delete(k));
    PresentStep(l, cs, Delete(k), k);
  }

  /** Deleted is gone until stored again. */
  lemma {:induction false} GoneTillStored(l: Limits, cs: seq<Command>, k: Key, more: seq<Command>)
    requires forall i :: 0 <= i < |more| ==> !(more[i].Store? && more[i].key == k)
    ensures !Present(l, cs + [Delete(k)] + more, k)
    decreases |more|
  {
    hide Present, Answer, Run;
    if more == [] {
      assert cs + [Delete(k)] + more == cs + [Delete(k)];
      DeleteTold(l, cs, k);
    } else {
      var n := |more| - 1;
      GoneTillStored(l, cs, k, more[..n]);
      assert cs + [Delete(k)] + more == cs + [Delete(k)] + more[..n] + [more[n]];
      PresentStep(l, cs + [Delete(k)] + more[..n], more[n], k);
    }
  }

  // ---- what the clients of the concurrent target are told ----

  /** After a delete took effect, and before a store of the key does, the key is not there. */
  lemma DeletedIsGone(s: Server, i: nat, p: nat, j: nat, q: nat)
    requires s.Inv() && s.Turn(p, i) && s.Turn(q, j) && p < q
    requires s.reqs[i].kind.KDelete? && (s.reqs[j].kind.KExist? || s.reqs[j].kind.KRetrieve?)
    requires s.reqs[j].key == s.reqs[i].key
    requires forall t :: p < t < q ==> !(s.log[t].Store? && s.log[t].key == s.reqs[i].key)
    ensures s.reqs[j].sc == 0x87
  {
    hide Server.Inv, Present, Run, Flat;
    var more := s.log[p + 1..q];
    assert s.log[..q] == s.log[..p] + [s.log[p]] + more;
    forall t | 0 <= t < |more|
      ensures !(more[t].Store? && more[t].key == s.reqs[i].key)
    {
      assert more[t] == s.log[p + 1 + t];
    }
    GoneTillStored(s.kv.limits, s.log[..p], s.reqs[i].key, more);
    ReadTold(s.kv.limits, s.log[..q], s.reqs[j].key);
  }

  /** Only a store too long for the target, or for the data it came with, is turned away before the table. */
  lemma TurnedAway(s: Server, i: nat)
    requires s.Inv() && i < |s.reqs| && s.reqs[i].phase.Finished?
    ensures var r := s.reqs[i];
      && (r.refused <==> r.kind.KStore? && (r.kind.vs > s.kv.maxValue || r.kind.vs > r.nbytes))
      && (r.refused ==> r.sc == if r.kind.vs > s.kv.maxValue then 0x85 else 0x02)
  {
    hide Kv.Valid, Run, Flat, Told, Weight;
    assert s.One(i);
  }

  /** Every request that reached the table was told what the commands before its own make right. */
  lemma ToldByHistory(s: Server, i: nat, p: nat)
    requires s.Inv() && s.Turn(p, i)
    ensures var r, l, cs := s.reqs[i], s.kv.limits, s.log[..p];
      var there := Present(l, cs, r.key);
      match r.kind
      case KExist => r.sc == if there then 0 else 0x87
      case KRetrieve(_) => r.sc == if there then 0 else 0x87
      case KDelete => r.sc == if !there && l.ednek then 0x87 else 0
      case KStore(_, sike, sinke) =>
        && (sinke && there ==> r.sc == 0x89)
        && (sike && !there ==> r.sc == 0x87)
        && (!(sinke && there) && !(sike && !there) ==>
              && (r.sc == 0 || r.sc == 0x81)
              && (r.sc == 0 ==> Weight(Run(l, cs).m[r.key := r.Cmd().value]) <= l.capacity)
              && (AllFit(cs) && Weight(Run(l, cs).m[r.key := r.Cmd().value]) <= l.capacity ==> r.sc == 0))
  {
    hide Server.Inv, Present, Run, Flat, Latest, AllFit, Weight;
    var l, cs := s.kv.limits, s.log[..p];
    match s.reqs[i].kind
    case KStore(_, _, _) => StoreTold(l, cs, s.reqs[i].Cmd());
    case KDelete => DeleteTold(l, cs, s.reqs[i].key);
    case _ => ReadTold(l, cs, s.reqs[i].key);
  }

  /**
   * A Retrieve finds, byte by byte, the value stored last: as much of it as its buffer length and
   * its list take, zeros in the rest of the list, and the whole length in DW0.
   */
  lemma RetrieveShows(s: Server, j: nat, q: nat, i: nat)
    requires s.Inv() && s.Turn(q, j) && s.reqs[j].kind.KRetrieve?
    requires Latest(s.kv.limits, s.log[..q], i, s.reqs[j].key)
    ensures var r, v := s.reqs[j], s.log[i].value;
      && r.sc == 0 && r.dw0 == |v| && |Flat(r.iov)| == |r.sent|
      && forall x :: 0 <= x < |Flat(r.iov)| ==>
           Flat(r.iov)[x] == if x < |v| && x < r.kind.hbs && x < r.nbytes then v[x] else 0
  {
    hide Server.Inv, Present, Run, Flat;
    var l, cs := s.kv.limits, s.log[..q];
    ReadTold(l, cs, s.reqs[j].key);
    Holds(l, cs, s.reqs[j].key);
  }
}
