/**
 * The completion queue: entries the NIC numbers without bound, recognised by the consumer
 * through one owner bit and the "never written" opcode, and the lazily returned counter.
 */
module CompletionQueue {
  import opened Arith
  import opened RecvQueue

  const CQ_BATCH: nat := 32

  /** What a CQE is about: the n-th SEND finished, or the n-th command was answered in recv k. */
  datatype Event =
    | Sent(n: nat)
    | Answered(n: nat, k: nat, arrival: Arrival)

  datatype Body =
    | Blank              // op_own 0xf0: opcode 15, owner 0
    | Before             // a CQE of the CPU side, from before takeover
    | Is(event: Event)

  datatype Entry = Entry(owner: nat, body: Body)

  datatype CqGeo = CqGeo(cnt: nat, ci0: nat) {
    predicate Valid() { Pow2(cnt) && 2 * cnt <= W24 && CQ_BATCH < cnt }
  }

  datatype Cq = Cq(
    entries: seq<Entry>,
    db: nat,             // CQ dbrec, 24 bits
    ci: nat,
    phase: nat,
    written: nat,        // cq_ci_written
    shown: nat,          // the counter whose low 24 bits are in the dbrec
    log: seq<Event>)     // every CQE the NIC wrote since takeover
  {
    function Produced(g: CqGeo): nat { g.ci0 + |log| }

    /** The NIC's overflow test, made on the 24-bit doorbell record. */
    predicate Room(g: CqGeo) { (Produced(g) % W24 - db) % W24 < g.cnt }

    function Produce(g: CqGeo, e: Event): Cq
      requires g.cnt > 0 && |entries| == g.cnt
    {
      var p := Produced(g);
      this.(entries := entries[p % g.cnt := Entry((p / g.cnt) % 2, Is(e))], log := log + [e])
    }

    function Here(g: CqGeo): Entry
      requires g.cnt > 0 && |entries| == g.cnt
    {
      entries[ci % g.cnt]
    }

    /** The consumer's test on the entry it looks at: owner bit and opcode. */
    predicate Fresh(g: CqGeo)
      requires g.cnt > 0 && |entries| == g.cnt
    {
      Here(g).owner == phase && !Here(g).body.Blank?
    }

    function Show(): Cq { this.(db := ci % W24, written := ci, shown := ci) }

    function Advance(g: CqGeo): Cq
      requires g.cnt > 0 && phase <= 1
    {
      var c := this.(ci := ci + 1, phase := if (ci + 1) % g.cnt == 0 then 1 - phase else phase);
      if c.ci % CQ_BATCH == 0 then c.Show() else c
    }

    function Flush(): Cq { if written == ci then this else Show() }
  }

  /** The shared state at launch: cq_ci_written starts at 0 whatever the dbrec holds. */
  function Start(g: CqGeo, entries: seq<Entry>): Cq
    requires g.cnt > 0
  {
    Cq(entries, g.ci0 % W24, g.ci0, (g.ci0 / g.cnt) % 2, 0, g.ci0, [])
  }

  /** Entries a consumer must not take for the CQE with number m. */
  ghost predicate Stale(g: CqGeo, entries: seq<Entry>, from: nat)
    requires g.cnt > 0 && |entries| == g.cnt
  {
    forall m :: from <= m < from + g.cnt ==> NotYet(g, entries, m)
  }

  ghost predicate NotYet(g: CqGeo, entries: seq<Entry>, m: nat)
    requires g.cnt > 0 && |entries| == g.cnt
  {
    entries[m % g.cnt].body.Blank? || entries[m % g.cnt].owner != (m / g.cnt) % 2
  }

  ghost predicate Unread(g: CqGeo, c: Cq)
    requires g.cnt > 0 && |c.entries| == g.cnt && g.ci0 <= c.ci
  {
    forall m :: c.ci <= m < c.Produced(g) ==>
      c.entries[m % g.cnt] == Entry((m / g.cnt) % 2, Is(c.log[m - g.ci0]))
  }

  ghost predicate Good(g: CqGeo, c: Cq) {
    && g.Valid() && |c.entries| == g.cnt
    && g.ci0 <= c.shown <= c.ci <= c.Produced(g) <= c.shown + g.cnt
    && c.ci / CQ_BATCH == c.shown / CQ_BATCH
    && c.db == c.shown % W24
    && (c.written == c.shown || (c.written == 0 && c.shown == g.ci0))
    && c.phase == (c.ci / g.cnt) % 2
    && Unread(g, c)
    && Stale(g, c.entries, c.Produced(g))
  }

  lemma StartGood(g: CqGeo, entries: seq<Entry>)
    requires g.Valid() && |entries| == g.cnt && Stale(g, entries, g.ci0)
    ensures Good(g, Start(g, entries))
  {}

  lemma RoomExact(g: CqGeo, c: Cq)
    requires Good(g, c)
    ensures c.Room(g) <==> c.Produced(g) < c.shown + g.cnt
  {
    DiffView(c.shown, c.Produced(g), W24);
  }

  lemma ParityFlips(x: nat)
    ensures (x + 1) % 2 != x % 2
  {}

  lemma ProduceUnread(g: CqGeo, c: Cq, e: Event)
    requires Good(g, c) && c.Produced(g) < c.shown + g.cnt
    ensures Unread(g, c.Produce(g, e))
  {
    var p := c.Produced(g);
    var c' := c.Produce(g, e);
    forall m | c.ci <= m < p + 1
      ensures c'.entries[m % g.cnt] == Entry((m / g.cnt) % 2, Is(c'.log[m - g.ci0]))
    {
      if m < p {
        SlotsDiffer(m, p, g.cnt);
        assert c.entries[m % g.cnt] == Entry((m / g.cnt) % 2, Is(c.log[m - g.ci0]));
      }
    }
  }

  lemma ProduceStale(g: CqGeo, c: Cq, e: Event)
    requires Good(g, c)
    ensures Stale(g, c.Produce(g, e).entries, c.Produced(g) + 1)
  {
    var p := c.Produced(g);
    var c' := c.Produce(g, e);
    forall m | p + 1 <= m < p + 1 + g.cnt
      ensures NotYet(g, c'.entries, m)
    {
      if m == p + g.cnt {
        SlotShift(p, g.cnt);
        ParityFlips(p / g.cnt);
      } else {
        SlotsDiffer(p, m, g.cnt);
        assert NotYet(g, c.entries, m);
      }
    }
  }

  lemma ProduceGood(g: CqGeo, c: Cq, e: Event)
    requires Good(g, c) && c.Room(g)
    ensures Good(g, c.Produce(g, e))
  {
    hide Unread, Stale;
    RoomExact(g, c);
    ProduceUnread(g, c, e);
    ProduceStale(g, c, e);
    assert c.Produce(g, e).Produced(g) == c.Produced(g) + 1;
  }

  /**
   * The test picks out exactly the CQE numbered ci, and only once it is written: no phantom
   * on blank or old entries, no skip, across ring wraps and a takeover in mid-stream.
   */
  lemma FreshExact(g: CqGeo, c: Cq)
    requires Good(g, c)
    ensures c.Fresh(g) <==> c.ci < c.Produced(g)
    ensures c.Fresh(g) ==> c.Here(g).body == Is(c.log[c.ci - g.ci0])
  {
    if c.ci < c.Produced(g) {
      assert c.entries[c.ci % g.cnt] == Entry((c.ci / g.cnt) % 2, Is(c.log[c.ci - g.ci0]));
    } else {
      assert NotYet(g, c.entries, c.ci);
    }
  }

  /** The toggled phase bit is the lap parity of the next entry. */
  lemma PhaseStep(cnt: nat, ci: nat)
    requires cnt > 0
    ensures ((ci + 1) / cnt) % 2
         == if (ci + 1) % cnt == 0 then 1 - (ci / cnt) % 2 else (ci / cnt) % 2
  {
    StepDivMod(ci, cnt);
    ParityFlips(ci / cnt);
  }

  lemma AdvanceGood(g: CqGeo, c: Cq)
    requires Good(g, c) && c.ci < c.Produced(g)
    ensures Good(g, c.Advance(g))
  {
    PhaseStep(g.cnt, c.ci);
    StepDivMod(c.ci, CQ_BATCH);
    var c' := c.Advance(g);
    assert c'.phase == (c'.ci / g.cnt) % 2;
    assert Unread(g, c');
  }

  lemma FlushGood(g: CqGeo, c: Cq)
    requires Good(g, c)
    ensures Good(g, c.Flush()) && c.Flush().shown == c.ci
    ensures c.Flush().db == c.ci % W24
  {}

  lemma ShapeKept(g: CqGeo, c: Cq)
    requires g.cnt > 0 && c.phase <= 1
    ensures c.Advance(g).phase <= 1 && c.Advance(g).ci == c.ci + 1
    ensures c.Advance(g).log == c.log && c.Advance(g).entries == c.entries
  {}
}
