/**
 * The consumer as the code runs it: fields and rings updated in place, by the independent
 * poller, by poll steps handed from one lock holder to the next, or by a lone submitter. All
 * of them do the same thing to the queues.
 */
module Consumer {
  import opened Arith
  import opened Protocol
  import CQ = CompletionQueue
  import RQ = RecvQueue

  /** What the consumer sees and changes. */
  datatype Side = Side(cq: CQ.Cq, rq: RQ.Rq, tags: seq<Tag>, regs: Regs, aborted: bool)

  ghost predicate Fit(c: Config, s: Side) {
    && c.Valid() && |s.tags| == c.qd && |s.cq.entries| == c.cg.cnt && s.cq.phase <= 1
    && |s.rq.ring| == |s.rq.shadow| == c.rg.cnt
  }

  // ---- one CQE ----

  function ReadRsp(c: Config, q: RQ.Rq, e: CQ.Event): RQ.Rsp
    requires c.rg.cnt > 0 && |q.ring| == c.rg.cnt && e.Answered?
  {
    if e.arrival.inlined then e.arrival.rsp
    else
      var b := q.ring[(e.k % W16) % c.rg.cnt];
      if b in q.bufs then q.bufs[b] else RQ.Rsp(0, 0)
  }

  /** handle_resp: count, and hand the status to the tag the cid names. */
  function Respond(c: Config, s: Side, e: CQ.Event): Side
    requires Fit(c, s) && e.Answered?
  {
    var rsp := ReadRsp(c, s.rq, e);
    var regs := s.regs.(cqeResp := s.regs.cqeResp + 1,
                        wcBad := s.regs.wcBad + if s.rq.tail % W16 != e.k % W16 then 1 else 0);
    if CidGood(c, rsp.cid) then
      s.(tags := s.tags[rsp.cid - CID_TAG := Tag(if Failed(rsp.status) then NvmeErr else Done, rsp.status)],
         regs := regs.(doneCnt := regs.doneCnt + 1, nvmeErr := regs.nvmeErr + if Failed(rsp.status) then 1 else 0))
    else s.(aborted := true, regs := regs.(cidBad := regs.cidBad + 1))
  }

  /** rq_repost: the descriptor goes to the head of ring and shadow; a full batch is published. */
  function Reposted(c: Config, q: RQ.Rq, wc: nat): RQ.Rq
    requires c.rg.cnt > 0 && |q.ring| == |q.shadow| == c.rg.cnt
  {
    var v := q.shadow[wc % c.rg.cnt];
    var q' := q.WriteRing(c.rg, v).WriteShadow(c.rg, v);
    if q'.pending >= RQ.RQ_BATCH then q'.Flush() else q'
  }

  /** consume_one and advance_ci on the entry at ci. */
  function Handle(c: Config, s: Side): Side
    requires Fit(c, s)
  {
    var body := s.cq.Here(c.cg).body;
    var s' :=
      if body.Is? && body.event.Answered? then
        var r := Respond(c, s, body.event);
        r.(rq := Reposted(c, r.rq, body.event.k % W16).Next())
      else s.(regs := s.regs.(cqeReq := s.regs.cqeReq + 1));
    s'.(cq := s'.cq.Advance(c.cg))
  }

  /** idle_flush. */
  function Settle(s: Side): Side { s.(rq := s.rq.Flush(), cq := s.cq.Flush()) }

  // ---- the same work, one visible store at a time ----

  function SideOf(s: State): Side { Side(s.cq, s.rq, s.tags, s.regs, s.abort) }

  /** The step a consumer left to itself takes next. */
  function OwnAct(con: Con): Act {
    match con
    case Top => Poll
    case Got(_, _, _) => Read
    case Have(_, _) => Name
    case Named(_, _, _) => Publish
    case Repost(_) => PutRing
    case Shadowing(_) => PutShadow
    case Flushing => FlushRq
    case Adv => Advance
    case IdleRq => IdleFlushRq
    case IdleCq => IdleFlushCq
    case IdleChk => IdleCheck
    case StopRq => StopFlushRq
    case StopCq => StopFlushCq
    case Halted => Poll
  }

  function OwnStep(c: Config, s: State): State
    requires Shape(c, s)
  {
    if s.con.Halted? then s else ConNext(c, s, OwnAct(s.con))
  }

  lemma OwnShape(c: Config, s: State)
    requires Shape(c, s)
    ensures Shape(c, OwnStep(c, s))
  {}

  ghost function OwnSteps(c: Config, s: State, n: nat): (t: State)
    requires Shape(c, s)
    ensures Shape(c, t)
    decreases n
  {
    OwnShape(c, s);
    if n == 0 then s else OwnSteps(c, OwnStep(c, s), n - 1)
  }

  lemma {:induction false} OwnStepsAdd(c: Config, s: State, a: nat, b: nat)
    requires Shape(c, s)
    ensures OwnSteps(c, s, a + b) == OwnSteps(c, OwnSteps(c, s, a), b)
    decreases a
  {
    hide OwnStep;
    if a > 0 {
      OwnShape(c, s);
      OwnStepsAdd(c, OwnStep(c, s), a - 1, b);
    }
  }

  lemma FourSteps(c: Config, s: State)
    requires Shape(c, s)
    ensures OwnSteps(c, s, 1) == OwnStep(c, s)
    ensures Shape(c, OwnStep(c, s)) && OwnSteps(c, s, 2) == OwnStep(c, OwnStep(c, s))
    ensures Shape(c, OwnStep(c, OwnStep(c, s))) && OwnSteps(c, s, 3) == OwnStep(c, OwnStep(c, OwnStep(c, s)))
    ensures Shape(c, OwnStep(c, OwnStep(c, OwnStep(c, s))))
    ensures OwnSteps(c, s, 4) == OwnStep(c, OwnStep(c, OwnStep(c, OwnStep(c, s))))
  {
    hide OwnStep, Shape;
    OwnShape(c, s);
    var s1 := OwnStep(c, s);
    OwnShape(c, s1);
    var s2 := OwnStep(c, s1);
    OwnShape(c, s2);
    var s3 := OwnStep(c, s2);
    OwnShape(c, s3);
    assert OwnSteps(c, s, 2) == OwnSteps(c, s1, 1);
    assert OwnSteps(c, s, 3) == OwnSteps(c, s1, 2) == OwnSteps(c, s2, 1);
    assert OwnSteps(c, s, 4) == OwnSteps(c, s1, 3) == OwnSteps(c, s2, 2) == OwnSteps(c, s3, 1);
  }

  /** From a fresh response to the point where its tag is published: Respond. */
  lemma RespondIsSteps(c: Config, s: State) returns (n: nat)
    requires Shape(c, s) && s.con.Top? && s.cq.Fresh(c.cg)
    requires s.cq.Here(c.cg).body.Is? && s.cq.Here(c.cg).body.event.Answered?
    ensures var t := OwnSteps(c, s, n);
            && t.con == Con.Repost(s.cq.Here(c.cg).body.event.k % W16)
            && SideOf(t) == Respond(c, SideOf(s), s.cq.Here(c.cg).body.event)
  {
    hide JobsInRange, OwnSteps;
    FourSteps(c, s);
    var s3 := OwnStep(c, OwnStep(c, OwnStep(c, s)));
    n := if s3.con.Named? then 4 else 3;
  }

  /** Then the recv goes back: Reposted. */
  lemma RepostIsSteps(c: Config, s: State) returns (n: nat)
    requires Shape(c, s) && s.con.Repost?
    ensures var t := OwnSteps(c, s, n);
            && t.con.Adv?
            && SideOf(t) == SideOf(s).(rq := Reposted(c, s.rq, s.con.wc).Next())
  {
    hide JobsInRange, OwnSteps;
    FourSteps(c, s);
    var s2 := OwnStep(c, OwnStep(c, s));
    n := if s2.con.Flushing? then 3 else 2;
  }

  lemma AdvIsStep(c: Config, s: State)
    requires Shape(c, s) && s.con.Adv?
    ensures OwnSteps(c, s, 1).con.Top?
    ensures SideOf(OwnSteps(c, s, 1)) == SideOf(s).(cq := s.cq.Advance(c.cg))
  {
    hide JobsInRange, OwnSteps;
    FourSteps(c, s);
  }

  lemma SentIsSteps(c: Config, s: State)
    requires Shape(c, s) && s.con.Top? && s.cq.Fresh(c.cg)
    requires !(s.cq.Here(c.cg).body.Is? && s.cq.Here(c.cg).body.event.Answered?)
    ensures OwnSteps(c, s, 2).con.Adv?
    ensures SideOf(OwnSteps(c, s, 2)) == SideOf(s).(regs := s.regs.(cqeReq := s.regs.cqeReq + 1))
  {
    hide JobsInRange, OwnSteps;
    FourSteps(c, s);
  }

  /** From a fresh CQE back to the top of the loop, the steps come to exactly Handle. */
  lemma HandleIsSteps(c: Config, s: State) returns (n: nat)
    requires Shape(c, s) && s.con.Top? && s.cq.Fresh(c.cg)
    ensures OwnSteps(c, s, n).con.Top? && Fit(c, SideOf(s))
    ensures SideOf(OwnSteps(c, s, n)) == Handle(c, SideOf(s))
  {
    hide JobsInRange, OwnSteps, OwnStep, ConNext, Respond, Reposted;
    var body := s.cq.Here(c.cg).body;
    if body.Is? && body.event.Answered? {
      var a := RespondIsSteps(c, s);
      var s1 := OwnSteps(c, s, a);
      var b := RepostIsSteps(c, s1);
      OwnStepsAdd(c, s, a, b);
      n := a + b;
    } else {
      SentIsSteps(c, s);
      n := 2;
    }
    AdvIsStep(c, OwnSteps(c, s, n));
    OwnStepsAdd(c, s, n, 1);
    n := n + 1;
  }

  lemma IdleStepsAre(c: Config, s: State)
    requires Shape(c, s)
    ensures s.con.Top? && !s.cq.Fresh(c.cg) ==> OwnStep(c, s) == s.(con := IdleRq)
    ensures s.con.IdleRq? ==> OwnStep(c, s) == s.(rq := s.rq.Flush(), con := IdleCq)
    ensures s.con.IdleCq? ==> OwnStep(c, s) == s.(cq := s.cq.Flush(), con := IdleChk)
  {
    hide JobsInRange;
  }

  /** An idle turn of the poller is Settle. */
  lemma SettleIsSteps(c: Config, s: State)
    requires Shape(c, s) && s.con.Top? && !s.cq.Fresh(c.cg)
    ensures SideOf(OwnSteps(c, s, 3)) == Settle(SideOf(s)) && OwnSteps(c, s, 3).con.IdleChk?
  {
    hide Shape, OwnSteps, OwnStep;
    FourSteps(c, s);
    IdleStepsAre(c, s);
    IdleStepsAre(c, OwnStep(c, s));
    IdleStepsAre(c, OwnStep(c, OwnStep(c, s)));
  }

  // ---- the CQE stream, whatever the consumer's timing ----

  /** Tags and counters after one more event of the stream: no queue is looked at. */
  datatype Tally = Tally(tags: seq<Tag>, regs: Regs, aborted: bool)

  function Count(c: Config, t: Tally, e: CQ.Event): Tally
    requires |t.tags| == c.qd
  {
    if e.Sent? then t.(regs := t.regs.(cqeReq := t.regs.cqeReq + 1))
    else
      var rsp := e.arrival.rsp;
      var regs := t.regs.(cqeResp := t.regs.cqeResp + 1);
      if CidGood(c, rsp.cid) then
        t.(tags := t.tags[rsp.cid - CID_TAG := Tag(if Failed(rsp.status) then NvmeErr else Done, rsp.status)],
           regs := regs.(doneCnt := regs.doneCnt + 1, nvmeErr := regs.nvmeErr + if Failed(rsp.status) then 1 else 0))
      else t.(aborted := true, regs := regs.(cidBad := regs.cidBad + 1))
  }

  /** The sequential consumer: events in the order the NIC wrote them. */
  function CountAll(c: Config, t: Tally, log: seq<CQ.Event>): (r: Tally)
    requires |t.tags| == c.qd
    ensures |r.tags| == c.qd
  {
    if log == [] then t else Count(c, CountAll(c, t, log[..|log| - 1]), log[|log| - 1])
  }

  function Answers(log: seq<CQ.Event>): (n: nat)
    ensures n <= |log|
  {
    if log == [] then 0 else Answers(log[..|log| - 1]) + if log[|log| - 1].Answered? then 1 else 0
  }

  /** Each response's CQE names the recv it came in, in order. */
  ghost predicate InOrder(c: Config, log: seq<CQ.Event>, arrivals: seq<RQ.Arrival>) {
    && |arrivals| == Answers(log)
    && forall m :: 0 <= m < |log| && log[m].Answered? ==> Named(c, log, arrivals, m)
  }

  ghost predicate Named(c: Config, log: seq<CQ.Event>, arrivals: seq<RQ.Arrival>, m: nat)
    requires m < |log| && log[m].Answered?
  {
    var a := Answers(log[..m]);
    log[m].k == c.rg.tail0 + a && a < |arrivals| && arrivals[a] == log[m].arrival
  }

  /** The consumer is somewhere in the stream, and what it has done is what the stream says. */
  ghost predicate InStep(c: Config, t0: Tally, s: Side) {
    && Fit(c, s) && |t0.tags| == c.qd && RQ.Good(c.rg, s.rq, 0) && CQ.Good(c.cg, s.cq)
    && s.rq.pending < RQ.RQ_BATCH
    && InOrder(c, s.cq.log, s.rq.arrivals)
    && s.rq.tail == c.rg.tail0 + Answers(s.cq.log[..s.cq.ci - c.cg.ci0])
    && Tally(s.tags, s.regs, s.aborted) == CountAll(c, t0, s.cq.log[..s.cq.ci - c.cg.ci0])
  }

  datatype Op = One | Rest | Arrive(e: CQ.Event)

  predicate Can(c: Config, s: Side, op: Op)
    requires Fit(c, s)
  {
    match op
    case One => s.cq.Fresh(c.cg)
    case Rest => true
    case Arrive(e) =>
      && s.cq.Room(c.cg)
      && (e.Answered? ==> s.rq.CanTake(c.rg) && e.k == s.rq.Taken(c.rg))
  }

  function Do(c: Config, s: Side, op: Op): (r: Side)
    requires Fit(c, s)
    ensures Fit(c, r)
  {
    match op
    case One => Handle(c, s)
    case Rest => Settle(s)
    case Arrive(e) =>
      s.(cq := s.cq.Produce(c.cg, e), rq := if e.Answered? then s.rq.Take(c.rg, e.arrival) else s.rq)
  }

  lemma IdleInStep(c: Config, t0: Tally, s: Side)
    requires InStep(c, t0, s)
    ensures InStep(c, t0, Settle(s))
  {
    hide InOrder, CountAll, Answers;
    RQ.FlushGood(c.rg, s.rq, 0);
    CQ.FlushGood(c.cg, s.cq);
  }

  /** One more CQE behind the last: the numbering goes on. */
  lemma ArriveInOrder(c: Config, log: seq<CQ.Event>, arrivals: seq<RQ.Arrival>, e: CQ.Event)
    requires InOrder(c, log, arrivals) && (e.Answered? ==> e.k == c.rg.tail0 + |arrivals|)
    ensures InOrder(c, log + [e], if e.Answered? then arrivals + [e.arrival] else arrivals)
  {
    var more := log + [e];
    assert more[..|log|] == log;
    forall m | 0 <= m < |more| && more[m].Answered?
      ensures Named(c, more, if e.Answered? then arrivals + [e.arrival] else arrivals, m)
    {
      assert more[..m] == log[..m];
      if m < |log| { assert Named(c, log, arrivals, m); }
    }
  }

  lemma ArriveInStep(c: Config, t0: Tally, s: Side, e: CQ.Event)
    requires InStep(c, t0, s) && Can(c, s, Arrive(e))
    ensures InStep(c, t0, Do(c, s, Arrive(e)))
  {
    hide RQ.Good, CQ.Good, Count, CountAll, InOrder, Answers;
    CQ.ProduceGood(c.cg, s.cq, e);
    if e.Answered? { RQ.TakeGood(c.rg, s.rq, 0, e.arrival); }
    Placed(c, s);
    ArriveInOrder(c, s.cq.log, s.rq.arrivals, e);
    assert (s.cq.log + [e])[..s.cq.ci - c.cg.ci0] == s.cq.log[..s.cq.ci - c.cg.ci0];
  }

  lemma Placed(c: Config, s: Side)
    requires CQ.Good(c.cg, s.cq)
    ensures c.cg.ci0 <= s.cq.ci <= c.cg.ci0 + |s.cq.log|
  {}

  /** The response handled next is the one in the CQE at ci, read unharmed, from the recv at the tail. */
  lemma NextResponse(c: Config, t0: Tally, s: Side)
    requires InStep(c, t0, s) && s.cq.Fresh(c.cg)
    ensures var m := s.cq.ci - c.cg.ci0;
            && 0 <= m < |s.cq.log| && s.cq.Here(c.cg).body == CQ.Is(s.cq.log[m])
            && (s.cq.log[m].Answered? ==>
                  && s.cq.log[m].k == s.rq.tail < s.rq.Taken(c.rg)
                  && ReadRsp(c, s.rq, s.cq.log[m]) == s.cq.log[m].arrival.rsp)
  {
    hide CountAll, Count, Answers;
    CQ.FreshExact(c.cg, s.cq);
    Placed(c, s);
    var m := s.cq.ci - c.cg.ci0;
    if s.cq.log[m].Answered? {
      assert Named(c, s.cq.log, s.rq.arrivals, m);
      var k := s.rq.tail;
      if !s.cq.log[m].arrival.inlined { RQ.ReadBack(c.rg, s.rq, 0, k); }
    }
  }

  lemma RepostGood(c: Config, q: RQ.Rq)
    requires RQ.Good(c.rg, q, 0) && q.tail < q.Taken(c.rg) && q.pending < RQ.RQ_BATCH
    ensures var q' := Reposted(c, q, q.tail % W16).Next();
            && RQ.Good(c.rg, q', 0) && q'.pending < RQ.RQ_BATCH
            && q'.tail == q.tail + 1 && q'.arrivals == q.arrivals
  {
    var v := q.shadow[(q.tail % W16) % c.rg.cnt];
    RQ.ViewSlot(c.rg, q.tail);
    RQ.WriteRingGood(c.rg, q);
    var q1 := q.WriteRing(c.rg, v);
    RQ.WriteShadowGood(c.rg, q1);
    var q2 := q1.WriteShadow(c.rg, v);
    RQ.FlushGood(c.rg, q2, 1);
    RQ.NextGood(c.rg, q2);
    RQ.NextGood(c.rg, q2.Flush());
  }

  lemma OneMore(c: Config, t0: Tally, log: seq<CQ.Event>, m: nat)
    requires m < |log| && |t0.tags| == c.qd
    ensures CountAll(c, t0, log[..m + 1]) == Count(c, CountAll(c, t0, log[..m]), log[m])
    ensures Answers(log[..m + 1]) == Answers(log[..m]) + if log[m].Answered? then 1 else 0
  {
    assert log[..m + 1][..m] == log[..m];
  }

  lemma OneInStep(c: Config, t0: Tally, s: Side)
    requires InStep(c, t0, s) && s.cq.Fresh(c.cg)
    ensures InStep(c, t0, Handle(c, s))
  {
    hide RQ.Good, CQ.Good, CountAll, Answers, InOrder;
    NextResponse(c, t0, s);
    CQ.FreshExact(c.cg, s.cq);
    CQ.AdvanceGood(c.cg, s.cq);
    CQ.ShapeKept(c.cg, s.cq);
    var m := s.cq.ci - c.cg.ci0;
    OneMore(c, t0, s.cq.log, m);
    if s.cq.log[m].Answered? {
      RepostGood(c, s.rq);
    }
  }

  /** A mixture of NIC writes, handled CQEs and flushes, every one of them possible when it is made. */
  predicate Possible(c: Config, s: Side, ops: seq<Op>)
    requires Fit(c, s)
    decreases |ops|
  {
    ops == [] || (Can(c, s, ops[0]) && Possible(c, Do(c, s, ops[0]), ops[1..]))
  }

  function DoAll(c: Config, s: Side, ops: seq<Op>): (r: Side)
    requires Fit(c, s)
    ensures Fit(c, r)
    decreases |ops|
  {
    if ops == [] then s else DoAll(c, Do(c, s, ops[0]), ops[1..])
  }

  lemma {:induction false} DoMore(c: Config, s: Side, ops: seq<Op>, op: Op)
    requires Fit(c, s)
    ensures DoAll(c, s, ops + [op]) == Do(c, DoAll(c, s, ops), op)
    ensures Possible(c, s, ops + [op]) <==> Possible(c, s, ops) && Can(c, DoAll(c, s, ops), op)
    decreases |ops|
  {
    hide Fit, Do, Can;
    if ops == [] {
      assert ops + [op] == [op];
      assert [op][1..] == [];
    } else {
      assert (ops + [op])[1..] == ops[1..] + [op];
      DoFits(c, s, ops[0]);
      DoMore(c, Do(c, s, ops[0]), ops[1..], op);
    }
  }

  lemma DoFits(c: Config, s: Side, op: Op)
    requires Fit(c, s)
    ensures Fit(c, Do(c, s, op))
  {}

  lemma {:induction false} AllInStep(c: Config, t0: Tally, s: Side, ops: seq<Op>)
    requires InStep(c, t0, s) && Possible(c, s, ops)
    ensures InStep(c, t0, DoAll(c, s, ops))
    decreases |ops|
  {
    hide InStep, Handle, Settle, Fit;
    if ops != [] {
      InStepFits(c, t0, s);
      match ops[0] {
        case One => OneInStep(c, t0, s);
        case Rest => IdleInStep(c, t0, s);
        case Arrive(e) => ArriveInStep(c, t0, s, e);
      }
      AllInStep(c, t0, Do(c, s, ops[0]), ops[1..]);
    }
  }

  lemma InStepFits(c: Config, t0: Tally, s: Side)
    requires InStep(c, t0, s)
    ensures Fit(c, s)
  {}

  /** Same tags and counters, same positions, same window of the ring, same doorbell records. */
  ghost predicate Same(c: Config, x: Side, y: Side) {
    && x.tags == y.tags && x.regs == y.regs && x.aborted == y.aborted
    && x.cq.ci == y.cq.ci && x.cq.phase == y.cq.phase && x.cq.db == y.cq.db
    && x.rq.head == y.rq.head && x.rq.tail == y.rq.tail && x.rq.db == y.rq.db
    && x.rq.pending == y.rq.pending == 0
    && forall k :: x.rq.tail <= k < x.rq.head ==> SlotOf(c, x.rq.ring, k) == SlotOf(c, y.rq.ring, k)
  }

  lemma WindowIs(c: Config, q: RQ.Rq, k: nat)
    requires RQ.Good(c.rg, q, 0) && q.tail <= k < q.head
    ensures SlotOf(c, q.ring, k) == c.rg.Desc(k)
  {
    assert q.ring[q.Slot(c.rg, k)] == c.rg.Desc(k);
  }

  /** Where a consumer in step stands follows from how far it has come. */
  lemma Position(c: Config, t0: Tally, s: Side)
    requires InStep(c, t0, s) && Caught(c, s)
    ensures |t0.tags| == c.qd && Tally(s.tags, s.regs, s.aborted) == CountAll(c, t0, s.cq.log)
    ensures s.rq.tail == c.rg.tail0 + Answers(s.cq.log) && s.rq.head == s.rq.tail + |c.rg.first|
    ensures c.cg.cnt > 0 && s.cq.phase == (s.cq.ci / c.cg.cnt) % 2
    ensures Settle(s).cq.db == s.cq.ci % W24 && Settle(s).rq.db == s.rq.head % W16
  {
    hide CountAll, Answers, InOrder;
    assert s.cq.log[..s.cq.ci - c.cg.ci0] == s.cq.log;
    CQ.FlushGood(c.cg, s.cq);
    RQ.FlushGood(c.rg, s.rq, 0);
  }

  lemma EndsAgree(c: Config, t0: Tally, x: Side, y: Side)
    requires InStep(c, t0, x) && InStep(c, t0, y) && x.cq.log == y.cq.log && Caught(c, x) && Caught(c, y)
    ensures Same(c, Settle(x), Settle(y))
  {
    hide CountAll, Answers, InOrder, RQ.Good, CQ.Good;
    Position(c, t0, x);
    Position(c, t0, y);
    forall k | x.rq.tail <= k < x.rq.head ensures SlotOf(c, x.rq.ring, k) == SlotOf(c, y.rq.ring, k) {
      WindowIs(c, x.rq, k);
      WindowIs(c, y.rq, k);
    }
  }

  /**
   * Whenever and by whomever the CQEs are handled, and wherever the flushes fall: two consumers
   * that have handled the same stream to its end, and flushed, agree. Poller, poll steps handed
   * from one lock holder to the next, and the lone submitter are such mixtures.
   */
  lemma ModesAgree(c: Config, t0: Tally, s: Side, a: seq<Op>, b: seq<Op>)
    requires InStep(c, t0, s) && Possible(c, s, a) && Possible(c, s, b)
    requires var x, y := DoAll(c, s, a), DoAll(c, s, b); x.cq.log == y.cq.log && Caught(c, x) && Caught(c, y)
    ensures Same(c, Settle(DoAll(c, s, a)), Settle(DoAll(c, s, b)))
  {
    hide InStep, Same, Settle, DoAll, Possible;
    InStepFits(c, t0, s);
    AllInStep(c, t0, s, a);
    AllInStep(c, t0, s, b);
    EndsAgree(c, t0, DoAll(c, s, a), DoAll(c, s, b));
  }

  /** At the start nothing has been handled. */
  lemma StartInStep(c: Config, s: Side)
    requires Fit(c, s) && s.cq == CQ.Start(c.cg, s.cq.entries) && CQ.Stale(c.cg, s.cq.entries, c.cg.ci0)
    requires s.rq == RQ.Start(c.rg, s.rq.ring)
    requires forall i :: 0 <= i < |c.rg.first| ==> s.rq.ring[(c.rg.tail0 + i) % c.rg.cnt] == c.rg.first[i]
    ensures InStep(c, Tally(s.tags, s.regs, s.aborted), s)
  {
    RQ.StartGood(c.rg, s.rq.ring);
    CQ.StartGood(c.cg, s.cq.entries);
  }

  /** From launch on the two always agree, in every mode. */
  lemma ModesAgreeFromLaunch(c: Config, s: State, a: seq<Op>, b: seq<Op>)
    requires Init(c, s) && Fit(c, SideOf(s)) && Possible(c, SideOf(s), a) && Possible(c, SideOf(s), b)
    requires var x, y := DoAll(c, SideOf(s), a), DoAll(c, SideOf(s), b);
             x.cq.log == y.cq.log && Caught(c, x) && Caught(c, y)
    ensures Same(c, Settle(DoAll(c, SideOf(s), a)), Settle(DoAll(c, SideOf(s), b)))
  {
    hide Same, Settle, DoAll, Possible, Caught, InStep;
    LaunchInStep(c, s);
    ModesAgree(c, Tally(s.tags, s.regs, s.abort), SideOf(s), a, b);
  }

  lemma LaunchInStep(c: Config, s: State)
    requires Init(c, s)
    ensures Fit(c, SideOf(s)) && InStep(c, Tally(s.tags, s.regs, s.abort), SideOf(s))
  {
    hide InStep;
    StartInStep(c, SideOf(s));
  }

  /** Every CQE written has been handled. */
  predicate Caught(c: Config, s: Side) { s.cq.ci == c.cg.ci0 + |s.cq.log| }

  function SlotOf(c: Config, ring: seq<nat>, k: nat): int {
    if c.rg.cnt > 0 && |ring| == c.rg.cnt then ring[k % c.rg.cnt] else -1
  }

  // ---- the producer counter of the lean path ----

  /** What sq_pi holds after k locked posts: each reads it in 16 bits and writes back that plus bb. */
  function LockedPi(pi0: nat, bb: nat, k: nat): nat {
    if k == 0 then pi0 else LockedPi(pi0, bb, k - 1) % W16 + bb
  }

  /** The lean path computes the counter from the job number, in 32 bits, and gets the same one. */
  lemma {:induction false} LeanPi(pi0: nat, bb: nat, j: nat)
    ensures LockedPi(pi0, bb, j) % W16 == ((pi0 + j * bb) % 0x1_0000_0000) % W16
  {
    assert 0x1_0000_0000 == W16 * W16;
    ModMod(pi0 + j * bb, 0x1_0000_0000, W16) by { assert 0x1_0000_0000 % W16 == 0; }
    LockedExact(pi0, bb, j);
  }

  lemma {:induction false} LockedExact(pi0: nat, bb: nat, j: nat)
    ensures LockedPi(pi0, bb, j) % W16 == (pi0 + j * bb) % W16
  {
    if j > 0 {
      LockedExact(pi0, bb, j - 1);
      var p := LockedPi(pi0, bb, j - 1);
      AddMod(p, p % W16, bb, W16) by { ModMod(p, W16, W16); }
      AddMod(pi0 + (j - 1) * bb, p % W16, bb, W16) by { ModMod(p, W16, W16); }
      assert pi0 + j * bb == pi0 + (j - 1) * bb + bb;
    }
  }
}
