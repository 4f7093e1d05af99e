/** Consumer steps keep the invariant. */
module ConsumerSteps {
  import opened Arith
  import opened Protocol
  import opened Invariant
  import SQ = SendQueue
  import CQ = CompletionQueue
  import RQ = RecvQueue

  /** What the invariant says of the response CQE at hand. */
  lemma AtResponse(c: Config, s: State)
    requires ConInv(c, s.con, s.cq.log, Here(c, s), s.rq)
    requires LogInv(c, s.cq.log, s.h.respAt, s.h.sentAt, s.h.cmds, s.sq.retired, s.rq.arrivals)
    requires AtCqe(s.con) && !s.con.Adv? && (s.con.Got? ==> s.con.resp)
    ensures 0 <= Here(c, s) < |s.cq.log| && s.cq.log[Here(c, s)].Answered?
    ensures AtInv(c, s.con, s.cq.log[Here(c, s)], s.rq)
    ensures
      var e := s.cq.log[Here(c, s)];
      && e.n in s.h.respAt && s.h.respAt[e.n] == Here(c, s) && e.n < |s.h.cmds|
      && c.rg.tail0 <= e.k == s.rq.tail < c.rg.tail0 + |s.rq.arrivals|
      && s.rq.arrivals[e.k - c.rg.tail0] == e.arrival
      && e.arrival.rsp.cid == CID_TAG + s.h.cmds[e.n].tag && e.arrival.rsp.status < W16
  {
    assert EventInv(c, s.cq.log, s.h.respAt, s.h.sentAt, s.h.cmds, s.sq.retired, s.rq.arrivals, Here(c, s));
  }

  /** Its command is its tag's latest, and not published before the tag state is stored. */
  lemma AtUnpublished(c: Config, s: State)
    requires Inv(c, s) && AtCqe(s.con) && !s.con.Adv? && (s.con.Got? ==> s.con.resp)
    requires PubStep(s.con) == 0
    ensures 0 <= Here(c, s) < |s.cq.log| && s.cq.log[Here(c, s)].Answered?
    ensures
      var n := s.cq.log[Here(c, s)].n;
      && n !in s.h.pub && n < |s.h.cmds| && s.h.cmds[n].tag < |s.h.last| == c.qd
      && s.h.last[s.h.cmds[n].tag] == n
  {
    hide SQ.Good, CQ.Good, RQ.Good, CmdsInv, LogInv, LockInv, CapsInv, ConInv, NamedInv, RegsInv,
         TagInv, JobInv, CmdJobs, ExitInv, StatInv, CountInv, PendInv, JobsInRange;
    AtResponse(c, s);
  }

  lemma PollKeeps(c: Config, s: State)
    requires Inv(c, s) && ConEnabled(c, s, Poll)
    ensures Inv(c, ConNext(c, s, Poll))
  {
    hide SQ.Good, CQ.Good, RQ.Good, CmdsInv, LogInv, LockInv, CapsInv, PubInv, LastInv, TagInv,
         JobInv, CmdJobs, ExitInv, StatInv, CountInv, JobsInRange;
    CQ.FreshExact(c.cg, s.cq);
    CqPlace(c, s);
  }

  lemma EndStepKeeps(c: Config, s: State)
    requires Inv(c, s) && ConEnabled(c, s, EndStep)
    ensures Inv(c, ConNext(c, s, EndStep))
  {
    hide SQ.Good, CQ.Good, RQ.Good, CmdsInv, LogInv, LockInv, CapsInv, PubInv, LastInv, TagInv,
         JobInv, CmdJobs, ExitInv, StatInv, CountInv, JobsInRange;
  }

  lemma CqPlace(c: Config, s: State)
    requires CQ.Good(c.cg, s.cq)
    ensures 0 <= Here(c, s) <= |s.cq.log|
  {}

  lemma ReadKeeps(c: Config, s: State)
    requires Inv(c, s) && ConEnabled(c, s, Read)
    ensures Inv(c, ConNext(c, s, Read))
  {
    hide SQ.Good, CQ.Good, RQ.Good, CmdsInv, LogInv, LockInv, CapsInv, ConInv, NamedInv, PubInv,
         RegsInv, LastInv, TagInv, JobInv, CmdJobs, ExitInv, StatInv, CountInv, PendInv, JobsInRange;
    if s.con.resp {
      ReadResponse(c, s);
    } else {
      SkipSent(c, s);
    }
    ConQuiet(c, s, ConNext(c, s, Read).con);
  }

  /** Neither tags nor the receive queue notice the step. */
  lemma ConQuiet(c: Config, s: State, con: Con)
    requires PendInv(s.con, s.rq) && RQ.Good(c.rg, s.rq, Extra(s.con))
    requires !s.con.Flushing? && !con.Flushing? && !con.Named?
    ensures NamedInv(con, s.tags) && PendInv(con, s.rq) && RQ.Good(c.rg, s.rq, Extra(con))
  {}

  /** The response read, from the CQE or through the RQ slot, is the one the NIC delivered. */
  lemma ReadsOwn(c: Config, s: State)
    requires Inv(c, s) && s.con.Got? && s.con.resp
    ensures 0 <= Here(c, s) < |s.cq.log| && s.cq.log[Here(c, s)].Answered?
    ensures ResponseRead(c, s, s.con.wc, s.con.inlined) == s.cq.log[Here(c, s)].arrival.rsp
  {
    hide SQ.Good, CQ.Good, RQ.Good, CmdsInv, LogInv, LockInv, CapsInv, ConInv, NamedInv, PubInv,
         RegsInv, LastInv, TagInv, JobInv, CmdJobs, ExitInv, StatInv, CountInv, PendInv, JobsInRange;
    AtResponse(c, s);
    var e := s.cq.log[Here(c, s)];
    if s.con.inlined {
      CQ.FreshExact(c.cg, s.cq);
    } else {
      RQ.ReadBack(c.rg, s.rq, 0, e.k);
    }
  }

  lemma ReadResponse(c: Config, s: State)
    requires Inv(c, s) && ConEnabled(c, s, Read) && s.con.resp
    ensures
      var s' := ConNext(c, s, Read);
      && ConInv(c, s'.con, s'.cq.log, Here(c, s'), s'.rq)
      && RegsInv(s'.cq.log, s'.regs, s'.con, Here(c, s'))
      && !s'.con.Flushing? && !s'.con.Named? && PubStep(s'.con) == PubStep(s.con)
  {
    hide SQ.Good, CQ.Good, RQ.Good, CmdsInv, LogInv, LockInv, CapsInv, NamedInv, PubInv, LastInv,
         TagInv, JobInv, CmdJobs, ExitInv, StatInv, CountInv, PendInv, JobsInRange;
    AtResponse(c, s);
    ReadsOwn(c, s);
  }

  lemma SkipSent(c: Config, s: State)
    requires Inv(c, s) && ConEnabled(c, s, Read) && !s.con.resp
    ensures
      var s' := ConNext(c, s, Read);
      && ConInv(c, s'.con, s'.cq.log, Here(c, s'), s'.rq)
      && RegsInv(s'.cq.log, s'.regs, s'.con, Here(c, s'))
      && PubInv(s'.cq.log, s'.h.respAt, s'.h.pub, Here(c, s') + PubStep(s'.con))
      && !s'.con.Flushing? && !s'.con.Named?
  {
    hide SQ.Good, CQ.Good, RQ.Good, CmdsInv, LogInv, LockInv, CapsInv, NamedInv, LastInv, TagInv,
         JobInv, CmdJobs, ExitInv, StatInv, CountInv, PendInv, JobsInRange;
    var i := Here(c, s);
    assert s.cq.log[i].Sent?;
    AnsweredAt(c, s);
  }

  lemma AnsweredAt(c: Config, s: State)
    requires LogInv(c, s.cq.log, s.h.respAt, s.h.sentAt, s.h.cmds, s.sq.retired, s.rq.arrivals)
    ensures forall n :: n in s.h.respAt ==>
              s.h.respAt[n] < |s.cq.log| && s.cq.log[s.h.respAt[n]].Answered?
  {}

  lemma NameKeeps(c: Config, s: State)
    requires Inv(c, s) && ConEnabled(c, s, Name)
    ensures Inv(c, ConNext(c, s, Name))
    ensures CidGood(c, s.con.rsp.cid)
  {
    hide SQ.Good, CQ.Good, RQ.Good, CmdsInv, LogInv, LockInv, CapsInv, ConInv, NamedInv, PubInv,
         RegsInv, LastInv, TagInv, JobInv, CmdJobs, ExitInv, StatInv, CountInv, PendInv, JobsInRange;
    AtResponse(c, s);
    AtUnpublished(c, s);
    var t := s.con.rsp.cid - CID_TAG;
    NameTag(c, s, t, s.con.rsp.status);
    NameCon(c, s);
  }

  lemma NameCon(c: Config, s: State)
    requires Inv(c, s) && s.con.Have? && CidGood(c, s.con.rsp.cid)
    ensures
      var s' := ConNext(c, s, Name);
      && ConInv(c, s'.con, s'.cq.log, Here(c, s'), s'.rq)
      && NamedInv(s'.con, s'.tags) && PendInv(s'.con, s'.rq)
      && RegsInv(s'.cq.log, s'.regs, s'.con, Here(c, s'))
  {
    hide SQ.Good, CQ.Good, RQ.Good, CmdsInv, LogInv, LockInv, CapsInv, PubInv, LastInv, TagInv,
         JobInv, CmdJobs, ExitInv, StatInv, CountInv, JobsInRange;
  }

  /** The status of an unpublished command's tag is the consumer's to write. */
  lemma NameTag(c: Config, s: State, t: nat, status: nat)
    requires TagInv(s.sub, s.tags, s.h.last, s.h.cmds, s.h.pub, s.cq.log, s.h.respAt)
    requires t < |s.tags| == |s.h.last| && !Settled(s.h.last[t], s.h.pub)
    ensures TagInv(s.sub, s.tags[t := s.tags[t].(status := status)], s.h.last, s.h.cmds, s.h.pub,
                   s.cq.log, s.h.respAt)
  {
    assert TagOk(s.sub[t], s.tags[t], s.h.last[t], s.h.cmds, s.h.pub,
                 StatusOf(s.cq.log, s.h.respAt, s.h.last[t]));
  }

  lemma PublishKeeps(c: Config, s: State)
    requires Inv(c, s) && ConEnabled(c, s, Publish)
    ensures Inv(c, ConNext(c, s, Publish))
  {
    hide SQ.Good, CQ.Good, RQ.Good, CmdsInv, LogInv, LockInv, CapsInv, ConInv, NamedInv, PubInv,
         RegsInv, LastInv, TagInv, JobInv, CmdJobs, ExitInv, StatInv, CountInv, PendInv, JobsInRange;
    AtResponse(c, s);
    AtUnpublished(c, s);
    PublishCounts(c, s);
    PublishTags(c, s);
    PublishStat(c, s);
    ConQuiet(c, s, Repost(s.con.wc));
  }

  lemma PublishCounts(c: Config, s: State)
    requires Inv(c, s) && ConEnabled(c, s, Publish)
    ensures
      var s' := ConNext(c, s, Publish);
      && ConInv(c, s'.con, s'.cq.log, Here(c, s'), s'.rq)
      && RegsInv(s'.cq.log, s'.regs, s'.con, Here(c, s'))
      && PubInv(s'.cq.log, s'.h.respAt, s'.h.pub, Here(c, s') + PubStep(s'.con))
      && s'.h.pub == s.h.pub + {s.cq.log[Here(c, s)].n}
      && NamedInv(s'.con, s'.tags)
  {
    hide SQ.Good, CQ.Good, RQ.Good, CmdsInv, LogInv, LockInv, CapsInv, LastInv, TagInv, JobInv,
         CmdJobs, ExitInv, StatInv, CountInv, PendInv, JobsInRange;
    AtResponse(c, s);
    AtUnpublished(c, s);
    var n := s.cq.log[Here(c, s)].n;
    assert PublishedHere(c, s) == {n};
    OnlyOneHere(c, s);
  }

  lemma OnlyOneHere(c: Config, s: State)
    requires LogInv(c, s.cq.log, s.h.respAt, s.h.sentAt, s.h.cmds, s.sq.retired, s.rq.arrivals)
    requires 0 <= Here(c, s) < |s.cq.log|
    ensures forall n :: n in s.h.respAt && s.h.respAt[n] == Here(c, s) ==> n == s.cq.log[Here(c, s)].n
  {}

  /** Publication turns exactly the answered command's tag, with the answer's status. */
  lemma PublishTags(c: Config, s: State)
    requires Inv(c, s) && ConEnabled(c, s, Publish)
    ensures
      var s' := ConNext(c, s, Publish);
      && LastInv(c, s'.h.last, s'.h.cmds, s'.h.pub)
      && CountInv(s'.h.cmds, s'.h.last, s'.h.pub)
      && TagInv(s'.sub, s'.tags, s'.h.last, s'.h.cmds, s'.h.pub, s'.cq.log, s'.h.respAt)
  {
    hide SQ.Good, CQ.Good, RQ.Good, CmdsInv, LogInv, LockInv, CapsInv, ConInv, PubInv, RegsInv,
         LastInv, TagInv, JobInv, CmdJobs, ExitInv, StatInv, CountInv, PendInv, JobsInRange;
    AtResponse(c, s);
    AtUnpublished(c, s);
    PublishCounts(c, s);
    var n := s.cq.log[Here(c, s)].n;
    var t := s.con.tag;
    LastOthers(c, s.h.last, s.h.cmds, s.h.pub, n);
    assert StatusOf(s.cq.log, s.h.respAt, n) == s.con.status;
    PublishTagOk(s, n, t, s.con.status);
  }

  lemma LastOthers(c: Config, last: seq<int>, cmds: seq<Cmd>, pub: set<nat>, n: nat)
    requires LastInv(c, last, cmds, pub) && CountInv(cmds, last, pub)
    requires n < |cmds| && n !in pub
    ensures cmds[n].tag < c.qd == |last|
    ensures forall u :: 0 <= u < c.qd && u != cmds[n].tag ==> last[u] != n
    ensures LastInv(c, last, cmds, pub + {n}) && CountInv(cmds, last, pub + {n})
  {
    var t := cmds[n].tag;
    assert Out(last, pub + {n}) == Out(last, pub) - {t};
    assert t in Out(last, pub);
  }

  lemma PublishTagOk(s: State, n: nat, t: nat, st: nat)
    requires TagInv(s.sub, s.tags, s.h.last, s.h.cmds, s.h.pub, s.cq.log, s.h.respAt)
    requires t < |s.tags| == |s.h.last| && s.h.last[t] == n && n !in s.h.pub
    requires forall u :: 0 <= u < |s.h.last| && u != t ==> s.h.last[u] != n
    requires StatusOf(s.cq.log, s.h.respAt, n) == st == s.tags[t].status
    ensures TagInv(s.sub, s.tags[t := s.tags[t].(state := if Failed(st) then NvmeErr else Done)],
                   s.h.last, s.h.cmds, s.h.pub + {n}, s.cq.log, s.h.respAt)
  {
    var tags' := s.tags[t := s.tags[t].(state := if Failed(st) then NvmeErr else Done)];
    forall u | 0 <= u < |s.sub|
      ensures TagOk(s.sub[u], tags'[u], s.h.last[u], s.h.cmds, s.h.pub + {n},
                    StatusOf(s.cq.log, s.h.respAt, s.h.last[u]))
    {
      assert TagOk(s.sub[u], s.tags[u], s.h.last[u], s.h.cmds, s.h.pub,
                   StatusOf(s.cq.log, s.h.respAt, s.h.last[u]));
    }
  }

  lemma PublishStat(c: Config, s: State)
    requires Inv(c, s) && ConEnabled(c, s, Publish)
    ensures
      var s' := ConNext(c, s, Publish);
      StatInv(c, s'.stat, s'.h.recs, s'.h.via, s'.h.cmds, s'.h.pub, s'.cq.log, s'.h.respAt, s'.abort)
  {
    hide SQ.Good, CQ.Good, RQ.Good, CmdsInv, LogInv, LockInv, CapsInv, ConInv, NamedInv, PubInv,
         RegsInv, LastInv, TagInv, JobInv, CmdJobs, ExitInv, CountInv, PendInv, JobsInRange;
  }

  lemma PutRingKeeps(c: Config, s: State)
    requires Inv(c, s) && ConEnabled(c, s, PutRing)
    ensures Inv(c, ConNext(c, s, PutRing))
  {
    hide SQ.Good, CQ.Good, RQ.Good, CmdsInv, LogInv, LockInv, CapsInv, PubInv, LastInv, TagInv,
         JobInv, CmdJobs, ExitInv, StatInv, CountInv, JobsInRange;
    AtResponse(c, s);
    RgValid(c, s);
    RQ.ViewSlot(c.rg, s.rq.tail);
    RQ.WriteRingGood(c.rg, s.rq);
  }

  lemma RgValid(c: Config, s: State)
    requires RQ.Good(c.rg, s.rq, Extra(s.con))
    ensures c.rg.Valid() && |s.rq.ring| == c.rg.cnt && c.rg.tail0 <= s.rq.tail <= s.rq.head
  {}

  lemma PutShadowKeeps(c: Config, s: State)
    requires Inv(c, s) && ConEnabled(c, s, PutShadow)
    ensures Inv(c, ConNext(c, s, PutShadow))
  {
    hide SQ.Good, CQ.Good, RQ.Good, CmdsInv, LogInv, LockInv, CapsInv, PubInv, LastInv, TagInv,
         JobInv, CmdJobs, ExitInv, StatInv, CountInv, JobsInRange;
    AtResponse(c, s);
    RQ.WriteShadowGood(c.rg, s.rq);
    var q := s.rq.WriteShadow(c.rg, s.con.desc);
    if q.pending < RQ.RQ_BATCH {
      RQ.NextGood(c.rg, q);
    }
  }

  lemma FlushRqKeeps(c: Config, s: State)
    requires Inv(c, s) && ConEnabled(c, s, FlushRq)
    ensures Inv(c, ConNext(c, s, FlushRq))
  {
    hide SQ.Good, CQ.Good, RQ.Good, CmdsInv, LogInv, LockInv, CapsInv, PubInv, LastInv, TagInv,
         JobInv, CmdJobs, ExitInv, StatInv, CountInv, JobsInRange;
    AtResponse(c, s);
    RQ.FlushGood(c.rg, s.rq, 1);
    RQ.NextGood(c.rg, s.rq.Flush());
  }

  lemma AdvanceKeeps(c: Config, s: State)
    requires Inv(c, s) && ConEnabled(c, s, Advance)
    ensures Inv(c, ConNext(c, s, Advance))
  {
    hide SQ.Good, CQ.Good, RQ.Good, CmdsInv, LogInv, LockInv, CapsInv, PubInv, LastInv, TagInv,
         JobInv, CmdJobs, ExitInv, StatInv, CountInv, JobsInRange;
    CQ.AdvanceGood(c.cg, s.cq);
    CQ.ShapeKept(c.cg, s.cq);
  }

  lemma IdleFlushRqKeeps(c: Config, s: State)
    requires Inv(c, s) && ConEnabled(c, s, IdleFlushRq)
    ensures Inv(c, ConNext(c, s, IdleFlushRq))
  {
    hide SQ.Good, CQ.Good, RQ.Good, CmdsInv, LogInv, LockInv, CapsInv, PubInv, LastInv, TagInv,
         JobInv, CmdJobs, ExitInv, StatInv, CountInv, JobsInRange;
    RQ.FlushGood(c.rg, s.rq, 0);
  }

  lemma StopFlushRqKeeps(c: Config, s: State)
    requires Inv(c, s) && ConEnabled(c, s, StopFlushRq)
    ensures Inv(c, ConNext(c, s, StopFlushRq))
  {
    hide SQ.Good, CQ.Good, RQ.Good, CmdsInv, LogInv, LockInv, CapsInv, PubInv, LastInv, TagInv,
         JobInv, CmdJobs, ExitInv, StatInv, CountInv, JobsInRange;
    RQ.FlushGood(c.rg, s.rq, 0);
  }

  lemma IdleFlushCqKeeps(c: Config, s: State)
    requires Inv(c, s) && ConEnabled(c, s, IdleFlushCq)
    ensures Inv(c, ConNext(c, s, IdleFlushCq))
  {
    hide SQ.Good, CQ.Good, RQ.Good, CmdsInv, LogInv, LockInv, CapsInv, PubInv, LastInv, TagInv,
         JobInv, CmdJobs, ExitInv, StatInv, CountInv, JobsInRange;
    CQ.FlushGood(c.cg, s.cq);
  }

  lemma StopFlushCqKeeps(c: Config, s: State)
    requires Inv(c, s) && ConEnabled(c, s, StopFlushCq)
    ensures Inv(c, ConNext(c, s, StopFlushCq))
  {
    hide SQ.Good, CQ.Good, RQ.Good, CmdsInv, LogInv, LockInv, CapsInv, PubInv, LastInv, TagInv,
         JobInv, CmdJobs, ExitInv, StatInv, CountInv, JobsInRange;
    CQ.FlushGood(c.cg, s.cq);
  }

  lemma CheckKeeps(c: Config, s: State)
    requires Inv(c, s) && ConEnabled(c, s, IdleCheck)
    ensures Inv(c, ConNext(c, s, IdleCheck))
  {
    hide SQ.Good, CQ.Good, RQ.Good, CmdsInv, LogInv, LockInv, CapsInv, PubInv, LastInv, TagInv,
         JobInv, CmdJobs, ExitInv, StatInv, CountInv, JobsInRange;
  }

  lemma StopKeeps(c: Config, s: State)
    requires Inv(c, s) && ConEnabled(c, s, StopOnAbort)
    ensures Inv(c, ConNext(c, s, StopOnAbort))
  {
    hide SQ.Good, CQ.Good, RQ.Good, CmdsInv, LogInv, LockInv, CapsInv, PubInv, LastInv, TagInv,
         JobInv, CmdJobs, ExitInv, StatInv, CountInv, JobsInRange;
  }
}
