/** Steps of the NIC and its target keep the invariant. */
module NicSteps {
  import opened Arith
  import opened Protocol
  import opened Invariant
  import SQ = SendQueue
  import CQ = CompletionQueue
  import RQ = RecvQueue

  lemma FetchKeeps(c: Config, s: State)
    requires Inv(c, s) && NicEnabled(c, s, Fetch)
    ensures Inv(c, NicNext(c, s, Fetch))
  {
    hide SQ.Good, CQ.Good, RQ.Good, CmdsInv, LogInv, LockInv, CapsInv, ConInv, NamedInv, PubInv, RegsInv,
         LastInv, TagInv, JobInv, CmdJobs, ExitInv, StatInv, CountInv, PendInv, JobsInRange;
    SQ.FetchGood(c.sg, s.sq, s.caps);
  }

  lemma SendKeeps(c: Config, s: State)
    requires Inv(c, s) && NicEnabled(c, s, Send)
    ensures Inv(c, NicNext(c, s, Send))
  {
    hide SQ.Good, CQ.Good, RQ.Good, CmdsInv, LogInv, LockInv, CapsInv, ConInv, NamedInv, PubInv, RegsInv,
         LastInv, TagInv, JobInv, CmdJobs, ExitInv, StatInv, CountInv, PendInv, JobsInRange;
    SQ.SendGood(c.sg, s.sq, s.caps);
  }

  lemma RetireKeeps(c: Config, s: State)
    requires Inv(c, s) && NicEnabled(c, s, Retire)
    ensures Inv(c, NicNext(c, s, Retire))
  {
    hide SQ.Good, CQ.Good, RQ.Good, CmdsInv, LogInv, LockInv, CapsInv, ConInv, NamedInv, PubInv, RegsInv,
         LastInv, TagInv, JobInv, CmdJobs, ExitInv, StatInv, CountInv, PendInv, JobsInRange;
    SQ.RetireGood(c.sg, s.sq, s.caps);
    RetireLog(c, s);
  }

  lemma RetireLog(c: Config, s: State)
    requires SQ.Good(c.sg, s.sq, s.caps) && s.sq.retired < |s.sq.wire|
    requires CmdsInv(c, s.sq.posted, s.h.cmds)
    requires LogInv(c, s.cq.log, s.h.respAt, s.h.sentAt, s.h.cmds, s.sq.retired, s.rq.arrivals)
    ensures LogInv(c, s.cq.log, s.h.respAt, s.h.sentAt, s.h.cmds, s.sq.retired + 1, s.rq.arrivals)
  {
    var r := s.sq.retired + 1;
    forall j | 0 <= j < |s.cq.log|
      ensures EventInv(c, s.cq.log, s.h.respAt, s.h.sentAt, s.h.cmds, r, s.rq.arrivals, j)
    {
      assert EventInv(c, s.cq.log, s.h.respAt, s.h.sentAt, s.h.cmds, s.sq.retired, s.rq.arrivals, j);
    }
  }

  // ---- the log grows by one CQE ----

  /** A new CQE leaves everything said about earlier ones as it was. */
  lemma LogGrows(c: Config, s: State, e: CQ.Event, q: RQ.Rq)
    requires Inv(c, s)
    requires q == s.rq.(arrivals := q.arrivals, bufs := q.bufs)
    ensures ConInv(c, s.con, s.cq.log + [e], Here(c, s), q)
    ensures PubInv(s.cq.log + [e], s.h.respAt, s.h.pub, Here(c, s) + PubStep(s.con))
    ensures RegsInv(s.cq.log + [e], s.regs, s.con, Here(c, s))
  {
    hide SQ.Good, CQ.Good, RQ.Good, CmdsInv, LogInv, LockInv, CapsInv, NamedInv,
         LastInv, TagInv, JobInv, CmdJobs, ExitInv, StatInv, CountInv, PendInv, JobsInRange;
    var i := Here(c, s);
    CountsPrefix(s.cq.log, e, i + TailStep(s.con)) by { PlacesInLog(c, s); }
    CountsPrefix(s.cq.log, e, i + PubStep(s.con));
    CountsPrefix(s.cq.log, e, i + SeenStep(s.con));
  }

  lemma PlacesInLog(c: Config, s: State)
    requires ConInv(c, s.con, s.cq.log, Here(c, s), s.rq)
    ensures 0 <= Here(c, s) && Here(c, s) + SeenStep(s.con) <= |s.cq.log|
    ensures Here(c, s) + TailStep(s.con) <= Here(c, s) + PubStep(s.con) <= |s.cq.log|
  {}

  lemma EventStays(c: Config, s: State, e: CQ.Event, respAt: map<nat, nat>, sentAt: map<nat, nat>,
                   arrivals: seq<RQ.Arrival>, j: nat)
    requires LogInv(c, s.cq.log, s.h.respAt, s.h.sentAt, s.h.cmds, s.sq.retired, s.rq.arrivals)
    requires j < |s.cq.log| && s.rq.arrivals <= arrivals
    requires forall n :: n in s.h.respAt ==> n in respAt && respAt[n] == s.h.respAt[n]
    requires forall n :: n in s.h.sentAt ==> n in sentAt && sentAt[n] == s.h.sentAt[n]
    ensures EventInv(c, s.cq.log + [e], respAt, sentAt, s.h.cmds, s.sq.retired, arrivals, j)
  {
    assert EventInv(c, s.cq.log, s.h.respAt, s.h.sentAt, s.h.cmds, s.sq.retired, s.rq.arrivals, j);
    CountsPrefix(s.cq.log, e, j);
  }

  lemma SendCqeLog(c: Config, s: State, n: nat)
    requires Inv(c, s) && NicEnabled(c, s, SendCqe(n))
    ensures LogInv(c, s.cq.log + [CQ.Sent(n)], s.h.respAt, s.h.sentAt[n := |s.cq.log|],
                   s.h.cmds, s.sq.retired, s.rq.arrivals)
  {
    hide SQ.Good, CQ.Good, RQ.Good, CmdsInv, LockInv, CapsInv, ConInv, NamedInv, PubInv, RegsInv,
         LastInv, TagInv, JobInv, CmdJobs, ExitInv, StatInv, CountInv, PendInv, JobsInRange;
    var e := CQ.Sent(n);
    var sentAt' := s.h.sentAt[n := |s.cq.log|];
    forall j | 0 <= j < |s.cq.log|
      ensures EventInv(c, s.cq.log + [e], s.h.respAt, sentAt', s.h.cmds, s.sq.retired, s.rq.arrivals, j)
    {
      EventStays(c, s, e, s.h.respAt, sentAt', s.rq.arrivals, j);
    }
    CountsPrefix(s.cq.log, e, |s.cq.log|);
  }

  lemma SendCqeKeeps(c: Config, s: State, n: nat)
    requires Inv(c, s) && NicEnabled(c, s, SendCqe(n))
    ensures Inv(c, NicNext(c, s, SendCqe(n)))
  {
    hide SQ.Good, CQ.Good, RQ.Good, CmdsInv, LogInv, LockInv, CapsInv, ConInv, NamedInv, PubInv, RegsInv,
         LastInv, TagInv, JobInv, CmdJobs, ExitInv, StatInv, CountInv, PendInv, JobsInRange;
    var e := CQ.Sent(n);
    CQ.ProduceGood(c.cg, s.cq, e);
    LogGrows(c, s, e, s.rq);
    SendCqeLog(c, s, n);
    StatusStays(c, s, e, s.h.respAt);
  }

  /** Tags and recorded statuses only speak of answers that are already in the log. */
  lemma StatusStays(c: Config, s: State, e: CQ.Event, respAt: map<nat, nat>)
    requires Inv(c, s)
    requires forall n :: n in s.h.respAt ==> n in respAt && respAt[n] == s.h.respAt[n]
    ensures TagInv(s.sub, s.tags, s.h.last, s.h.cmds, s.h.pub, s.cq.log + [e], respAt)
    ensures StatInv(c, s.stat, s.h.recs, s.h.via, s.h.cmds, s.h.pub, s.cq.log + [e], respAt, s.abort)
  {
    hide SQ.Good, CQ.Good, RQ.Good, CmdsInv, LockInv, CapsInv, ConInv, NamedInv, RegsInv,
         LastInv, JobInv, CmdJobs, ExitInv, CountInv, PendInv, JobsInRange;
    forall n | n in s.h.pub
      ensures StatusOf(s.cq.log + [e], respAt, n) == StatusOf(s.cq.log, s.h.respAt, n)
    {
      assert n in s.h.respAt;
    }
    forall t | 0 <= t < |s.sub|
      ensures TagOk(s.sub[t], s.tags[t], s.h.last[t], s.h.cmds, s.h.pub,
                    StatusOf(s.cq.log + [e], respAt, s.h.last[t]))
    {
      assert TagOk(s.sub[t], s.tags[t], s.h.last[t], s.h.cmds, s.h.pub,
                   StatusOf(s.cq.log, s.h.respAt, s.h.last[t]));
    }
  }

  lemma AnswerLog(c: Config, s: State, n: nat, status: nat, inlined: bool)
    requires Inv(c, s) && NicEnabled(c, s, Answer(n, status, inlined))
    ensures
      var s' := NicNext(c, s, Answer(n, status, inlined));
      LogInv(c, s'.cq.log, s'.h.respAt, s'.h.sentAt, s'.h.cmds, s'.sq.retired, s'.rq.arrivals)
  {
    hide SQ.Good, CQ.Good, RQ.Good, CmdsInv, LockInv, CapsInv, ConInv, NamedInv, PubInv, RegsInv,
         LastInv, TagInv, JobInv, CmdJobs, ExitInv, StatInv, CountInv, PendInv, JobsInRange;
    var s' := NicNext(c, s, Answer(n, status, inlined));
    var e := s'.cq.log[|s.cq.log|];
    WireCid(c, s, n);
    forall j | 0 <= j < |s.cq.log|
      ensures EventInv(c, s'.cq.log, s'.h.respAt, s.h.sentAt, s.h.cmds, s.sq.retired, s'.rq.arrivals, j)
    {
      EventStays(c, s, e, s'.h.respAt, s.h.sentAt, s'.rq.arrivals, j);
    }
    CountsPrefix(s.cq.log, e, |s.cq.log|);
    assert EventInv(c, s'.cq.log, s'.h.respAt, s.h.sentAt, s.h.cmds, s.sq.retired, s'.rq.arrivals, |s.cq.log|);
  }

  /** What the target was sent carries the cid of the command's own tag. */
  lemma WireCid(c: Config, s: State, n: nat)
    requires SQ.Good(c.sg, s.sq, s.caps) && CmdsInv(c, s.sq.posted, s.h.cmds)
    requires n < |s.sq.wire|
    ensures n < |s.h.cmds| && s.sq.wire[n].cid == CID_TAG + s.h.cmds[n].tag
  {
    assert s.sq.wire[n] == s.sq.posted[n].cap;
  }

  lemma AnswerKeeps(c: Config, s: State, n: nat, status: nat, inlined: bool)
    requires Inv(c, s) && NicEnabled(c, s, Answer(n, status, inlined))
    ensures Inv(c, NicNext(c, s, Answer(n, status, inlined)))
  {
    hide SQ.Good, CQ.Good, RQ.Good, CmdsInv, LogInv, LockInv, CapsInv, ConInv, NamedInv, PubInv, RegsInv,
         LastInv, TagInv, JobInv, CmdJobs, ExitInv, StatInv, CountInv, PendInv, JobsInRange;
    var s' := NicNext(c, s, Answer(n, status, inlined));
    var e := s'.cq.log[|s.cq.log|];
    CQ.ProduceGood(c.cg, s.cq, e);
    RQ.TakeGood(c.rg, s.rq, Extra(s.con), e.arrival);
    LogGrows(c, s, e, s'.rq);
    AnswerLog(c, s, n, status, inlined);
    StatusStays(c, s, e, s'.h.respAt);
    AnswerPub(s, s'.cq.log, Here(c, s) + PubStep(s.con), n);
    assert PendInv(s'.con, s'.rq) by { Pend(s, s'.rq); }
  }

  lemma Pend(s: State, q: RQ.Rq)
    requires PendInv(s.con, s.rq) && q.pending == s.rq.pending
    ensures PendInv(s.con, q)
  {}

  /** A response that is only in the log is not published yet. */
  lemma AnswerPub(s: State, log: seq<CQ.Event>, end: int, n: nat)
    requires PubInv(s.cq.log, s.h.respAt, s.h.pub, end) && n !in s.h.respAt
    requires PubInv(log, s.h.respAt, s.h.pub, end)
    ensures PubInv(log, s.h.respAt[n := |s.cq.log|], s.h.pub, end)
  {}

  lemma RaiseKeeps(c: Config, s: State)
    requires Inv(c, s)
    ensures Inv(c, s.(abort := true))
  {
    hide SQ.Good, CQ.Good, RQ.Good, CmdsInv, LogInv, LockInv, CapsInv, ConInv, NamedInv, PubInv, RegsInv,
         LastInv, TagInv, JobInv, CmdJobs, CountInv, PendInv, JobsInRange;
  }
}
