/** The end of a run: what the final counters and doorbell records say, and the host's audit. */
module Audit {
  import opened Arith
  import opened Protocol
  import opened Invariant
  import opened Runs
  import opened Safety
  import SubmitterSteps
  import ConsumerSteps
  import SQ = SendQueue
  import CQ = CompletionQueue
  import RQ = RecvQueue

  const W32: nat := 0x1_0000_0000

  /** Where the consumer has flushed, and why it stopped. */
  predicate FlushInv(c: Config, con: Con, pending: nat, shown: nat, ci: nat, done: nat, abort: bool) {
    && (con.IdleCq? || con.IdleChk? || con.StopCq? || con.Halted? ==> pending == 0)
    && (con.IdleChk? || con.Halted? ==> shown == ci)
    && ((con.StopRq? || con.StopCq? || con.Halted?) && !abort ==> done >= c.njobs)
  }

  predicate Flushed(c: Config, s: State) {
    FlushInv(c, s.con, s.rq.pending, s.cq.shown, s.cq.ci, s.regs.doneCnt, s.abort)
  }

  lemma FlushedStep(c: Config, s: State, a: Act)
    requires Inv(c, s) && Enabled(c, s, a) && Flushed(c, s)
    ensures Flushed(c, Next(c, s, a))
  {
    hide Inv, Flushed, SubNext, ConNext, NicNext;
    InvShape(c, s);
    if SubEnabled(c, s, a) {
      FlushedSub(c, s, a);
    } else if ConEnabled(c, s, a) {
      FlushedCon(c, s, a);
    } else if NicEnabled(c, s, a) {
      FlushedNic(c, s, a);
    } else {
      FlushedAbort(c, s);
    }
  }

  lemma FlushedAbort(c: Config, s: State)
    requires Flushed(c, s)
    ensures Flushed(c, s.(abort := true))
  {}

  lemma FlushedSub(c: Config, s: State, a: Act)
    requires Shape(c, s) && SubEnabled(c, s, a) && Flushed(c, s)
    ensures Flushed(c, SubNext(c, s, a))
  {
    hide JobsInRange;
  }

  lemma FlushedNic(c: Config, s: State, a: Act)
    requires Shape(c, s) && NicEnabled(c, s, a) && Flushed(c, s)
    ensures Flushed(c, NicNext(c, s, a))
  {
    hide JobsInRange;
  }

  lemma FlushedCon(c: Config, s: State, a: Act)
    requires Inv(c, s) && ConEnabled(c, s, a) && Flushed(c, s)
    ensures Flushed(c, ConNext(c, s, a))
  {
    hide SQ.Good, CQ.Good, RQ.Good, CmdsInv, LogInv, LockInv, CapsInv, ConInv, NamedInv, PubInv,
         RegsInv, LastInv, TagInv, JobInv, CmdJobs, ExitInv, StatInv, CountInv, PendInv, JobsInRange;
    CqShown(c, s);
    CQ.FlushGood(c.cg, s.cq);
  }

  lemma CqShown(c: Config, s: State)
    requires CQ.Good(c.cg, s.cq)
    ensures c.cg.ci0 <= s.cq.shown <= s.cq.ci
    ensures s.cq.written == s.cq.shown || (s.cq.written == 0 && s.cq.shown == c.cg.ci0)
  {}

  lemma AtLaunch(c: Config, s: State)
    requires Init(c, s)
    ensures Flushed(c, s)
  {}

  lemma {:induction false} FlushedAlways(c: Config, ss: seq<State>, acts: seq<Act>, i: nat)
    requires Run(c, ss, acts) && i < |ss|
    ensures Flushed(c, ss[i])
  {
    if i == 0 {
      AtLaunch(c, ss[0]);
    } else {
      hide Inv, Flushed, Init, Next, Shape, Enabled;
      FlushedAlways(c, ss, acts, i - 1);
      RunKeeps(c, ss, acts, i - 1);
      assert Step(c, ss[i - 1], acts[i - 1], ss[i]);
      FlushedStep(c, ss[i - 1], acts[i - 1]);
    }
  }

  /** The kernel returned without an error: every block is done and nobody raised abort. */
  predicate Finished(c: Config, s: State) {
    s.con.Halted? && !s.abort && forall t :: 0 <= t < |s.sub| ==> s.sub[t].Exited?
  }

  /** Every job had exactly one command, and each was answered and counted. */
  lemma FinalCounts(c: Config, s: State)
    requires Inv(c, s) && Flushed(c, s) && Finished(c, s)
    ensures |s.h.cmds| == c.njobs == s.regs.doneCnt == s.regs.cqeResp
    ensures s.rq.pending == 0 && s.rq.head == c.rg.tail0 + |c.rg.first| + s.regs.cqeResp
    ensures s.cq.shown == s.cq.ci == c.cg.ci0 + s.regs.cqeReq + s.regs.cqeResp
  {
    hide SQ.Good, CQ.Good, RQ.Good, CmdsInv, LogInv, LockInv, CapsInv, NamedInv, LastInv, TagInv,
         JobInv, CmdJobs, ExitInv, StatInv, PendInv, JobsInRange;
    CmdsAtMostJobs(c, s);
    RqCounters(c, s);
  }

  lemma CmdsAtMostJobs(c: Config, s: State)
    requires Inv(c, s)
    ensures |s.h.cmds| <= c.njobs
  {
    hide SQ.Good, CQ.Good, RQ.Good, CmdsInv, LogInv, LockInv, CapsInv, ConInv, NamedInv, PubInv,
         RegsInv, LastInv, TagInv, ExitInv, StatInv, CountInv, PendInv, JobsInRange;
    var jobs := seq(|s.h.cmds|, n requires 0 <= n < |s.h.cmds| => s.h.cmds[n].job);
    forall n | 0 <= n < |jobs|
      ensures 0 <= jobs[n] < c.njobs
    {
      assert s.h.cmds[n].job < s.nextJob <= c.njobs;
    }
    Pigeonhole(jobs, c.njobs);
  }

  /** Doorbell records at the end of an error-free run, in the widths the hardware keeps. */
  ghost predicate EndsWell(c: Config, s: State) {
    && s.sq.db == (c.sg.pi0 + c.njobs * c.sg.bb) % W16
    && s.rq.db == (c.rg.tail0 + |c.rg.first| + s.regs.cqeResp) % W16
    && s.cq.db == (c.cg.ci0 + s.regs.cqeReq + s.regs.cqeResp) % W24
    && s.regs.cqeResp == c.njobs == s.regs.doneCnt
    && 0 <= s.cq.ci - c.cg.ci0 <= |s.cq.log|
    && s.regs.nvmeErr == Errs(s.cq.log, s.cq.ci - c.cg.ci0) && s.regs.nvmeErr <= c.njobs
  }

  lemma FinalDoorbells(c: Config, ss: seq<State>, acts: seq<Act>)
    requires Run(c, ss, acts) && Finished(c, ss[|acts|])
    ensures EndsWell(c, ss[|acts|])
  {
    hide Inv, Flushed, EndsWell, Init, Step;
    RunKeeps(c, ss, acts, |acts|);
    FlushedAlways(c, ss, acts, |acts|);
    EndState(c, ss[|acts|]);
  }

  lemma EndState(c: Config, s: State)
    requires Inv(c, s) && Flushed(c, s) && Finished(c, s)
    ensures EndsWell(c, s)
  {
    hide Inv, Flushed, Errs;
    FinalCounts(c, s);
    Doorbells(c, s);
    FinalErrs(c, s);
    SqGrowth(c.sg, c.njobs);
  }

  lemma SqGrowth(g: SQ.SqGeo, n: nat)
    requires g.bb == 1 || g.bb == 2
    ensures g.At(n) == g.pi0 + n * g.bb
  {}

  lemma FinalErrs(c: Config, s: State)
    requires Inv(c, s) && s.con.Halted?
    ensures 0 <= s.cq.ci - c.cg.ci0 <= |s.cq.log|
    ensures s.regs.nvmeErr == Errs(s.cq.log, s.cq.ci - c.cg.ci0)
    ensures s.regs.nvmeErr <= s.regs.doneCnt
  {
    hide SQ.Good, CQ.Good, RQ.Good, CmdsInv, LogInv, LockInv, CapsInv, ConInv, NamedInv, PubInv,
         LastInv, TagInv, JobInv, CmdJobs, ExitInv, StatInv, CountInv, PendInv, JobsInRange;
    ConsumerSteps.CqPlace(c, s);
    ErrsAtMostResps(s.cq.log, s.cq.ci - c.cg.ci0);
  }

  lemma Doorbells(c: Config, s: State)
    requires Inv(c, s)
    ensures c.sg.bb == 1 || c.sg.bb == 2
    ensures s.sq.db == c.sg.At(|s.h.cmds|) % W16
    ensures s.rq.db == (s.rq.head - s.rq.pending) % W16
    ensures s.cq.db == s.cq.shown % W24
  {
    hide LogInv, LockInv, CapsInv, ConInv, NamedInv, PubInv, RegsInv, LastInv, TagInv, JobInv,
         CmdJobs, ExitInv, StatInv, CountInv, PendInv, JobsInRange;
  }

  lemma {:induction false} ErrsAtMostResps(log: seq<CQ.Event>, j: nat)
    requires j <= |log|
    ensures Errs(log, j) <= Resps(log, j)
  {
    if j > 0 {
      ErrsAtMostResps(log, j - 1);
    }
  }

  // ---- the host's audit (main after gpu_io_run, devx_q_check) ----

  function Sub16(a: int, b: int): nat { (a - b) % W16 }

  /** SQ dbrec grew by one entry per job and WQEBB. */
  predicate SqAudit(c: Config, s: State) {
    Sub16(s.sq.db, c.sg.pi0) == (c.njobs * c.sg.bb) % W16
  }

  /** RQ dbrec grew by the responses handled. */
  predicate RqAudit(c: Config, s: State) {
    Sub16(s.rq.db, (c.rg.tail0 + |c.rg.first|) % W16) == s.regs.cqeResp % W16
  }

  /** The 24-bit CQ dbrec against a 32-bit sum that is not cut to 24 bits. */
  predicate CqAudit(c: Config, s: State) {
    s.cq.db == (c.cg.ci0 + s.regs.cqeReq + s.regs.cqeResp) % W32
  }

  /**
   * An error-free run passes the SQ and RQ checks, and the CQ check exactly when the consumer
   * counter has not left its 24 bits: beyond that the audit reports a fault that is none.
   */
  lemma AuditVerdict(c: Config, ss: seq<State>, acts: seq<Act>)
    requires Run(c, ss, acts) && Finished(c, ss[|acts|])
    ensures
      var s := ss[|acts|];
      && SqAudit(c, s) && RqAudit(c, s)
      && (CqAudit(c, s) <==> (c.cg.ci0 + s.regs.cqeReq + s.regs.cqeResp) % W32 < W24)
  {
    var s := ss[|acts|];
    FinalDoorbells(c, ss, acts);
    hide Run, Finished;
    SubView(c.sg.pi0, c.njobs * c.sg.bb);
    SubView(c.rg.tail0 + |c.rg.first|, s.regs.cqeResp);
    Widths(c.cg.ci0 + s.regs.cqeReq + s.regs.cqeResp);
  }

  /**
   * What the checks catch, in any state of any run: the SQ check passes exactly if the blocks of the
   * commands exposed are those of njobs commands in 16 bits, the RQ check exactly if the recvs given
   * back to the NIC are the responses counted, in 16 bits.
   */
  lemma ChecksCatch(c: Config, ss: seq<State>, acts: seq<Act>, i: nat)
    requires Run(c, ss, acts) && i < |ss|
    ensures SqAudit(c, ss[i]) <==> (|ss[i].h.cmds| * c.sg.bb) % W16 == (c.njobs * c.sg.bb) % W16
    ensures c.rg.tail0 + |c.rg.first| <= ss[i].rq.head - ss[i].rq.pending
    ensures RqAudit(c, ss[i]) <==>
              (ss[i].rq.head - ss[i].rq.pending - c.rg.tail0 - |c.rg.first|) % W16 == ss[i].regs.cqeResp % W16
  {
    hide Run, Inv;
    var s := ss[i];
    RunKeeps(c, ss, acts, i);
    Doorbells(c, s);
    SqGrowth(c.sg, |s.h.cmds|);
    SubView(c.sg.pi0, |s.h.cmds| * c.sg.bb);
    PostedFromFirst(c, ss, acts, i);
    SubView(c.rg.tail0 + |c.rg.first|, s.rq.head - s.rq.pending - c.rg.tail0 - |c.rg.first|);
  }

  lemma SubView(a: nat, d: nat)
    ensures Sub16((a + d) % W16, a) == d % W16 == Sub16((a + d) % W16, a % W16)
  {}

  lemma Widths(x: nat)
    ensures x % W24 == x % W32 <==> x % W32 < W24
  {
    ModMod(x, W32, W24);
  }
}
