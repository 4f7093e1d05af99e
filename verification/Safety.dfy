/** Safety of every run: exactly-once completion, queue bounds, ring and stream integrity. */
module Safety {
  import opened Arith
  import opened Protocol
  import opened Invariant
  import opened Runs
  import SubmitterSteps
  import ConsumerSteps
  import SQ = SendQueue
  import CQ = CompletionQueue
  import RQ = RecvQueue

  // ---- exactly once ----

  /** Is the CQE at place p the answer to a command of job j? */
  predicate AnswersJob(s: State, j: nat, p: nat) {
    && p < |s.cq.log| && s.cq.log[p].Answered?
    && s.cq.log[p].n < |s.h.cmds| && s.h.cmds[s.cq.log[p].n].job == j
  }

  /**
   * A status in c_stat is the status of the one response to the job's own command; a job is
   * recorded at most once, and a run that ends without abort records every job's status.
   */
  lemma ExactlyOnce(c: Config, ss: seq<State>, acts: seq<Act>, i: nat, j: nat)
    requires Run(c, ss, acts) && i < |ss| && j < c.njobs
    ensures |ss[i].stat| == |ss[i].h.recs| == c.njobs && |ss[i].sub| == c.qd
    ensures ss[i].h.recs[j] <= 1
    ensures ss[i].stat[j] != NO_WAIT ==>
              exists p: nat :: AnswersJob(ss[i], j, p) && ss[i].cq.log[p].arrival.rsp.status == ss[i].stat[j]
    ensures forall p: nat, q: nat :: AnswersJob(ss[i], j, p) && AnswersJob(ss[i], j, q) ==> p == q
    ensures (forall t :: 0 <= t < c.qd ==> ss[i].sub[t].Exited?) && !ss[i].abort ==>
              ss[i].h.recs[j] == 1 && ss[i].stat[j] != NO_WAIT
  {
    var s := ss[i];
    RunKeeps(c, ss, acts, i);
    hide SQ.Good, CQ.Good, RQ.Good, CmdsInv, LogInv, LockInv, CapsInv, ConInv, NamedInv, PubInv,
         RegsInv, LastInv, TagInv, JobInv, CmdJobs, ExitInv, StatInv, CountInv, PendInv, JobsInRange;
    hide Run;
    Recorded(c, s, j);
    forall p: nat, q: nat | AnswersJob(s, j, p) && AnswersJob(s, j, q)
      ensures p == q
    {
      OneAnswer(c, s, p, q);
    }
    if s.stat[j] != NO_WAIT {
      var n := s.h.via[j];
      assert AnswersJob(s, j, s.h.respAt[n]);
    }
  }

  lemma Recorded(c: Config, s: State, j: nat)
    requires Inv(c, s) && j < c.njobs
    ensures s.h.recs[j] <= 1
    ensures s.stat[j] != NO_WAIT ==>
              && j in s.h.via && s.h.via[j] < |s.h.cmds| && s.h.cmds[s.h.via[j]].job == j
              && s.h.via[j] in s.h.respAt && s.h.respAt[s.h.via[j]] < |s.cq.log|
              && s.cq.log[s.h.respAt[s.h.via[j]]].Answered?
              && s.cq.log[s.h.respAt[s.h.via[j]]].n == s.h.via[j]
              && s.cq.log[s.h.respAt[s.h.via[j]]].arrival.rsp.status == s.stat[j]
    ensures (forall t :: 0 <= t < c.qd ==> s.sub[t].Exited?) && !s.abort ==>
              s.h.recs[j] == 1 && j in s.h.via && s.stat[j] != NO_WAIT
  {
    hide SQ.Good, CQ.Good, RQ.Good, CmdsInv, LogInv, LockInv, CapsInv, ConInv, NamedInv, RegsInv,
         LastInv, TagInv, CmdJobs, CountInv, PendInv, JobsInRange;
    PubStatus(c, s);
    if (forall t :: 0 <= t < c.qd ==> s.sub[t].Exited?) && !s.abort {
      assert s.sub[0].Exited?;
      assert s.nextJob == c.njobs;
      assert s.sub[s.h.owner[j]].Exited?;
    }
  }

  /** A published command has its one response in the log, with a 16-bit status. */
  lemma PubStatus(c: Config, s: State)
    requires Inv(c, s)
    ensures forall n :: n in s.h.pub ==>
              && n in s.h.respAt && s.h.respAt[n] < |s.cq.log| && s.cq.log[s.h.respAt[n]].Answered?
              && s.cq.log[s.h.respAt[n]].n == n
              && StatusOf(s.cq.log, s.h.respAt, n) < W16
  {
    hide SQ.Good, CQ.Good, RQ.Good, CmdsInv, LockInv, CapsInv, ConInv, NamedInv, RegsInv, LastInv,
         TagInv, JobInv, CmdJobs, ExitInv, StatInv, CountInv, PendInv, JobsInRange;
    forall n | n in s.h.pub
      ensures StatusOf(s.cq.log, s.h.respAt, n) < W16
    {
      assert EventInv(c, s.cq.log, s.h.respAt, s.h.sentAt, s.h.cmds, s.sq.retired, s.rq.arrivals,
                      s.h.respAt[n]);
    }
  }

  lemma OneAnswer(c: Config, s: State, p: nat, q: nat)
    requires Inv(c, s) && p < |s.cq.log| && q < |s.cq.log|
    requires s.cq.log[p].Answered? && s.cq.log[q].Answered?
    requires s.cq.log[p].n < |s.h.cmds| && s.cq.log[q].n < |s.h.cmds|
    requires s.h.cmds[s.cq.log[p].n].job == s.h.cmds[s.cq.log[q].n].job
    ensures p == q
  {
    hide SQ.Good, CQ.Good, RQ.Good, CmdsInv, LockInv, CapsInv, ConInv, NamedInv, PubInv, RegsInv,
         LastInv, TagInv, JobInv, ExitInv, StatInv, CountInv, PendInv, JobsInRange;
    assert EventInv(c, s.cq.log, s.h.respAt, s.h.sentAt, s.h.cmds, s.sq.retired, s.rq.arrivals, p);
    assert EventInv(c, s.cq.log, s.h.respAt, s.h.sentAt, s.h.cmds, s.sq.retired, s.rq.arrivals, q);
  }

  /** The job counter never goes back, and moves exactly when a claim wins. */
  lemma ClaimMoves(c: Config, s: State, a: Act)
    requires Shape(c, s) && Enabled(c, s, a)
    ensures Next(c, s, a).nextJob == s.nextJob + if SubEnabled(c, s, a) && a.Claim? then 1 else 0
  {
    hide SubNext, ConNext, NicNext, SubEnabled, ConEnabled, NicEnabled, JobsInRange;
    SubClaims(c, s, a);
    OthersClaimNone(c, s, a);
  }

  lemma SubClaims(c: Config, s: State, a: Act)
    requires Shape(c, s)
    ensures SubEnabled(c, s, a) ==> SubNext(c, s, a).nextJob == s.nextJob + if a.Claim? then 1 else 0
  {
    hide PayloadOf, PostOf, CapsuleOf;
  }

  lemma OthersClaimNone(c: Config, s: State, a: Act)
    requires Shape(c, s)
    ensures ConEnabled(c, s, a) ==> ConNext(c, s, a).nextJob == s.nextJob
    ensures NicEnabled(c, s, a) ==> NicNext(c, s, a).nextJob == s.nextJob
  {
    hide ResponseRead, PublishedHere;
  }

  lemma {:induction false} ClaimsGrow(c: Config, ss: seq<State>, acts: seq<Act>, i: nat, k: nat)
    requires Run(c, ss, acts) && i <= k < |ss|
    ensures ss[i].nextJob <= ss[k].nextJob
  {
    if i < k {
      ClaimsGrow(c, ss, acts, i, k - 1);
      assert Step(c, ss[k - 1], acts[k - 1], ss[k]);
      ClaimMoves(c, ss[k - 1], acts[k - 1]);
    }
  }

  /** Submitter t has just won job j. */
  predicate Holding(s: State, t: nat, j: nat) { t < |s.sub| && s.sub[t] == Claimed(j) }

  /** A claim gives the next job to its submitter, and to no later claim. */
  lemma ClaimTakes(c: Config, s: State, a: Act)
    requires Shape(c, s) && Enabled(c, s, a) && a.Claim?
    ensures Holding(Next(c, s, a), a.t, s.nextJob) && Next(c, s, a).nextJob == s.nextJob + 1
  {}

  /** No two claims of a run, by whichever submitters, win the same job. */
  lemma ClaimedOnce(c: Config, ss: seq<State>, acts: seq<Act>, i: nat, k: nat)
    requires Run(c, ss, acts) && i < k < |acts| && acts[i].Claim? && acts[k].Claim?
    ensures Holding(ss[i + 1], acts[i].t, ss[i].nextJob) && Holding(ss[k + 1], acts[k].t, ss[k].nextJob)
    ensures ss[i].nextJob != ss[k].nextJob
  {
    hide Shape, Enabled, Next, SubEnabled;
    assert Step(c, ss[i], acts[i], ss[i + 1]) && Step(c, ss[k], acts[k], ss[k + 1]);
    ClaimTakes(c, ss[i], acts[i]);
    ClaimTakes(c, ss[k], acts[k]);
    ClaimsGrow(c, ss, acts, i + 1, k);
  }

  // ---- the receive queue never runs dry ----

  /** Posted recvs left for the NIC, by its own 16-bit reckoning. */
  function Visible(c: Config, s: State): nat { (s.rq.db - s.rq.Taken(c.rg) % W16) % W16 }

  /** Commands the SQ dbrec has exposed and nobody has answered. */
  function Owed(s: State): int { |s.h.cmds| - |s.rq.arrivals| }

  /** The host's clamp for batched re-posting. */
  predicate RqClamp(c: Config) { c.qd + 16 <= |c.rg.first| }

  lemma NeverDry(c: Config, ss: seq<State>, acts: seq<Act>, i: nat)
    requires Run(c, ss, acts) && i < |ss| && RqClamp(c)
    ensures Owed(ss[i]) <= Visible(c, ss[i])
  {
    RunKeeps(c, ss, acts, i);
    hide Run, Inv;
    OwedVisible(c, ss[i]);
  }

  /** DONE may be out for a CQE whose recv is not back: one more than the batch is missing. */
  lemma OwedVisible(c: Config, s: State)
    requires Inv(c, s) && RqClamp(c)
    ensures Owed(s) <= Visible(c, s) && (Owed(s) > 0 ==> s.rq.CanTake(c.rg))
  {
    hide SQ.Good, CQ.Good, RQ.Good, CmdsInv, LogInv, LockInv, CapsInv, NamedInv, RegsInv, LastInv,
         TagInv, JobInv, CmdJobs, ExitInv, StatInv, JobsInRange;
    ConsumerSteps.CqPlace(c, s);
    OutSize(c, s.h.last, s.h.pub);
    RqCounters(c, s);
    RespsMonotone(s.cq.log, Here(c, s) + TailStep(s.con), Here(c, s) + PubStep(s.con));
  }

  lemma OthersPost(c: Config, s: State, a: Act)
    requires Shape(c, s)
    ensures SubEnabled(c, s, a) ==> SubNext(c, s, a).rq == s.rq
    ensures NicEnabled(c, s, a) ==>
              NicNext(c, s, a).rq.head == s.rq.head && NicNext(c, s, a).rq.pending == s.rq.pending
  {}

  lemma ConsumerPosts(c: Config, s: State, a: Act)
    requires Shape(c, s) && ConEnabled(c, s, a)
    ensures s.rq.head - s.rq.pending <= ConNext(c, s, a).rq.head - ConNext(c, s, a).rq.pending
  {}

  /** The counter behind the RQ dbrec never goes back. */
  lemma PostedGrows(c: Config, s: State, a: Act)
    requires Shape(c, s) && Enabled(c, s, a)
    ensures s.rq.head - s.rq.pending <= Next(c, s, a).rq.head - Next(c, s, a).rq.pending
  {
    hide SubNext, ConNext, NicNext, SubEnabled, ConEnabled, NicEnabled, Shape;
    OthersPost(c, s, a);
    if ConEnabled(c, s, a) {
      ConsumerPosts(c, s, a);
    }
  }

  lemma {:induction false} PostedFromFirst(c: Config, ss: seq<State>, acts: seq<Act>, i: nat)
    requires Run(c, ss, acts) && i < |ss|
    ensures c.rg.tail0 + |c.rg.first| <= ss[i].rq.head - ss[i].rq.pending
  {
    if i > 0 {
      PostedFromFirst(c, ss, acts, i - 1);
      assert Step(c, ss[i - 1], acts[i - 1], ss[i]);
      PostedGrows(c, ss[i - 1], acts[i - 1]);
    }
  }

  lemma RqCounters(c: Config, s: State)
    requires RQ.Good(c.rg, s.rq, Extra(s.con))
    ensures s.rq.head == s.rq.tail + |c.rg.first| + Extra(s.con) && s.rq.pending <= RQ.RQ_BATCH
    ensures Visible(c, s) == s.rq.head - s.rq.pending - s.rq.Taken(c.rg)
    ensures s.rq.CanTake(c.rg) <==> Visible(c, s) > 0
  {
    DiffView(s.rq.Taken(c.rg), s.rq.head - s.rq.pending, W16);
  }

  lemma OutSize(c: Config, last: seq<int>, pub: set<nat>)
    requires |last| == c.qd
    ensures |Out(last, pub)| <= c.qd
  {
    RangeSize(c.qd);
    SubsetSize(Out(last, pub), Range(c.qd));
  }

  // ---- the completion queue never overflows ----

  /** CQEs the NIC holds against the consumer, by its own 24-bit reckoning. */
  function Backlog(c: Config, s: State): nat { (s.cq.Produced(c.cg) % W24 - s.cq.db) % W24 }

  /** The host's clamp for the lazily written consumer counter. */
  predicate CqClamp(c: Config) { 2 * c.qd + 32 < c.cg.cnt }

  lemma CqNeverOverflows(c: Config, ss: seq<State>, acts: seq<Act>, i: nat)
    requires Run(c, ss, acts) && i < |ss| && c.ordered
    ensures Backlog(c, ss[i]) <= 2 * c.qd + 32
    ensures CqClamp(c) ==> ss[i].cq.Room(c.cg)
  {
    RunKeeps(c, ss, acts, i);
    hide Run, Inv;
    BacklogBound(c, ss[i]);
  }

  lemma BacklogBound(c: Config, s: State)
    requires Inv(c, s) && c.ordered
    ensures Backlog(c, s) <= 2 * c.qd + CQ.CQ_BATCH
    ensures CqClamp(c) ==> s.cq.Room(c.cg)
  {
    hide SQ.Good, CQ.Good, RQ.Good, CmdsInv, LogInv, LockInv, CapsInv, ConInv, NamedInv, PubInv,
         RegsInv, LastInv, TagInv, JobInv, CmdJobs, ExitInv, StatInv, CountInv, PendInv, JobsInRange;
    ConsumerSteps.CqPlace(c, s);
    UnreadBound(c, s);
    CqCounters(c, s);
  }

  lemma CqCounters(c: Config, s: State)
    requires CQ.Good(c.cg, s.cq)
    ensures Backlog(c, s) == s.cq.Produced(c.cg) - s.cq.shown && s.cq.ci - s.cq.shown < CQ.CQ_BATCH
    ensures s.cq.Room(c.cg) <==> Backlog(c, s) < c.cg.cnt
  {
    CQ.RoomExact(c.cg, s.cq);
    DiffView(s.cq.shown, s.cq.Produced(c.cg), W24);
  }

  /** A CQE whose command is unpublished, named by the command's tag and the CQE's kind. */
  function Code(s: State, e: CQ.Event): nat
    requires e.n < |s.h.cmds|
  {
    2 * s.h.cmds[e.n].tag + if e.Answered? then 1 else 0
  }

  lemma UnreadBound(c: Config, s: State)
    requires Inv(c, s) && c.ordered
    ensures |s.cq.log| - (Here(c, s) + PubStep(s.con)) <= 2 * c.qd
  {
    hide SQ.Good, CQ.Good, RQ.Good, CmdsInv, LogInv, LockInv, CapsInv, ConInv, NamedInv, PubInv,
         RegsInv, LastInv, TagInv, JobInv, CmdJobs, ExitInv, StatInv, CountInv, PendInv, JobsInRange;
    ConsumerSteps.CqPlace(c, s);
    PubPlace(c, s);
    var lo := Here(c, s) + PubStep(s.con);
    EventsInRange(c, s);
    var codes := seq(|s.cq.log| - lo, k requires 0 <= k < |s.cq.log| - lo => Code(s, s.cq.log[lo + k]));
    forall k | 0 <= k < |codes|
      ensures 0 <= codes[k] < 2 * c.qd
    {
      CodeInRange(c, s, lo + k);
    }
    forall k, l | 0 <= k < l < |codes|
      ensures codes[k] != codes[l]
    {
      CodesDiffer(c, s, lo + k, lo + l);
    }
    Pigeonhole(codes, 2 * c.qd);
  }

  lemma PubPlace(c: Config, s: State)
    requires PubInv(s.cq.log, s.h.respAt, s.h.pub, Here(c, s) + PubStep(s.con))
    ensures 0 <= Here(c, s) + PubStep(s.con) <= |s.cq.log|
  {}

  lemma EventsInRange(c: Config, s: State)
    requires Inv(c, s)
    ensures forall p :: 0 <= p < |s.cq.log| ==> s.cq.log[p].n < |s.h.cmds|
  {
    hide SQ.Good, CQ.Good, RQ.Good, CmdsInv, LockInv, CapsInv, ConInv, NamedInv, PubInv, RegsInv,
         LastInv, TagInv, JobInv, CmdJobs, ExitInv, StatInv, CountInv, PendInv, JobsInRange;
    forall p | 0 <= p < |s.cq.log|
      ensures s.cq.log[p].n < |s.h.cmds|
    {
      assert EventInv(c, s.cq.log, s.h.respAt, s.h.sentAt, s.h.cmds, s.sq.retired, s.rq.arrivals, p);
    }
  }

  lemma CodeInRange(c: Config, s: State, p: nat)
    requires Inv(c, s) && p < |s.cq.log| && s.cq.log[p].n < |s.h.cmds|
    ensures Code(s, s.cq.log[p]) < 2 * c.qd
  {
    hide SQ.Good, CQ.Good, RQ.Good, LogInv, LockInv, CapsInv, ConInv, NamedInv, PubInv, RegsInv,
         LastInv, TagInv, JobInv, CmdJobs, ExitInv, StatInv, CountInv, PendInv, JobsInRange;
  }

  lemma CodesDiffer(c: Config, s: State, p: nat, q: nat)
    requires Inv(c, s) && c.ordered
    requires Here(c, s) + PubStep(s.con) <= p < q < |s.cq.log|
    requires s.cq.log[p].n < |s.h.cmds| && s.cq.log[q].n < |s.h.cmds|
    ensures Code(s, s.cq.log[p]) != Code(s, s.cq.log[q])
  {
    hide SQ.Good, CQ.Good, RQ.Good, CmdsInv, LockInv, CapsInv, ConInv, NamedInv, PubInv, RegsInv,
         LastInv, TagInv, JobInv, CmdJobs, ExitInv, StatInv, CountInv, PendInv, JobsInRange;
    UnreadUnpublished(c, s, p);
    UnreadUnpublished(c, s, q);
    assert EventInv(c, s.cq.log, s.h.respAt, s.h.sentAt, s.h.cmds, s.sq.retired, s.rq.arrivals, p);
    assert EventInv(c, s.cq.log, s.h.respAt, s.h.sentAt, s.h.cmds, s.sq.retired, s.rq.arrivals, q);
  }

  /** Where SEND CQEs precede responses, an unread CQE is of its tag's current command. */
  lemma UnreadUnpublished(c: Config, s: State, p: nat)
    requires Inv(c, s) && c.ordered && s.cq.log != []
    requires Here(c, s) + PubStep(s.con) <= p < |s.cq.log|
    requires s.cq.log[p].n < |s.h.cmds|
    ensures s.h.cmds[s.cq.log[p].n].tag < |s.h.last|
    ensures s.h.last[s.h.cmds[s.cq.log[p].n].tag] == s.cq.log[p].n
  {
    hide SQ.Good, CQ.Good, RQ.Good, CmdsInv, LockInv, CapsInv, ConInv, NamedInv, RegsInv, TagInv,
         JobInv, CmdJobs, ExitInv, StatInv, CountInv, PendInv, JobsInRange;
    assert EventInv(c, s.cq.log, s.h.respAt, s.h.sentAt, s.h.cmds, s.sq.retired, s.rq.arrivals, p);
  }

  // ---- ring, capsule, stream and buffer integrity ----

  /** Every WQE the NIC is not finished with stands whole under its own index, capsule included. */
  lemma SqSafe(c: Config, ss: seq<State>, acts: seq<Act>, i: nat, n: nat)
    requires Run(c, ss, acts) && i < |ss| && ss[i].sq.retired <= n < |ss[i].h.cmds|
    ensures c.sg.cnt > 0 && |ss[i].sq.ring| == c.sg.cnt
    ensures ss[i].sq.db == c.sg.At(|ss[i].h.cmds|) % W16
    ensures var cmd := ss[i].h.cmds[n];
      && SQ.Whole(c.sg, ss[i].sq.ring, n, PayloadOf(c, cmd.tag, cmd.job))
      && SQ.CapsuleThere(ss[i].caps, PostOf(c, cmd))
  {
    RunKeeps(c, ss, acts, i);
    hide Run;
    SqWhole(c, ss[i], n);
  }

  lemma SqWhole(c: Config, s: State, n: nat)
    requires Inv(c, s) && s.sq.retired <= n < |s.h.cmds|
    ensures SQ.Whole(c.sg, s.sq.ring, n, PayloadOf(c, s.h.cmds[n].tag, s.h.cmds[n].job))
    ensures SQ.CapsuleThere(s.caps, PostOf(c, s.h.cmds[n]))
    ensures s.sq.db == c.sg.At(|s.h.cmds|) % W16
  {
    hide CQ.Good, RQ.Good, LogInv, LockInv, CapsInv, ConInv, NamedInv, PubInv, RegsInv, LastInv,
         TagInv, JobInv, CmdJobs, ExitInv, StatInv, CountInv, PendInv, JobsInRange;
    assert s.sq.posted[n] == PostOf(c, s.h.cmds[n]);
  }

  /** The owner/opcode test succeeds exactly on the next CQE the NIC wrote, and names it. */
  lemma StreamExact(c: Config, ss: seq<State>, acts: seq<Act>, i: nat)
    requires Run(c, ss, acts) && i < |ss|
    ensures Shape(c, ss[i])
    ensures var s := ss[i];
      && s.cq.phase == (s.cq.ci / c.cg.cnt) % 2
      && (s.cq.Fresh(c.cg) <==> c.cg.ci0 <= s.cq.ci < s.cq.Produced(c.cg))
      && (s.cq.Fresh(c.cg) ==> s.cq.Here(c.cg).body == CQ.Is(s.cq.log[s.cq.ci - c.cg.ci0]))
      && s.regs.cidBad == 0 && s.regs.wcBad == 0
      && s.regs.cqeReq + s.regs.cqeResp == s.cq.ci - c.cg.ci0 + SeenStep(s.con)
  {
    RunKeeps(c, ss, acts, i);
    hide Run;
    hide SQ.Good, CQ.Good, RQ.Good, CmdsInv, LogInv, LockInv, CapsInv, ConInv, NamedInv, PubInv,
         LastInv, TagInv, JobInv, CmdJobs, ExitInv, StatInv, CountInv, PendInv, JobsInRange;
    CQ.FreshExact(c.cg, ss[i].cq);
    CqPhase(c, ss[i]);
  }

  lemma CqPhase(c: Config, s: State)
    requires CQ.Good(c.cg, s.cq)
    ensures s.cq.phase == (s.cq.ci / c.cg.cnt) % 2 && c.cg.ci0 <= s.cq.ci
  {}

  /** While a full batch is flushed the recv at the tail is back already: the window starts behind it. */
  function InHand(s: State): RQ.Rq { if s.con.Flushing? then s.rq.Next() else s.rq }

  /** Recv buffers are neither lost nor doubled, and a response is read as the NIC delivered it. */
  lemma BuffersSafe(c: Config, ss: seq<State>, acts: seq<Act>, i: nat)
    requires Run(c, ss, acts) && i < |ss|
    ensures Shape(c, ss[i])
    ensures RQ.Good(c.rg, InHand(ss[i]), 0)
    ensures multiset(RQ.Window(c.rg, InHand(ss[i]))) == multiset(c.rg.first)
    ensures forall m, n :: 0 <= m < n < |c.rg.first| ==>
              RQ.Window(c.rg, InHand(ss[i]))[m] != RQ.Window(c.rg, InHand(ss[i]))[n]
    ensures var s := ss[i]; s.con.Got? && s.con.resp ==>
      && 0 <= Here(c, s) < |s.cq.log| && s.cq.log[Here(c, s)].Answered?
      && ResponseRead(c, s, s.con.wc, s.con.inlined) == s.cq.log[Here(c, s)].arrival.rsp
  {
    RunKeeps(c, ss, acts, i);
    hide Run;
    hide SQ.Good, CQ.Good, RQ.Good, CmdsInv, LogInv, LockInv, CapsInv, ConInv, NamedInv, PubInv,
         RegsInv, LastInv, TagInv, JobInv, CmdJobs, ExitInv, StatInv, CountInv, PendInv, JobsInRange;
    var s := ss[i];
    if s.con.Flushing? {
      RQ.NextGood(c.rg, s.rq);
    }
    RQ.WindowConserved(c.rg, InHand(s));
    if s.con.Got? && s.con.resp {
      ConsumerSteps.ReadsOwn(c, s);
    }
  }
}
