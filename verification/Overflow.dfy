/**
 * Why the bound on the completion queue needs its hypothesis, and how far it can be reached: a
 * NIC that may hold back the SEND CQEs of commands already answered can bring them all at once,
 * past any clamp on QD; one that may not fills the queue up to the bound.
 */
module Overflow {
  import opened Arith
  import opened Protocol
  import opened Invariant
  import opened Runs
  import opened Safety
  import opened Tightness
  import opened HostAudit
  import Progress
  import SQ = SendQueue
  import CQ = CompletionQueue
  import RQ = RecvQueue

  // ---- a turn of the idle loop ----

  lemma QuietIdle(c: Config, s: State)
    requires Inv(c, s) && Tightness.Idle(c, s)
    ensures Shape(c, s) && !s.cq.Fresh(c.cg) && s.regs.doneCnt == |s.rq.arrivals|
  {
    hide SQ.Good, RQ.Good, CQ.Good, CmdsInv, LockInv, CapsInv, ConInv, NamedInv, PubInv, TagInv, LastInv,
         JobInv, CmdJobs, ExitInv, StatInv, CountInv, PendInv, JobsInRange;
    CQ.FreshExact(c.cg, s.cq);
  }

  lemma DoIdlePoll(c: Config, s: State) returns (s': State)
    requires Reached(c, s) && Tightness.Idle(c, s)
    ensures Reached(c, s') && OnlyNic(s, s') && s'.sq == s.sq && s'.cq == s.cq && s'.rq == s.rq && s'.h == s.h
    ensures s'.con.IdleRq? && s'.regs == s.regs && s.regs.doneCnt == |s.rq.arrivals|
  {
    hide Inv, Reached, Run, CQ.Cq.Fresh;
    ReachedInv(c, s);
    QuietIdle(c, s);
    s' := Take(c, s, Poll);
  }

  lemma DoIdleFlushRq(c: Config, s: State) returns (s': State)
    requires Reached(c, s) && s.con.IdleRq?
    ensures Reached(c, s') && OnlyNic(s, s') && s'.sq == s.sq && s'.cq == s.cq && s'.h == s.h
    ensures s'.con.IdleCq? && s'.regs == s.regs && s'.rq.pending == 0 && s'.rq.arrivals == s.rq.arrivals
  {
    hide Inv, Reached, Run;
    ReachedInv(c, s);
    InvShape(c, s);
    s' := Take(c, s, IdleFlushRq);
  }

  lemma DoIdleFlushCq(c: Config, s: State) returns (s': State)
    requires Reached(c, s) && s.con.IdleCq?
    ensures Reached(c, s') && OnlyNic(s, s') && s'.sq == s.sq && s'.rq == s.rq && s'.h == s.h
    ensures s'.con.IdleChk? && s'.regs == s.regs && s'.cq.ci == s.cq.ci && s'.cq.log == s.cq.log
  {
    hide Inv, Reached, Run;
    ReachedInv(c, s);
    InvShape(c, s);
    s' := Take(c, s, IdleFlushCq);
  }

  lemma DoIdleCheck(c: Config, s: State) returns (s': State)
    requires Reached(c, s) && s.con.IdleChk? && s.regs.doneCnt < c.njobs
    ensures Reached(c, s') && OnlyNic(s, s') && s'.sq == s.sq && s'.cq == s.cq && s'.rq == s.rq && s'.h == s.h
    ensures s'.con.Top?
  {
    hide Inv, Reached, Run;
    ReachedInv(c, s);
    InvShape(c, s);
    s' := Take(c, s, IdleCheck);
  }

  /** With jobs outstanding an idle turn gives every recv back. */
  lemma IdleRound(c: Config, s: State, m: nat) returns (s': State)
    requires Reached(c, s) && Calm(c, s, m, s.rq.pending) && m < c.njobs
    ensures Reached(c, s') && Calm(c, s', m, 0) && s'.h.sentAt == s.h.sentAt
  {
    hide Reached;
    s' := DoIdlePoll(c, s);
    s' := DoIdleFlushRq(c, s');
    s' := DoIdleFlushCq(c, s');
    s' := DoIdleCheck(c, s');
  }

  // ---- SEND CQEs held back ----

  /** k commands come and go, each answered, none of their SEND CQEs written. */
  lemma {:induction false} HeldRounds(c: Config, s: State, k: nat) returns (s': State)
    requires Reached(c, s) && Calm(c, s, 0, 0) && s.h.sentAt == map[]
    requires 0 < c.qd && !c.ordered && 0 < |c.rg.first| && k <= c.njobs
    ensures Reached(c, s') && Calm(c, s', k, s'.rq.pending) && s'.h.sentAt == map[]
  {
    hide Reached;
    if k == 0 {
      s' := s;
    } else {
      var s1 := HeldRounds(c, s, k - 1);
      var s2 := IdleRound(c, s1, k - 1);
      var s3 := HalfRound(c, s2, k - 1, 0, true);
      s' := GiveBack(c, s3);
    }
  }

  /** A SEND CQE the NIC has still to write: of a finished, signalled command. */
  predicate DueSent(c: Config, s: State, n: nat) { n < s.sq.retired && c.Signals(n) && n !in s.h.sentAt }

  /** A response CQE the NIC has still to write. */
  predicate DueAnswer(c: Config, s: State, n: nat) { n < s.sq.retired && n !in s.h.respAt }

  /** No SEND CQE was written for command n or a later one. */
  ghost predicate NoneSent(s: State, n: nat) { forall m :: m in s.h.sentAt ==> m < n }

  lemma RoomMeans(c: Config, s: State)
    requires Inv(c, s)
    ensures s.cq.Room(c.cg) <==> |s.cq.log| < s.cq.shown + c.cg.cnt - c.cg.ci0
    ensures c.cg.ci0 <= s.cq.shown && 0 <= |s.cq.log| - (s.cq.shown - c.cg.ci0) <= c.cg.cnt
  {
    CQ.RoomExact(c.cg, s.cq);
  }

  lemma DoPile(c: Config, s: State, n: nat) returns (s': State)
    requires Reached(c, s) && DueSent(c, s, n) && NoneSent(s, n) && s.cq.Room(c.cg)
    ensures Reached(c, s') && NoneSent(s', n + 1) && s'.sq == s.sq
    ensures s'.cq.shown == s.cq.shown && |s'.cq.log| == |s.cq.log| + 1
  {
    hide Inv, Reached, Run, CQ.Cq.Room, Config.Signals;
    ReachedInv(c, s);
    InvShape(c, s);
    s' := Take(c, s, SendCqe(n));
  }

  lemma {:induction false} AskedGrows(c: Config, n: nat, m: nat)
    requires n <= m
    ensures Asked(c, n) <= Asked(c, m) <= Asked(c, n) + (m - n)
  {
    hide Config.Signals;
    if n < m {
      AskedGrows(c, n, m - 1);
    }
  }

  /** With the consumer at rest the NIC writes SEND CQEs until its own test finds no room. */
  lemma {:induction false} PileUp(c: Config, s: State, n: nat) returns (s': State, n': nat)
    requires Reached(c, s) && NoneSent(s, n) && n <= s.sq.retired
    requires Asked(c, n) + (s.cq.shown - c.cg.ci0) + c.cg.cnt - |s.cq.log| < Asked(c, s.sq.retired)
    ensures Reached(c, s') && !s'.cq.Room(c.cg) && DueSent(c, s', n')
    decreases s.sq.retired - n
  {
    hide Reached, Inv, CQ.Cq.Room, Config.Signals;
    ReachedInv(c, s);
    RoomMeans(c, s);
    AskedGrows(c, n, s.sq.retired);
    assert Asked(c, n + 1) == Asked(c, n) + if c.Signals(n) then 1 else 0;
    if !c.Signals(n) {
      s', n' := PileUp(c, s, n + 1);
    } else if s.cq.Room(c.cg) {
      var s1 := DoPile(c, s, n);
      s', n' := PileUp(c, s1, n + 1);
    } else {
      s', n' := s, n;
    }
  }

  /**
   * Whatever QD is: if SEND CQEs may come after the responses of their commands, and the run's
   * signalled commands outnumber the entries, some run comes to a SEND CQE that is due and has
   * no room in the CQ.
   */
  lemma OverflowsUnordered(c: Config)
    requires c.Valid() && !c.ordered && c.cg.cnt < Asked(c, c.njobs)
    ensures exists ss: seq<State>, acts: seq<Act>, n: nat ::
              Run(c, ss, acts) && |ss| == |acts| + 1 && DueSent(c, ss[|acts|], n) && !ss[|acts|].cq.Room(c.cg)
  {
    hide Init, Inv, CQ.Cq.Room, Asked;
    LaunchCalm(c);
    var s := HeldRounds(c, Launch(c), c.njobs);
    ReachedInv(c, s);
    RoomMeans(c, s);
    assert Asked(c, 0) == 0 by { AskedGrows(c, 0, 0); AskedNone(c); }
    var s', n := PileUp(c, s, 0);
    var ss, acts :| Ends(c, ss, acts, s');
  }

  lemma AskedNone(c: Config)
    ensures Asked(c, 0) == 0
  {}

  // ---- where no order is needed ----

  ghost function RespPlaces(log: seq<CQ.Event>, j: nat): set<nat>
    requires j <= |log|
  {
    set p: nat | p < j && log[p].Answered?
  }

  lemma {:induction false} RespPlacesSize(log: seq<CQ.Event>, j: nat)
    requires j <= |log|
    ensures |RespPlaces(log, j)| == Resps(log, j)
  {
    if j > 0 {
      RespPlacesSize(log, j - 1);
      assert RespPlaces(log, j) == RespPlaces(log, j - 1) + if log[j - 1].Answered? then {j - 1} else {};
    }
  }

  /** The responses written are as many as the commands they were written for. */
  lemma AnswerMatch(c: Config, s: State)
    requires Inv(c, s)
    ensures |s.h.respAt| == Resps(s.cq.log, |s.cq.log|) == |s.rq.arrivals|
    ensures s.h.respAt.Keys <= Range(|s.h.cmds|)
  {
    hide SQ.Good, CQ.Good, RQ.Good, CmdsInv, LockInv, CapsInv, ConInv, NamedInv, PubInv, RegsInv,
         LastInv, TagInv, JobInv, CmdJobs, ExitInv, StatInv, CountInv, PendInv, JobsInRange, Config.Signals;
    forall p | 0 <= p < |s.cq.log|
      ensures s.cq.log[p].Answered? ==> s.cq.log[p].n in s.h.respAt && s.h.respAt[s.cq.log[p].n] == p
      ensures s.cq.log[p].n < |s.h.cmds|
    {
      assert EventInv(c, s.cq.log, s.h.respAt, s.h.sentAt, s.h.cmds, s.sq.retired, s.rq.arrivals, p);
    }
    forall p | p in RespPlaces(s.cq.log, |s.cq.log|)
      ensures p in s.h.respAt.Values
    {
      assert s.h.respAt[s.cq.log[p].n] == p;
    }
    assert s.h.respAt.Values == RespPlaces(s.cq.log, |s.cq.log|);
    SameSize(s.h.respAt.Keys, RespPlaces(s.cq.log, |s.cq.log|), s.h.respAt);
    RespPlacesSize(s.cq.log, |s.cq.log|);
  }

  /** A CQE is due: at most all others of the run are in the log, and few of them unread. */
  lemma DueLeaves(c: Config, s: State, n: nat)
    requires Inv(c, s) && (DueSent(c, s, n) || DueAnswer(c, s, n))
    ensures |s.h.sentAt| <= Asked(c, c.njobs) && |s.h.respAt| <= |s.h.cmds| <= c.njobs
    ensures |s.h.sentAt| < Asked(c, c.njobs) || |s.h.respAt| < |s.h.cmds|
  {
    hide Inv, Asked, Config.Signals, AskedSet;
    CmdsWithinJobs(c, s);
    SentMatch(c, s);
    AnswerMatch(c, s);
    RetiredCmds(c, s);
    AskedSize(c, |s.h.cmds|);
    AskedGrows(c, |s.h.cmds|, c.njobs);
    RangeSize(|s.h.cmds|);
    SubsetSize(s.h.sentAt.Keys, AskedSet(c, |s.h.cmds|));
    SubsetSize(s.h.respAt.Keys, Range(|s.h.cmds|));
    if DueSent(c, s, n) {
      InAskedSet(c, n, |s.h.cmds|);
      SubsetSize(s.h.sentAt.Keys, AskedSet(c, |s.h.cmds|) - {n});
    } else {
      SubsetSize(s.h.respAt.Keys, Range(|s.h.cmds|) - {n});
    }
  }

  lemma InAskedSet(c: Config, n: nat, m: nat)
    requires n < m && c.Signals(n)
    ensures n in AskedSet(c, m)
  {}

  lemma RetiredCmds(c: Config, s: State)
    requires Inv(c, s)
    ensures s.sq.retired <= |s.h.cmds|
  {
    hide SQ.Good, CQ.Good, RQ.Good, CmdsInv, LockInv, CapsInv, ConInv, NamedInv, PubInv, RegsInv,
         LastInv, TagInv, JobInv, CmdJobs, ExitInv, StatInv, CountInv, PendInv, JobsInRange;
  }

  /** Responses not yet published are at most as many as tags. */
  lemma UnreadAnswers(c: Config, s: State)
    requires Inv(c, s)
    ensures |s.h.cmds| - Resps(s.cq.log, Here(c, s) + PubStep(s.con)) <= c.qd
    ensures 0 <= Here(c, s) && Here(c, s) + PubStep(s.con) <= |s.cq.log|
  {
    hide SQ.Good, CQ.Good, RQ.Good, CmdsInv, LogInv, LockInv, CapsInv, ConInv, NamedInv, RegsInv, LastInv,
         TagInv, CmdJobs, ExitInv, StatInv, PendInv, JobsInRange;
    ConsumerPlace(c, s);
    OutSize(c, s.h.last, s.h.pub);
    LastLength(c, s);
  }

  lemma LastLength(c: Config, s: State)
    requires Inv(c, s)
    ensures |s.h.last| == c.qd
  {
    hide SQ.Good, CQ.Good, RQ.Good, CmdsInv, LogInv, LockInv, CapsInv, ConInv, NamedInv, PubInv, RegsInv, LastInv,
         TagInv, CmdJobs, ExitInv, StatInv, CountInv, PendInv, JobsInRange;
  }

  /** With this bound the CQ holds whatever a run can leave in it, in any order. */
  predicate EnoughEntries(c: Config) {
    Asked(c, c.njobs) + (if c.njobs < c.qd + CQ.CQ_BATCH then c.njobs else c.qd + CQ.CQ_BATCH) <= c.cg.cnt
  }

  /** SEND CQEs first or not: a CQE that is due has room if the signalled commands are few enough. */
  lemma RoomUnordered(c: Config, ss: seq<State>, acts: seq<Act>, i: nat, n: nat)
    requires Run(c, ss, acts) && i < |ss| && EnoughEntries(c)
    requires DueSent(c, ss[i], n) || DueAnswer(c, ss[i], n)
    ensures ss[i].cq.Room(c.cg)
  {
    hide Run, Inv, Asked, DueSent, DueAnswer, Resps, CQ.Cq.Room;
    var s := ss[i];
    RunKeeps(c, ss, acts, i);
    DueLeaves(c, s, n);
    SentMatch(c, s);
    AnswerMatch(c, s);
    RoomMeans(c, s);
    UnreadAnswers(c, s);
    ShownBatch(c, s);
    RespsMonotone(s.cq.log, Here(c, s) + PubStep(s.con), |s.cq.log|);
    UnreadSplit(s.cq.log, Here(c, s) + PubStep(s.con));
  }

  lemma ShownBatch(c: Config, s: State)
    requires Inv(c, s)
    ensures s.cq.ci - s.cq.shown < CQ.CQ_BATCH
  {
    hide SQ.Good, RQ.Good, CmdsInv, LogInv, LockInv, CapsInv, ConInv, NamedInv, PubInv, RegsInv, LastInv,
         TagInv, JobInv, CmdJobs, ExitInv, StatInv, CountInv, PendInv, JobsInRange;
    CqCounters(c, s);
  }

  /** CQEs from place j on are responses or SEND CQEs, and no more of these than there are at all. */
  lemma UnreadSplit(log: seq<CQ.Event>, j: nat)
    requires j <= |log|
    ensures |log| - j <= Resps(log, |log|) - Resps(log, j) + (|log| - Resps(log, |log|))
  {
    RespsMonotone(log, 0, j);
  }

  // ---- the bound is reached ----

  lemma DoFill(c: Config, s: State, n: nat) returns (s': State)
    requires Reached(c, s) && DueSent(c, s, n) && c.ordered && CqClamp(c)
    ensures Reached(c, s') && s'.sq == s.sq && s'.con == s.con && s'.h.cmds == s.h.cmds && s'.rq == s.rq
    ensures s'.h.sentAt == s.h.sentAt[n := |s.cq.log|] && s'.h.respAt == s.h.respAt
    ensures s'.cq.ci == s.cq.ci && s'.cq.shown == s.cq.shown && |s'.cq.log| == |s.cq.log| + 1
  {
    hide Inv, Reached, Run, CQ.Cq.Room, Config.Signals;
    ReachedInv(c, s);
    InvShape(c, s);
    BacklogBound(c, s);
    s' := Take(c, s, SendCqe(n));
  }

  lemma DoFillAnswer(c: Config, s: State, n: nat) returns (s': State)
    requires Reached(c, s) && DueAnswer(c, s, n) && n < |s.sq.wire| && n in s.h.sentAt
    requires c.ordered && CqClamp(c) && RqClamp(c) && |s.rq.arrivals| < |s.h.cmds|
    ensures Reached(c, s') && s'.sq == s.sq && s'.con == s.con && s'.h.cmds == s.h.cmds
    ensures |s'.rq.arrivals| == |s.rq.arrivals| + 1 && s'.h.sentAt == s.h.sentAt
    ensures s'.h.respAt.Keys == s.h.respAt.Keys + {n}
    ensures s'.cq.ci == s.cq.ci && s'.cq.shown == s.cq.shown && |s'.cq.log| == |s.cq.log| + 1
  {
    hide Inv, Reached, Run, CQ.Cq.Room, RQ.Rq.CanTake, Config.Signals;
    ReachedInv(c, s);
    InvShape(c, s);
    BacklogBound(c, s);
    OwedVisible(c, s);
    s' := Take(c, s, Answer(n, 0, true));
  }

  /** Commands n and up are all retired and nothing is heard of them. */
  ghost predicate Silent(s: State, n: nat) {
    && n == |s.rq.arrivals| <= |s.h.cmds| == s.sq.retired == |s.sq.wire|
    && forall m :: m in s.h.sentAt || m in s.h.respAt ==> m < n
  }

  /** While the consumer stands still, both CQEs of every remaining command arrive. */
  lemma {:induction false} Flood(c: Config, s: State, n: nat) returns (s': State)
    requires Reached(c, s) && Silent(s, n) && c.ordered && !c.selective && CqClamp(c) && RqClamp(c)
    ensures Reached(c, s') && s'.con == s.con && s'.cq.ci == s.cq.ci && s'.cq.shown == s.cq.shown
    ensures |s'.cq.log| == |s.cq.log| + 2 * (|s.h.cmds| - n)
    decreases |s.h.cmds| - n
  {
    hide Reached;
    if n == |s.h.cmds| {
      s' := s;
    } else {
      AllSignalled(c, n);
      hide Config.Signals;
      var s1 := DoFill(c, s, n);
      var s2 := DoFillAnswer(c, s1, n);
      s' := Flood(c, s2, n + 1);
    }
  }

  /** Every exposed command is fetched, sent and done with. */
  lemma {:induction false} CarryAll(c: Config, s: State) returns (s': State)
    requires Reached(c, s)
    ensures Reached(c, s') && OnlyNic(s, s') && SameCq(s, s')
    ensures |s'.sq.fetched| == |s'.sq.wire| == s'.sq.retired == |s'.h.cmds|
    decreases 3 * |s.h.cmds| - |s.sq.fetched| - |s.sq.wire| - s.sq.retired
  {
    hide Reached, Inv;
    ReachedInv(c, s);
    Places(c, s);
    if |s.sq.fetched| < |s.h.cmds| {
      var s1 := DoFetch(c, s);
      ReachedInv(c, s1);
      Places(c, s1);
      s' := CarryAll(c, s1);
    } else if |s.sq.wire| < |s.sq.fetched| {
      var s1 := DoSend(c, s);
      ReachedInv(c, s1);
      Places(c, s1);
      s' := CarryAll(c, s1);
    } else if s.sq.retired < |s.sq.wire| {
      var s1 := DoRetire(c, s);
      s' := CarryAll(c, s1);
    } else {
      s' := s;
    }
  }

  lemma Places(c: Config, s: State)
    requires Inv(c, s)
    ensures s.sq.retired <= |s.sq.wire| <= |s.sq.fetched| <= |s.h.cmds|
  {
    hide CQ.Good, RQ.Good, LogInv, LockInv, CapsInv, ConInv, NamedInv, PubInv, RegsInv,
         LastInv, TagInv, JobInv, CmdJobs, ExitInv, StatInv, CountInv, PendInv, JobsInRange;
    Progress.QueuePlaces(c, s);
  }

  /** What is known of commands is known of retired ones. */
  lemma HeardRetired(c: Config, s: State)
    requires Inv(c, s)
    ensures forall m :: m in s.h.sentAt || m in s.h.respAt ==> m < s.sq.retired
  {
    hide SQ.Good, RQ.Good, CQ.Good, CmdsInv, EventInv, LockInv, CapsInv, ConInv, NamedInv, PubInv, RegsInv, TagInv,
         LastInv, JobInv, CmdJobs, ExitInv, StatInv, CountInv, PendInv, JobsInRange;
    EventsRetired(c, s);
  }

  /** Commands before the one whose response is the last CQE of a batch. */
  function Before(c: Config): nat { 16 + (30 - c.cg.ci0 % 32) / 2 }

  lemma BatchEnd(c: Config)
    requires c.cg.ci0 % 2 == 0
    ensures Before(c) <= 31 && (c.cg.ci0 + 2 * Before(c)) % 32 == 30
    ensures c.cg.ci0 / 32 < (c.cg.ci0 + 2 * Before(c)) / 32
  {
    var q, r := c.cg.ci0 / 32, c.cg.ci0 % 32;
    assert c.cg.ci0 == 32 * q + r && r % 2 == 0;
    assert 2 * ((30 - r) / 2) == 30 - r;
    DivModUnique(c.cg.ci0 + 2 * Before(c), 32, q + 1, 30);
  }

  /** A lazily written counter past its first batch stands at the start of the present one. */
  lemma LazyPlace(c: Config, s: State)
    requires Inv(c, s) && Lazy(c, s) && c.cg.ci0 / 32 < s.cq.ci / 32 && s.cq.ci % 32 == 31
    ensures s.cq.shown == s.cq.ci - 31
  {
    hide SQ.Good, RQ.Good, CmdsInv, LogInv, LockInv, CapsInv, ConInv, NamedInv, PubInv, RegsInv, TagInv,
         LastInv, JobInv, CmdJobs, ExitInv, StatInv, CountInv, PendInv, JobsInRange;
  }

  /** The bound on the backlog is reached: it cannot be lowered. */
  lemma BoundReached(c: Config)
    requires c.Valid() && c.ordered && !c.selective && RqClamp(c) && CqClamp(c)
    requires c.cg.ci0 % 2 == 0 && 32 + c.qd <= c.njobs
    ensures exists ss: seq<State>, acts: seq<Act> ::
              Run(c, ss, acts) && |ss| == |acts| + 1 && Backlog(c, ss[|acts|]) == 2 * c.qd + 32
  {
    hide Init, Inv, Backlog, Before, Config.Signals;
    LaunchCalm(c);
    BatchEnd(c);
    var s' := Brim(c, Launch(c));
    var ss, acts :| Ends(c, ss, acts, s');
  }

  lemma Brim(c: Config, s: State) returns (s': State)
    requires Reached(c, s) && Calm(c, s, 0, 0) && s.cq.log == [] && Lazy(c, s)
    requires c.Valid() && c.ordered && !c.selective && RqClamp(c) && CqClamp(c)
    requires c.cg.ci0 % 2 == 0 && 32 + c.qd <= c.njobs
    ensures Reached(c, s') && Backlog(c, s') == 2 * c.qd + CQ.CQ_BATCH
  {
    hide Reached, Inv, Backlog, Before, Config.Signals, Lazy;
    BatchEnd(c);
    var k := Before(c);
    var s1 := Rounds(c, s, k);
    AllSignalled(c, k);
    var s2 := HalfRound(c, s1, k, k % RQ.RQ_BATCH, false);
    ReachedInv(c, s2);
    LazyPlace(c, s2);
    HeardRetired(c, s2);
    var s3 := PostUpTo(c, s2, 0, k + 1 + c.qd);
    s' := Overrun(c, s2, s3, k + 1);
    ReachedInv(c, s');
    Counters(c, s');
  }

  lemma Overrun(c: Config, s2: State, s3: State, n: nat) returns (s': State)
    requires Reached(c, s3) && s3.cq == s2.cq && s3.rq == s2.rq && s3.h.sentAt == s2.h.sentAt
    requires s3.h.respAt == s2.h.respAt && |s3.h.cmds| == n + c.qd && |s2.rq.arrivals| == n
    requires forall m :: m in s2.h.sentAt || m in s2.h.respAt ==> m < n
    requires c.ordered && !c.selective && CqClamp(c) && RqClamp(c)
    ensures Reached(c, s') && s'.cq.shown == s2.cq.shown && |s'.cq.log| == |s2.cq.log| + 2 * c.qd
  {
    hide Reached;
    var s4 := CarryAll(c, s3);
    s' := Flood(c, s4, n);
  }

  lemma Counters(c: Config, s: State)
    requires Inv(c, s)
    ensures Backlog(c, s) == c.cg.ci0 + |s.cq.log| - s.cq.shown
  {
    hide SQ.Good, RQ.Good, CmdsInv, LogInv, LockInv, CapsInv, ConInv, NamedInv, PubInv, RegsInv, LastInv,
         TagInv, JobInv, CmdJobs, ExitInv, StatInv, CountInv, PendInv, JobsInRange;
    CqCounters(c, s);
  }
}
