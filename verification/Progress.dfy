/** Runs with an answering NIC finish: no reachable state is stuck, and work only shrinks. */
module Progress {
  import opened Arith
  import opened Protocol
  import opened Invariant
  import opened Runs
  import opened Safety
  import Audit
  import SubmitterSteps
  import ConsumerSteps
  import SQ = SendQueue
  import CQ = CompletionQueue
  import RQ = RecvQueue

  // ---- the ranking ----

  /** Steps a submitter still owes its present job. */
  function Weight(u: Sub): nat {
    match u
    case Claimed(_) => 13
    case Filled(_) => 12
    case Marked(_) => 11
    case Locked(_) => 10
    case Based(_, _) => 9
    case Half(_, _) => 8
    case Full(_, _) => 7
    case Rung(_, _) => 6
    case Stored(_) => 5
    case Waiting(_) => 4
    case Seen(_) => 3
    case Noted(_) => 2
    case Lost(_) => 1
    case Ready => 1
    case Exited => 0
  }

  function Weights(sub: seq<Sub>): nat {
    if sub == [] then 0 else Weights(sub[..|sub| - 1]) + Weight(sub[|sub| - 1])
  }

  lemma {:induction false} WeightsUpdate(sub: seq<Sub>, t: nat, u: Sub)
    requires t < |sub|
    ensures Weights(sub[t := u]) == Weights(sub) - Weight(sub[t]) + Weight(u)
  {
    var l := |sub| - 1;
    if t < l {
      WeightsUpdate(sub[..l], t, u);
      assert sub[t := u][..l] == sub[..l][t := u];
    } else {
      assert sub[t := u][..l] == sub[..l];
    }
  }

  /** Steps the consumer still owes the CQE at hand, or, once all jobs are done, its way out. */
  function Stage(con: Con, done: bool): nat {
    match con
    case Top => 12
    case IdleRq => if done then 11 else 12
    case IdleCq => if done then 10 else 12
    case IdleChk => if done then 9 else 12
    case Got(_, _, _) => 8
    case Have(_, _) => 7
    case Named(_, _, _) => 6
    case Repost(_) => 5
    case Shadowing(_) => 4
    case Flushing => 3
    case Adv => 2
    case StopRq => 2
    case StopCq => 1
    case Halted => 0
  }

  predicate AllDone(c: Config, s: State) { s.regs.doneCnt >= c.njobs }

  /** Unclaimed jobs, stages of claimed ones, NIC work not done and CQEs not consumed. */
  function Rank(c: Config, s: State): int {
    Weights(s.sub) + 13 * (c.njobs - s.nextJob)
    + (c.njobs - |s.sq.fetched|) + (c.njobs - |s.sq.wire|) + (c.njobs - s.sq.retired)
    + (c.njobs - |s.h.sentAt|) + (c.njobs - |s.h.respAt|)
    + 11 * (2 * c.njobs - Here(c, s)) + Stage(s.con, AllDone(c, s))
  }

  predicate InIdleTurn(con: Con) { con.IdleRq? || con.IdleCq? || con.IdleChk? }

  /** A turn of flushes with jobs outstanding is idling; so is a timeout's abort. */
  predicate Idling(c: Config, s: State, a: Act)
    requires Shape(c, s)
  {
    a.RaiseAbort? || IdleTurn(c, s, a)
  }

  predicate IdleTurn(c: Config, s: State, a: Act)
    requires Shape(c, s)
  {
    && !AllDone(c, s)
    && ((a.Poll? && !s.cq.Fresh(c.cg)) || a.EndStep? || a.IdleFlushRq? || a.IdleFlushCq? || a.IdleCheck?)
  }

  lemma RankBounded(c: Config, s: State)
    requires Inv(c, s)
    ensures 0 <= Rank(c, s)
  {
    hide SQ.Good, CQ.Good, RQ.Good, CmdsInv, LogInv, LockInv, CapsInv, ConInv, NamedInv, PubInv,
         RegsInv, LastInv, TagInv, JobInv, CmdJobs, ExitInv, StatInv, CountInv, PendInv, JobsInRange;
    Audit.CmdsAtMostJobs(c, s);
    LogBounded(c, s);
    QueuePlaces(c, s);
    KeysBounded(c, s);
    NextJobBound(c, s);
    ConsumerSteps.CqPlace(c, s);
  }

  lemma NextJobBound(c: Config, s: State)
    requires JobInv(c, s.nextJob, s.sub, s.h.owner, s.h.recs, s.h.cmds)
    ensures s.nextJob <= c.njobs
  {}

  lemma QueuePlaces(c: Config, s: State)
    requires SQ.Good(c.sg, s.sq, s.caps) && CmdsInv(c, s.sq.posted, s.h.cmds)
    ensures s.sq.retired <= |s.sq.wire| <= |s.sq.fetched| <= |s.h.cmds| == |s.sq.posted|
  {}

  lemma KeysBounded(c: Config, s: State)
    requires LogInv(c, s.cq.log, s.h.respAt, s.h.sentAt, s.h.cmds, s.sq.retired, s.rq.arrivals)
    ensures |s.h.sentAt| <= |s.h.cmds| && |s.h.respAt| <= |s.h.cmds|
  {
    forall n | n in s.h.sentAt
      ensures n < |s.h.cmds|
    {
      assert EventInv(c, s.cq.log, s.h.respAt, s.h.sentAt, s.h.cmds, s.sq.retired, s.rq.arrivals, s.h.sentAt[n]);
    }
    forall n | n in s.h.respAt
      ensures n < |s.h.cmds|
    {
      assert EventInv(c, s.cq.log, s.h.respAt, s.h.sentAt, s.h.cmds, s.sq.retired, s.rq.arrivals, s.h.respAt[n]);
    }
    RangeSize(|s.h.cmds|);
    SubsetSize(s.h.sentAt.Keys, Range(|s.h.cmds|));
    SubsetSize(s.h.respAt.Keys, Range(|s.h.cmds|));
  }

  /** At most two CQEs per command. */
  lemma LogBounded(c: Config, s: State)
    requires Inv(c, s)
    ensures |s.cq.log| <= 2 * |s.h.cmds| <= 2 * c.njobs
  {
    hide SQ.Good, CQ.Good, RQ.Good, CmdsInv, LogInv, LockInv, CapsInv, ConInv, NamedInv, PubInv,
         RegsInv, LastInv, TagInv, JobInv, CmdJobs, ExitInv, StatInv, CountInv, PendInv, JobsInRange;
    Audit.CmdsAtMostJobs(c, s);
    EventsInRange(c, s);
    var codes := seq(|s.cq.log|, p requires 0 <= p < |s.cq.log| =>
                       2 * s.cq.log[p].n + if s.cq.log[p].Answered? then 1 else 0);
    forall p, q | 0 <= p < q < |codes|
      ensures codes[p] != codes[q]
    {
      EventsDiffer(c, s, p, q);
    }
    Pigeonhole(codes, 2 * |s.h.cmds|);
  }

  lemma EventsDiffer(c: Config, s: State, p: nat, q: nat)
    requires LogInv(c, s.cq.log, s.h.respAt, s.h.sentAt, s.h.cmds, s.sq.retired, s.rq.arrivals)
    requires p < q < |s.cq.log|
    ensures s.cq.log[p].n != s.cq.log[q].n || s.cq.log[p].Answered? != s.cq.log[q].Answered?
  {
    assert EventInv(c, s.cq.log, s.h.respAt, s.h.sentAt, s.h.cmds, s.sq.retired, s.rq.arrivals, p);
    assert EventInv(c, s.cq.log, s.h.respAt, s.h.sentAt, s.h.cmds, s.sq.retired, s.rq.arrivals, q);
  }

  /** Every step but idling lowers the rank, and idling leaves it where it is. */
  lemma StepShrinks(c: Config, s: State, a: Act)
    requires Inv(c, s) && Enabled(c, s, a)
    ensures if Idling(c, s, a) then Rank(c, Next(c, s, a)) == Rank(c, s) else Rank(c, Next(c, s, a)) < Rank(c, s)
  {
    InvShape(c, s);
    hide Inv, Rank;
    if SubEnabled(c, s, a) {
      SubShrinks(c, s, a);
    } else if ConEnabled(c, s, a) {
      ConShrinks(c, s, a);
    } else if NicEnabled(c, s, a) {
      NicShrinks(c, s, a);
    } else {
      AbortKeeps(c, s);
    }
  }

  lemma AbortKeeps(c: Config, s: State)
    ensures Rank(c, s.(abort := true)) == Rank(c, s)
  {}

  lemma SubShrinks(c: Config, s: State, a: Act)
    requires Shape(c, s) && SubEnabled(c, s, a)
    ensures !Idling(c, s, a) && Rank(c, SubNext(c, s, a)) < Rank(c, s)
  {
    hide Weights;
    SubMoves(c, s, a);
    SubLeaves(c, s, a);
    hide SubNext;
    WeightsUpdate(s.sub, a.t, SubNext(c, s, a).sub[a.t]);
  }

  lemma SubMoves(c: Config, s: State, a: Act)
    requires Shape(c, s) && SubEnabled(c, s, a)
    ensures a.t < |s.sub|
    ensures var s' := SubNext(c, s, a);
      && a.t < |s'.sub| && s'.sub == s.sub[a.t := s'.sub[a.t]]
      && Weight(s'.sub[a.t]) < Weight(s.sub[a.t]) + 13 * (s'.nextJob - s.nextJob)
  {
    hide JobsInRange, SQ.SqGeo.Valid, CQ.CqGeo.Valid, RQ.Geo.Valid, PayloadOf, PostOf, CapsuleOf;
  }

  lemma SubLeaves(c: Config, s: State, a: Act)
    requires Shape(c, s) && SubEnabled(c, s, a)
    ensures var s' := SubNext(c, s, a);
      && s'.sq.fetched == s.sq.fetched && s'.sq.wire == s.sq.wire && s'.sq.retired == s.sq.retired
      && s'.h.sentAt == s.h.sentAt && s'.h.respAt == s.h.respAt
      && s'.cq == s.cq && s'.con == s.con && s'.regs == s.regs && s'.abort == s.abort
  {
    hide Shape, PayloadOf, PostOf, CapsuleOf;
  }

  lemma ConShrinks(c: Config, s: State, a: Act)
    requires Shape(c, s) && ConEnabled(c, s, a)
    ensures var s' := ConNext(c, s, a);
      if Idling(c, s, a) then Rank(c, s') == Rank(c, s) else Rank(c, s') < Rank(c, s)
  {
    ConLeaves(c, s, a);
    ConStages(c, s, a);
    hide Weights, ConNext, Stage, AllDone, Idling;
  }

  lemma ConLeaves(c: Config, s: State, a: Act)
    requires Shape(c, s) && ConEnabled(c, s, a)
    ensures var s' := ConNext(c, s, a);
      && s'.sub == s.sub && s'.nextJob == s.nextJob && s'.sq == s.sq
      && s'.h.sentAt == s.h.sentAt && s'.h.respAt == s.h.respAt
      && s'.cq.ci == s.cq.ci + if a.Advance? then 1 else 0
  {
    CQ.ShapeKept(c.cg, s.cq);
  }

  lemma ConStages(c: Config, s: State, a: Act)
    requires Shape(c, s) && ConEnabled(c, s, a)
    ensures var before, after := Stage(s.con, AllDone(c, s)), Stage(ConNext(c, s, a).con, AllDone(c, ConNext(c, s, a)));
      if Idling(c, s, a) then after == before && !a.Advance?
      else if a.Advance? then after == before + 10
      else after < before
  {
    hide Shape, ResponseRead, PublishedHere, CQ.Cq.Fresh;
  }

  lemma NicShrinks(c: Config, s: State, a: Act)
    requires Shape(c, s) && NicEnabled(c, s, a)
    ensures !Idling(c, s, a) && Rank(c, NicNext(c, s, a)) < Rank(c, s)
  {
    hide Weights;
  }

  // ---- finitely much work ----

  /** Steps of the first i that were not idling. */
  ghost function Work(c: Config, ss: seq<State>, acts: seq<Act>, i: nat): nat
    requires Run(c, ss, acts) && i < |ss|
  {
    if i == 0 then 0
    else
      assert Step(c, ss[i - 1], acts[i - 1], ss[i]);
      Work(c, ss, acts, i - 1) + if Idling(c, ss[i - 1], acts[i - 1]) then 0 else 1
  }

  lemma {:induction false} WorkSpendsRank(c: Config, ss: seq<State>, acts: seq<Act>, i: nat)
    requires Run(c, ss, acts) && i < |ss|
    ensures Work(c, ss, acts, i) + Rank(c, ss[i]) <= Rank(c, ss[0])
  {
    hide Rank, Inv, Next, Shape;
    if i > 0 {
      WorkSpendsRank(c, ss, acts, i - 1);
      RunKeeps(c, ss, acts, i - 1);
      assert Step(c, ss[i - 1], acts[i - 1], ss[i]);
      StepShrinks(c, ss[i - 1], acts[i - 1]);
    }
  }

  lemma {:induction false} WeightsReady(sub: seq<Sub>)
    requires forall t :: 0 <= t < |sub| ==> sub[t].Ready?
    ensures Weights(sub) == |sub|
  {
    if sub != [] {
      WeightsReady(sub[..|sub| - 1]);
    }
  }

  /** However long a run is and whatever it does, it holds only so many steps that are not idling. */
  lemma WorkBounded(c: Config, ss: seq<State>, acts: seq<Act>, i: nat)
    requires Run(c, ss, acts) && i < |ss|
    ensures Work(c, ss, acts, i) <= 40 * c.njobs + c.qd + 12
  {
    hide Work, Inv;
    WorkSpendsRank(c, ss, acts, i);
    RunKeeps(c, ss, acts, i);
    RankBounded(c, ss[i]);
    RankAtLaunch(c, ss[0]);
  }

  lemma RankAtLaunch(c: Config, s: State)
    requires Init(c, s)
    ensures Rank(c, s) == 40 * c.njobs + c.qd + 12
  {
    WeightsReady(s.sub);
  }

  /** A step that is not idling can be taken. */
  predicate Busy(c: Config, s: State, a: Act)
    requires Shape(c, s)
  {
    Enabled(c, s, a) && !Idling(c, s, a)
  }

  // ---- no stuck state ----

  /** All jobs done, everybody out. */
  predicate Over(c: Config, s: State) {
    s.con.Halted? && forall t :: 0 <= t < |s.sub| ==> s.sub[t].Exited?
  }

  /** The consumer is in the rest of an idle turn with jobs outstanding. */
  predicate MidTurn(c: Config, s: State) { InIdleTurn(s.con) && !AllDone(c, s) }

  /**
   * Outside the rest of an idle turn a step that is not idling can be taken: the NIC is never
   * out of recvs or CQ room, the lock is released, no response is lost.
   */
  lemma BusyNow(c: Config, s: State)
    requires Inv(c, s) && Audit.Flushed(c, s) && !s.abort && !Over(c, s) && !MidTurn(c, s)
    requires c.ordered && RqClamp(c) && CqClamp(c)
    ensures Shape(c, s)
    ensures exists a :: Busy(c, s, a)
  {
    hide SQ.Good, CQ.Good, RQ.Good, CmdsInv, LogInv, LockInv, CapsInv, ConInv, NamedInv, PubInv,
         RegsInv, LastInv, TagInv, JobInv, CmdJobs, ExitInv, StatInv, CountInv, PendInv, JobsInRange;
    if !s.con.Top? && !s.con.Halted? {
      ConsumerMoves(c, s);
    } else if s.con.Top? && (s.cq.Fresh(c.cg) || AllDone(c, s)) {
      assert Busy(c, s, Poll);
    } else if t :| 0 <= t < c.qd && !s.sub[t].Waiting? && !s.sub[t].Exited? {
      SubmitterMoves(c, s, t);
    } else if t :| 0 <= t < c.qd && s.sub[t].Waiting? {
      AnswerComes(c, s, t);
    } else {
      TopAllExited(c, s);
    }
  }

  /** Steps of the run ss' beyond the first n: idle turns, and one last step that is work. */
  ghost predicate TurnThenWork(c: Config, ss': seq<State>, acts': seq<Act>, n: nat) {
    && Run(c, ss', acts') && n < |acts'| <= n + 4
    && (forall i :: n <= i < |acts'| ==> Shape(c, ss'[i]))
    && (forall i :: n <= i < |acts'| - 1 ==> IdleTurn(c, ss'[i], acts'[i]))
    && !Idling(c, ss'[|acts'| - 1], acts'[|acts'| - 1])
  }

  /**
   * Under the host's clamps and with SEND CQEs first, a run that is not over and has not been
   * aborted comes to a step that lowers the rank, now or after the rest of the idle turn.
   */
  lemma NeverStuck(c: Config, ss: seq<State>, acts: seq<Act>)
    requires Run(c, ss, acts) && !ss[|acts|].abort && !Over(c, ss[|acts|])
    requires c.ordered && RqClamp(c) && CqClamp(c)
    ensures exists ss': seq<State>, acts': seq<Act> ::
              && TurnThenWork(c, ss', acts', |acts|) && ss <= ss' && acts <= acts'
              && Rank(c, ss'[|acts'|]) < Rank(c, ss[|acts|]) && !ss'[|acts'|].abort
  {
    hide Inv, Run, Rank, Over;
    var ss', acts' := GoOn(c, ss, acts);
  }

  /** Turns left in an idle round. */
  function ToTop(con: Con): nat {
    match con
    case IdleRq => 3
    case IdleCq => 2
    case IdleChk => 1
    case _ => 0
  }

  lemma {:induction false} GoOn(c: Config, ss: seq<State>, acts: seq<Act>) returns (ss': seq<State>, acts': seq<Act>)
    requires Run(c, ss, acts) && !ss[|acts|].abort && !Over(c, ss[|acts|])
    requires c.ordered && RqClamp(c) && CqClamp(c)
    ensures TurnThenWork(c, ss', acts', |acts|) && ss <= ss' && acts <= acts'
    ensures |acts'| <= |acts| + ToTop(ss[|acts|].con) + 1
    ensures Rank(c, ss'[|acts'|]) < Rank(c, ss[|acts|]) && !ss'[|acts'|].abort
    decreases ToTop(ss[|acts|].con)
  {
    hide Inv, Rank, Over, Next, Shape, Enabled, Audit.Flushed, Init, Step;
    var s := ss[|acts|];
    RunKeeps(c, ss, acts, |acts|);
    InvShape(c, s);
    if MidTurn(c, s) {
      var a := TurnAct(s.con);
      TurnDoes(c, s);
      var t := RunOn(c, ss, acts, a);
      StepShrinks(c, s, a);
      ss', acts' := GoOn(c, ss + [t], acts + [a]);
    } else {
      Audit.FlushedAlways(c, ss, acts, |acts|);
      BusyNow(c, s);
      var a :| Busy(c, s, a);
      var t := RunOn(c, ss, acts, a);
      StepShrinks(c, s, a);
      AbortOnlyRaised(c, s, a);
      ss', acts' := ss + [t], acts + [a];
    }
  }

  function TurnAct(con: Con): Act
    requires InIdleTurn(con)
  {
    match con
    case IdleRq => IdleFlushRq
    case IdleCq => IdleFlushCq
    case IdleChk => IdleCheck
  }

  lemma TurnDoes(c: Config, s: State)
    requires Shape(c, s) && MidTurn(c, s)
    ensures Enabled(c, s, TurnAct(s.con)) && IdleTurn(c, s, TurnAct(s.con))
    ensures var s' := Next(c, s, TurnAct(s.con)); ToTop(s'.con) < ToTop(s.con) && s'.abort == s.abort && !Over(c, s')
  {}

  /** No other step aborts: no cid is ever refused. */
  lemma AbortOnlyRaised(c: Config, s: State, a: Act)
    requires Inv(c, s) && Enabled(c, s, a) && !a.RaiseAbort?
    ensures Next(c, s, a).abort == s.abort
  {
    hide Inv;
    InvShape(c, s);
    StepKeeps(c, s, a);
    NoneRefused(c, s);
    NoneRefused(c, Next(c, s, a));
    RefusedCounts(c, s, a);
  }

  lemma NoneRefused(c: Config, s: State)
    requires Inv(c, s)
    ensures s.regs.cidBad == 0
  {
    hide SQ.Good, CQ.Good, RQ.Good, CmdsInv, LogInv, LockInv, CapsInv, ConInv, NamedInv, PubInv,
         LastInv, TagInv, JobInv, CmdJobs, ExitInv, StatInv, CountInv, PendInv, JobsInRange;
  }

  lemma RefusedCounts(c: Config, s: State, a: Act)
    requires Shape(c, s) && Enabled(c, s, a) && !a.RaiseAbort?
    ensures Next(c, s, a).abort == s.abort || Next(c, s, a).regs.cidBad > s.regs.cidBad
  {
    hide SubNext, ConNext, NicNext, SubEnabled, ConEnabled, NicEnabled, JobsInRange;
    if SubEnabled(c, s, a) {
      SubLeaves(c, s, a);
    } else if ConEnabled(c, s, a) {
      ConRefuses(c, s, a);
    } else if NicEnabled(c, s, a) {
      NicLeaves(c, s, a);
    } else {
      NobodyElse(c, s, a);
    }
  }

  lemma ConRefuses(c: Config, s: State, a: Act)
    requires Shape(c, s) && ConEnabled(c, s, a)
    ensures ConNext(c, s, a).abort == s.abort || ConNext(c, s, a).regs.cidBad > s.regs.cidBad
  {
    hide Shape, ResponseRead, PublishedHere;
  }

  lemma NicLeaves(c: Config, s: State, a: Act)
    requires Shape(c, s) && NicEnabled(c, s, a)
    ensures NicNext(c, s, a).abort == s.abort
  {
    hide Shape;
  }

  lemma NobodyElse(c: Config, s: State, a: Act)
    requires Shape(c, s) && Enabled(c, s, a)
    ensures a.RaiseAbort? || SubEnabled(c, s, a) || ConEnabled(c, s, a) || NicEnabled(c, s, a)
  {
    hide SubEnabled, ConEnabled, NicEnabled;
  }

  // ---- every run can be finished ----

  /** A complete launch: all blocks out, all jobs counted and recorded once, nothing aborted. */
  predicate Complete(c: Config, s: State)
    requires |s.h.recs| == c.njobs
  {
    Audit.Finished(c, s) && s.regs.doneCnt == c.njobs && forall j :: 0 <= j < c.njobs ==> s.h.recs[j] == 1
  }

  /**
   * Wherever a run stands that nobody has aborted, steps of the blocks and of an answering NIC
   * bring it to its end with every job done.
   */
  lemma CanFinish(c: Config, ss: seq<State>, acts: seq<Act>)
    requires Run(c, ss, acts) && !ss[|acts|].abort
    requires c.ordered && RqClamp(c) && CqClamp(c)
    ensures exists ss': seq<State>, acts': seq<Act> ::
              && Run(c, ss', acts') && ss <= ss' && acts <= acts'
              && |ss'[|acts'|].h.recs| == c.njobs && Complete(c, ss'[|acts'|])
  {
    hide Inv, Run, Complete;
    var ss', acts' := Finish(c, ss, acts);
  }

  lemma {:induction false} Finish(c: Config, ss: seq<State>, acts: seq<Act>)
    returns (ss': seq<State>, acts': seq<Act>)
    requires Run(c, ss, acts) && !ss[|acts|].abort
    requires c.ordered && RqClamp(c) && CqClamp(c)
    ensures Run(c, ss', acts') && ss <= ss' && acts <= acts'
    ensures |ss'[|acts'|].h.recs| == c.njobs && Complete(c, ss'[|acts'|])
    decreases Rank(c, ss[|acts|])
  {
    hide Inv, Rank, Next, Shape, Enabled, Audit.Flushed, Init, Step, Complete, Over;
    RunKeeps(c, ss, acts, |acts|);
    RankBounded(c, ss[|acts|]);
    if Over(c, ss[|acts|]) {
      Audit.FlushedAlways(c, ss, acts, |acts|);
      OverComplete(c, ss[|acts|]);
      ss', acts' := ss, acts;
    } else {
      var ss1, acts1 := GoOn(c, ss, acts);
      ss', acts' := Finish(c, ss1, acts1);
    }
  }

  lemma OverComplete(c: Config, s: State)
    requires Inv(c, s) && Audit.Flushed(c, s) && Over(c, s) && !s.abort
    ensures |s.h.recs| == c.njobs && Complete(c, s)
  {
    hide Audit.Flushed;
    hide SQ.Good, CQ.Good, RQ.Good, CmdsInv, LogInv, LockInv, CapsInv, ConInv, NamedInv, PubInv, RegsInv,
         LastInv, TagInv, JobInv, CmdJobs, ExitInv, StatInv, CountInv, PendInv, JobsInRange;
    Audit.FinalCounts(c, s);
    forall j | 0 <= j < c.njobs
      ensures s.h.recs[j] == 1
    {
      Recorded(c, s, j);
    }
  }

  lemma ConsumerMoves(c: Config, s: State)
    requires Shape(c, s) && !s.con.Top? && !s.con.Halted? && !MidTurn(c, s)
    ensures exists a :: Busy(c, s, a)
  {
    var a := match s.con
      case Got(_, _, _) => Read
      case Have(_, _) => Name
      case Named(_, _, _) => Publish
      case Repost(_) => PutRing
      case Shadowing(_) => PutShadow
      case Flushing => FlushRq
      case Adv => Advance
      case IdleRq => IdleFlushRq
      case IdleCq => IdleFlushCq
      case IdleChk => IdleCheck
      case StopRq => StopFlushRq
      case _ => StopFlushCq;
    assert ConEnabled(c, s, a) && Busy(c, s, a);
  }

  lemma SubmitterMoves(c: Config, s: State, t: nat)
    requires Shape(c, s) && t < c.qd && !s.sub[t].Waiting? && !s.sub[t].Exited?
    requires LockInv(c, s.sub, s.holder, s.sqPi, |s.h.cmds|, s.sq.ring)
    ensures exists a :: Busy(c, s, a)
  {
    if s.sub[t].Marked? && s.holder != -1 {
      HolderMoves(c, s, s.holder);
    } else {
      var u := s.sub[t];
      var a := match u
        case Ready => if s.nextJob < c.njobs then Claim(t) else Quit(t)
        case Claimed(_) => Fill(t)
        case Filled(_) => Mark(t)
        case Marked(_) => Lock(t)
        case Noted(_) => Release(t)
        case Seen(_) => Note(t)
        case Lost(_) => Leave(t)
        case _ => HolderAct(u, t);
      assert SubEnabled(c, s, a) && Busy(c, s, a);
    }
  }

  function HolderAct(u: Sub, t: nat): Act {
    match u
    case Locked(_) => ReadPi(t)
    case Based(_, _) => WriteLo(t)
    case Half(_, _) => WriteHi(t)
    case Full(_, _) => Ring(t)
    case Rung(_, _) => StorePi(t)
    case _ => Unlock(t)
  }

  lemma HolderMoves(c: Config, s: State, t: nat)
    requires Shape(c, s) && t < c.qd && Holds(s.sub[t])
    ensures exists a :: Busy(c, s, a)
  {
    assert SubEnabled(c, s, HolderAct(s.sub[t], t)) && Busy(c, s, HolderAct(s.sub[t], t));
  }

  /** A waiting submitter's answer is on its tag, in the CQ, or the NIC can take it further. */
  lemma AnswerComes(c: Config, s: State, t: nat)
    requires Inv(c, s) && t < c.qd && s.sub[t].Waiting?
    requires (s.con.Top? && !s.cq.Fresh(c.cg)) || s.con.Halted?
    requires c.ordered && RqClamp(c) && CqClamp(c) && !s.abort && Audit.Flushed(c, s)
    ensures exists a :: Busy(c, s, a)
  {
    hide SQ.Good, CQ.Good, RQ.Good, CmdsInv, LogInv, LockInv, CapsInv, ConInv, NamedInv, PubInv,
         RegsInv, LastInv, TagInv, JobInv, CmdJobs, ExitInv, StatInv, CountInv, PendInv, JobsInRange;
    SubmitterSteps.TagAt(s, t);
    var n := s.h.last[t];
    if n in s.h.pub {
      assert SubEnabled(c, s, See(t)) && Busy(c, s, See(t));
    } else {
      QuietUnanswered(c, s, n);
      NicMoves(c, s, n);
    }
  }

  /** With nothing fresh in the CQ an unpublished command has no response CQE yet. */
  lemma QuietUnanswered(c: Config, s: State, n: nat)
    requires Inv(c, s) && n < |s.h.cmds| && n !in s.h.pub
    requires (s.con.Top? && !s.cq.Fresh(c.cg)) || (s.con.Halted? && !s.abort && Audit.Flushed(c, s))
    ensures n !in s.h.respAt && |s.rq.arrivals| < |s.h.cmds|
  {
    hide SQ.Good, CQ.Good, RQ.Good, CmdsInv, LockInv, CapsInv, ConInv, NamedInv, LastInv, TagInv,
         JobInv, CmdJobs, ExitInv, StatInv, PendInv, JobsInRange;
    if s.con.Halted? {
      Audit.CmdsAtMostJobs(c, s);
      assert |s.h.pub| == |s.h.cmds|;
      AllPublished(c, s, n);
    } else {
      CQ.FreshExact(c.cg, s.cq);
      CountStays(c, s, n);
    }
  }

  lemma AllPublished(c: Config, s: State, n: nat)
    requires Inv(c, s) && n < |s.h.cmds| && |s.h.pub| >= |s.h.cmds|
    ensures n in s.h.pub
  {
    hide SQ.Good, CQ.Good, RQ.Good, CmdsInv, LogInv, LockInv, CapsInv, ConInv, NamedInv, PubInv,
         RegsInv, LastInv, TagInv, JobInv, CmdJobs, ExitInv, StatInv, CountInv, PendInv, JobsInRange;
    SubmitterSteps.PublishedRetired(c, s);
    if n !in s.h.pub {
      RangeSize(|s.h.cmds|);
      SubsetSize(s.h.pub, Range(|s.h.cmds|) - {n});
    }
  }

  lemma CountStays(c: Config, s: State, n: nat)
    requires Inv(c, s) && n < |s.h.cmds| && n !in s.h.pub
    requires s.con.Top? && Here(c, s) == |s.cq.log|
    ensures n !in s.h.respAt && |s.rq.arrivals| < |s.h.cmds|
  {
    hide SQ.Good, CQ.Good, RQ.Good, CmdsInv, LockInv, CapsInv, ConInv, NamedInv, RegsInv, LastInv,
         TagInv, JobInv, CmdJobs, ExitInv, StatInv, CountInv, PendInv, JobsInRange;
    SubmitterSteps.PublishedRetired(c, s);
    RangeSize(|s.h.cmds|);
    SubsetSize(s.h.pub, Range(|s.h.cmds|) - {n});
  }

  lemma NicMoves(c: Config, s: State, n: nat)
    requires Inv(c, s) && n < |s.h.cmds| && n !in s.h.respAt && |s.rq.arrivals| < |s.h.cmds|
    requires c.ordered && RqClamp(c) && CqClamp(c)
    ensures exists a :: Busy(c, s, a)
  {
    hide SQ.Good, CQ.Good, RQ.Good, CmdsInv, LogInv, LockInv, CapsInv, ConInv, NamedInv, PubInv,
         RegsInv, LastInv, TagInv, JobInv, CmdJobs, ExitInv, StatInv, CountInv, PendInv, JobsInRange;
    QueuePlaces(c, s);
    if |s.sq.fetched| < |s.h.cmds| {
      SQ.CanFetchExact(c.sg, s.sq, s.caps);
      assert NicEnabled(c, s, Fetch) && Busy(c, s, Fetch);
    } else if |s.sq.wire| < |s.sq.fetched| {
      assert NicEnabled(c, s, Send) && Busy(c, s, Send);
    } else if s.sq.retired < |s.sq.wire| {
      assert NicEnabled(c, s, Retire) && Busy(c, s, Retire);
    } else {
      BacklogBound(c, s);
      OwedVisible(c, s);
      if c.Signals(n) && n !in s.h.sentAt {
        assert NicEnabled(c, s, SendCqe(n)) && Busy(c, s, SendCqe(n));
      } else {
        assert NicEnabled(c, s, Answer(n, 0, true)) && Busy(c, s, Answer(n, 0, true));
      }
    }
  }

  /** If all submitters left without abort, every job is done: the consumer is on its way out. */
  lemma TopAllExited(c: Config, s: State)
    requires Inv(c, s) && s.con.Top? && !s.abort
    requires forall t :: 0 <= t < c.qd ==> s.sub[t].Exited?
    ensures AllDone(c, s)
  {
    hide SQ.Good, CQ.Good, RQ.Good, CmdsInv, LogInv, LockInv, CapsInv, ConInv, NamedInv, LastInv,
         TagInv, CmdJobs, ExitInv, CountInv, PendInv, JobsInRange;
    forall j | 0 <= j < c.njobs
      ensures j in s.h.via && s.h.via[j] in s.h.pub && s.h.via[j] < |s.h.cmds| && s.h.cmds[s.h.via[j]].job == j
    {
      Recorded(c, s, j);
    }
    var via := seq(c.njobs, j requires 0 <= j < c.njobs => s.h.via[j]);
    forall j, k | 0 <= j < k < |via|
      ensures via[j] != via[k]
    {
      assert s.h.cmds[s.h.via[j]].job == j && s.h.cmds[s.h.via[k]].job == k;
    }
    var img := set j | 0 <= j < |via| :: via[j];
    SeqSetSize(via, img);
    SubsetSize<int>(img, s.h.pub);
  }
}
