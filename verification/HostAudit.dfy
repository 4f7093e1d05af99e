/**
 * The host's report on an error-free run, told from what it was launched with: the results it
 * counts over c_stat, and when its check of the CQ record raises a false alarm.
 */
module HostAudit {
  import opened Arith
  import opened Protocol
  import opened Invariant
  import opened Runs
  import opened Safety
  import opened Audit
  import Progress
  import Tightness
  import SubmitterSteps
  import ConsumerSteps
  import SQ = SendQueue
  import CQ = CompletionQueue
  import RQ = RecvQueue

  // ---- results ----

  /** A status that reports success: no bit set but perhaps the phase tag. */
  predicate Ok(status: nat) { status == 0 || status == 1 }

  /** The status field of a completion: phase tag, status code, code type, and the bits above. */
  function StatusWord(phase: nat, sc: nat, sct: nat, upper: nat): nat {
    phase + 0x2 * sc + 0x200 * sct + 0x1000 * upper
  }

  /** What counts as success, in the fields of the status: code, type and upper bits all zero. */
  lemma OkFields(phase: nat, sc: nat, sct: nat, upper: nat)
    requires phase <= 1 && sc < 0x100 && sct < 8 && upper < 16
    ensures StatusWord(phase, sc, sct, upper) < W16
    ensures Ok(StatusWord(phase, sc, sct, upper)) <==> sc == 0 && sct == 0 && upper == 0
    ensures Failed(StatusWord(phase, sc, sct, upper)) <==> sc != 0 || sct != 0 || upper != 0
  {}

  lemma OkOrFailed(status: nat)
    ensures Ok(status) <==> !Failed(status)
  {}

  ghost function DoneJobs(stat: seq<nat>): set<nat> { set j: nat | j < |stat| && stat[j] != NO_WAIT }

  ghost function OkJobs(stat: seq<nat>): set<nat> { set j: nat | j < |stat| && Ok(stat[j]) }

  ghost function BadJobs(stat: seq<nat>): set<nat> { DoneJobs(stat) - OkJobs(stat) }

  /** main's loop over c_stat: responses waited for, and successes among them. */
  method CountResults(stat: array<nat>) returns (done: nat, ok: nat)
    ensures done == |DoneJobs(stat[..])| && ok == |OkJobs(stat[..])|
  {
    done, ok := 0, 0;
    for i := 0 to stat.Length
      invariant done == |DoneJobs(stat[..i])| && ok == |OkJobs(stat[..i])|
    {
      OneMoreJob(stat[..i + 1]);
      assert stat[..i + 1][..i] == stat[..i];
      if stat[i] != NO_WAIT {
        done := done + 1;
        ok := ok + if stat[i] / 2 == 0 then 1 else 0;
      }
    }
    assert stat[..stat.Length] == stat[..];
  }

  lemma OneMoreJob(stat: seq<nat>)
    requires stat != []
    ensures var l := |stat| - 1;
      && |DoneJobs(stat)| == |DoneJobs(stat[..l])| + (if stat[l] != NO_WAIT then 1 else 0)
      && |OkJobs(stat)| == |OkJobs(stat[..l])| + (if Ok(stat[l]) then 1 else 0)
  {
    var l := |stat| - 1;
    assert DoneJobs(stat) == DoneJobs(stat[..l]) + if stat[l] != NO_WAIT then {l} else {};
    assert OkJobs(stat) == OkJobs(stat[..l]) + if Ok(stat[l]) then {l} else {};
  }

  predicate BadAt(log: seq<CQ.Event>, p: nat)
    requires p < |log|
  {
    log[p].Answered? && !Ok(log[p].arrival.rsp.status)
  }

  /** Places of failed responses among the first j CQEs. */
  ghost function BadPlaces(log: seq<CQ.Event>, j: nat): set<nat>
    requires j <= |log|
  {
    set p: nat | p < j && BadAt(log, p)
  }

  lemma {:induction false} BadPlacesSize(log: seq<CQ.Event>, j: nat)
    requires j <= |log|
    ensures |BadPlaces(log, j)| == Errs(log, j)
  {
    if j > 0 {
      BadPlacesSize(log, j - 1);
      if log[j - 1].Answered? {
        OkOrFailed(log[j - 1].arrival.rsp.status);
      }
      assert BadPlaces(log, j) == BadPlaces(log, j - 1) + if BadAt(log, j - 1) then {j - 1} else {};
    }
  }

  /** The place in the CQE stream of the response a job's entry came from. */
  ghost function PlaceOf(s: State, j: nat): nat {
    if j in s.h.via && s.h.via[j] in s.h.respAt then s.h.respAt[s.h.via[j]] else 0
  }

  /** An error-free run answered every job, and a job's entry is the response at its place. */
  lemma FinalEntry(c: Config, s: State, j: nat)
    requires Inv(c, s) && Finished(c, s) && j < c.njobs
    ensures 0 <= Here(c, s) <= |s.cq.log| && |s.stat| == c.njobs
    ensures PlaceOf(s, j) < Here(c, s) && AnswersJob(s, j, PlaceOf(s, j))
    ensures s.stat[j] == s.cq.log[PlaceOf(s, j)].arrival.rsp.status && s.stat[j] != NO_WAIT
  {
    hide SQ.Good, CQ.Good, RQ.Good, CmdsInv, LogInv, LockInv, CapsInv, ConInv, NamedInv, PubInv, RegsInv,
         LastInv, TagInv, JobInv, CmdJobs, ExitInv, StatInv, CountInv, PendInv, JobsInRange;
    ConsumerSteps.CqPlace(c, s);
    Recorded(c, s, j);
    ViaPassed(c, s, j);
  }

  lemma ViaPassed(c: Config, s: State, j: nat)
    requires Inv(c, s) && s.con.Halted? && j < c.njobs && j in s.h.via
    ensures s.h.via[j] in s.h.respAt && s.h.respAt[s.h.via[j]] < Here(c, s)
  {
    hide SQ.Good, CQ.Good, RQ.Good, CmdsInv, LogInv, LockInv, CapsInv, ConInv, NamedInv, RegsInv,
         LastInv, TagInv, JobInv, CmdJobs, ExitInv, CountInv, PendInv, JobsInRange;
  }

  /** Every response handled belongs to a job. */
  lemma JobOf(c: Config, s: State, p: nat)
    requires Inv(c, s) && p < |s.cq.log| && s.cq.log[p].Answered?
    ensures s.cq.log[p].n < |s.h.cmds| && s.h.cmds[s.cq.log[p].n].job < c.njobs
    ensures AnswersJob(s, s.h.cmds[s.cq.log[p].n].job, p)
  {
    hide SQ.Good, CQ.Good, RQ.Good, CmdsInv, LogInv, LockInv, CapsInv, ConInv, NamedInv, PubInv, RegsInv,
         LastInv, TagInv, ExitInv, StatInv, CountInv, PendInv, JobsInRange;
    EventsInRange(c, s);
  }

  /** Failed entries of c_stat and failed responses are the same in number. */
  lemma BadMatch(c: Config, s: State)
    requires Inv(c, s) && Finished(c, s)
    ensures 0 <= Here(c, s) <= |s.cq.log| && |s.stat| == c.njobs
    ensures |BadJobs(s.stat)| == Errs(s.cq.log, Here(c, s))
  {
    hide Inv, PlaceOf, AnswersJob;
    ConsumerPlace(c, s);
    forall j | 0 <= j < c.njobs
      ensures PlaceOf(s, j) < Here(c, s) && AnswersJob(s, j, PlaceOf(s, j)) && s.cq.log[PlaceOf(s, j)].Answered?
      ensures s.stat[j] == s.cq.log[PlaceOf(s, j)].arrival.rsp.status && s.stat[j] != NO_WAIT
    {
      FinalEntry(c, s, j);
      Placed(s, j, PlaceOf(s, j));
    }
    var f := map j | j in BadJobs(s.stat) :: PlaceOf(s, j);
    forall j, k | j in f && k in f && f[j] == f[k]
      ensures j == k
    {
      OnePlace(s, j, k, f[j]);
    }
    forall p: nat | p in BadPlaces(s.cq.log, Here(c, s))
      ensures p in f.Values
    {
      JobOf(c, s, p);
      var j := s.h.cmds[s.cq.log[p].n].job;
      SamePlace(c, s, j, p, PlaceOf(s, j));
      assert j in f && f[j] == p;
    }
    forall j | j in f ensures f[j] in BadPlaces(s.cq.log, Here(c, s)) { Placed(s, j, f[j]); }
    assert f.Values == BadPlaces(s.cq.log, Here(c, s));
    SameSize(BadJobs(s.stat), BadPlaces(s.cq.log, Here(c, s)), f);
    BadPlacesSize(s.cq.log, Here(c, s));
  }

  lemma ConsumerPlace(c: Config, s: State)
    requires Inv(c, s)
    ensures 0 <= Here(c, s) <= |s.cq.log| && |s.stat| == c.njobs
  {
    hide SQ.Good, CQ.Good, RQ.Good, CmdsInv, LogInv, LockInv, CapsInv, ConInv, NamedInv, PubInv, RegsInv,
         LastInv, TagInv, JobInv, CmdJobs, ExitInv, StatInv, CountInv, PendInv, JobsInRange;
    ConsumerSteps.CqPlace(c, s);
  }

  lemma Placed(s: State, j: nat, p: nat)
    requires AnswersJob(s, j, p)
    ensures p < |s.cq.log| && s.cq.log[p].Answered?
  {}

  lemma OnePlace(s: State, j: nat, k: nat, p: nat)
    requires AnswersJob(s, j, p) && AnswersJob(s, k, p)
    ensures j == k
  {}

  lemma SamePlace(c: Config, s: State, j: nat, p: nat, q: nat)
    requires Inv(c, s) && AnswersJob(s, j, p) && AnswersJob(s, j, q)
    ensures p == q
  {
    hide Inv;
    OneAnswer(c, s, p, q);
  }

  /** How far rq_head has moved since takeover: rq_reposted. */
  function Reposted(c: Config, s: State): int { s.rq.head - (c.rg.tail0 + |c.rg.first|) }

  /**
   * What the host prints after an error-free run adds up: every job has a response, successes
   * and NVMe errors together are the responses, and as many recvs went back as came.
   */
  lemma ResultsAddUp(c: Config, ss: seq<State>, acts: seq<Act>)
    requires Run(c, ss, acts) && Finished(c, ss[|acts|])
    ensures var s := ss[|acts|];
      && |DoneJobs(s.stat)| == c.njobs == s.regs.cqeResp
      && |BadJobs(s.stat)| == s.regs.nvmeErr
      && |OkJobs(s.stat)| + s.regs.nvmeErr == s.regs.cqeResp
      && Reposted(c, s) == s.regs.cqeResp
  {
    hide Inv, Run, Flushed, Errs, EndsWell;
    RunLength(c, ss, acts);
    var s := ss[|acts|];
    RunKeeps(c, ss, acts, |acts|);
    FlushedAlways(c, ss, acts, |acts|);
    FinalCounts(c, s);
    FinalErrs(c, s);
    BadMatch(c, s);
    forall j | 0 <= j < c.njobs ensures s.stat[j] != NO_WAIT { FinalEntry(c, s, j); }
    RangeSize(c.njobs);
    assert DoneJobs(s.stat) == Range(c.njobs);
    assert DoneJobs(s.stat) == OkJobs(s.stat) + BadJobs(s.stat);
  }

  /** At any time nvme_err is the number of responses passed whose status is neither 0 nor 1. */
  lemma ErrorsCounted(c: Config, ss: seq<State>, acts: seq<Act>, i: nat)
    requires Run(c, ss, acts) && i < |ss|
    ensures 0 <= Passed(c, ss[i]) <= |ss[i].cq.log|
    ensures ss[i].regs.nvmeErr == |BadPlaces(ss[i].cq.log, Passed(c, ss[i]))|
  {
    hide Run;
    hide SQ.Good, CQ.Good, RQ.Good, CmdsInv, LogInv, LockInv, CapsInv, ConInv, NamedInv, PubInv,
         LastInv, TagInv, JobInv, CmdJobs, ExitInv, StatInv, CountInv, PendInv, JobsInRange;
    RunKeeps(c, ss, acts, i);
    PubPlace(c, ss[i]);
    BadPlacesSize(ss[i].cq.log, Passed(c, ss[i]));
  }

  /** CQEs that have had their effect on the tags. */
  function Passed(c: Config, s: State): int { Here(c, s) + PubStep(s.con) }

  /** The response to job j is among them, with a status of that kind. */
  ghost predicate Outcome(c: Config, s: State, j: nat, ok: bool) {
    exists p: nat :: p < Passed(c, s) && AnswersJob(s, j, p) && Ok(s.cq.log[p].arrival.rsp.status) == ok
  }

  /**
   * A waiting submitter sees DONE exactly when the response to its own job has been passed with
   * status 0 or 1, and NVME_ERR exactly when it has with any other.
   */
  lemma SeesOutcome(c: Config, ss: seq<State>, acts: seq<Act>, i: nat, t: nat)
    requires Run(c, ss, acts) && i < |ss| && t < |ss[i].sub| == |ss[i].tags| && ss[i].sub[t].Waiting?
    ensures ss[i].tags[t].state.Done? <==> Outcome(c, ss[i], ss[i].sub[t].job, true)
    ensures ss[i].tags[t].state.NvmeErr? <==> Outcome(c, ss[i], ss[i].sub[t].job, false)
  {
    hide Run, Inv, Outcome, Ok, Failed;
    RunKeeps(c, ss, acts, i);
    var s := ss[i];
    var j := s.sub[t].job;
    var n := WaitingFor(c, s, t);
    if n in s.h.pub {
      PassedBy(c, s, n);
      var p := s.h.respAt[n];
      OkOrFailed(s.cq.log[p].arrival.rsp.status);
      OutcomeAt(c, s, j, p);
    } else {
      NoOutcome(c, s, j, n, true);
      NoOutcome(c, s, j, n, false);
    }
  }

  /** The command whose response a waiting submitter waits for, and what its tag says. */
  lemma WaitingFor(c: Config, s: State, t: nat) returns (n: nat)
    requires Inv(c, s) && t < |s.sub| == |s.tags| && s.sub[t].Waiting?
    ensures n < |s.h.cmds| && s.h.cmds[n].job == s.sub[t].job
    ensures n in s.h.pub ==>
              s.tags[t].state == if Failed(StatusOf(s.cq.log, s.h.respAt, n)) then NvmeErr else Done
    ensures n !in s.h.pub ==> s.tags[t].state.Posted?
  {
    hide SQ.Good, CQ.Good, RQ.Good, CmdsInv, LogInv, LockInv, CapsInv, ConInv, NamedInv, PubInv, RegsInv,
         LastInv, TagInv, JobInv, CmdJobs, ExitInv, StatInv, CountInv, PendInv, JobsInRange, Failed;
    SubmitterSteps.TagAt(s, t);
    n := s.h.last[t];
  }

  lemma PassedBy(c: Config, s: State, n: nat)
    requires Inv(c, s) && n in s.h.pub && n < |s.h.cmds|
    ensures n in s.h.respAt && s.h.respAt[n] < |s.cq.log| && s.h.respAt[n] < Passed(c, s)
    ensures AnswersJob(s, s.h.cmds[n].job, s.h.respAt[n])
    ensures StatusOf(s.cq.log, s.h.respAt, n) == s.cq.log[s.h.respAt[n]].arrival.rsp.status
  {
    hide SQ.Good, CQ.Good, RQ.Good, CmdsInv, LogInv, LockInv, CapsInv, ConInv, NamedInv, RegsInv,
         LastInv, TagInv, JobInv, CmdJobs, ExitInv, StatInv, CountInv, PendInv, JobsInRange;
    PubStatus(c, s);
  }

  lemma OutcomeAt(c: Config, s: State, j: nat, p: nat)
    requires Inv(c, s) && AnswersJob(s, j, p) && p < Passed(c, s)
    ensures Outcome(c, s, j, true) <==> Ok(s.cq.log[p].arrival.rsp.status)
    ensures Outcome(c, s, j, false) <==> !Ok(s.cq.log[p].arrival.rsp.status)
  {
    hide Inv, Ok, AnswersJob;
    Placed(s, j, p);
    forall q: nat | q < Passed(c, s) && AnswersJob(s, j, q) ensures q == p {
      SamePlace(c, s, j, q, p);
    }
    forall q: nat | AnswersJob(s, j, q) ensures q < |s.cq.log| && s.cq.log[q].Answered? { Placed(s, j, q); }
  }

  /** The response to an unpublished command has not been passed. */
  lemma NoOutcome(c: Config, s: State, j: nat, n: nat, ok: bool)
    requires Inv(c, s) && n < |s.h.cmds| && s.h.cmds[n].job == j && n !in s.h.pub
    ensures !Outcome(c, s, j, ok)
  {
    hide Inv, Ok;
    if p: nat :| p < Passed(c, s) && AnswersJob(s, j, p) {
      PassedJob(c, s, j, n, p);
    }
  }

  lemma PassedJob(c: Config, s: State, j: nat, n: nat, p: nat)
    requires Inv(c, s) && n < |s.h.cmds| && s.h.cmds[n].job == j && AnswersJob(s, j, p) && p < Passed(c, s)
    ensures n in s.h.pub
  {
    hide SQ.Good, CQ.Good, RQ.Good, CmdsInv, LockInv, CapsInv, ConInv, NamedInv, RegsInv,
         LastInv, TagInv, JobInv, ExitInv, StatInv, CountInv, PendInv, JobsInRange;
    assert EventInv(c, s.cq.log, s.h.respAt, s.h.sentAt, s.h.cmds, s.sq.retired, s.rq.arrivals, p);
    assert s.cq.log[p].n == n;
  }

  // ---- SEND CQEs asked for ----

  /** Signalled commands among the first n. */
  function Asked(c: Config, n: nat): nat {
    if n == 0 then 0 else Asked(c, n - 1) + if c.Signals(n - 1) then 1 else 0
  }

  /** All of them without selective signalling; with it one for each multiple of 32 crossed. */
  lemma {:induction false} AskedExact(c: Config, n: nat)
    requires c.sg.bb == 1 || c.sg.bb == 2
    ensures Asked(c, n) == if c.selective then c.sg.At(n) / 32 - c.sg.pi0 / 32 else n
  {
    if c.selective {
      AskedCount(c, n);
      SQ.SignalExact(c.sg, n);
    } else if n > 0 {
      AskedExact(c, n - 1);
    }
  }

  lemma {:induction false} AskedCount(c: Config, n: nat)
    requires c.selective
    ensures Asked(c, n) == SQ.SignalCount(c.sg, n)
  {
    if n > 0 {
      AskedCount(c, n - 1);
    }
  }

  ghost function AskedSet(c: Config, n: nat): set<nat> { set m: nat | m < n && c.Signals(m) }

  lemma {:induction false} AskedSize(c: Config, n: nat)
    ensures |AskedSet(c, n)| == Asked(c, n)
  {
    hide Config.Signals;
    if n > 0 {
      AskedSize(c, n - 1);
      assert AskedSet(c, n) == AskedSet(c, n - 1) + if c.Signals(n - 1) then {n - 1} else {};
    }
  }

  /** Places of SEND CQEs among the first j. */
  ghost function SentPlaces(log: seq<CQ.Event>, j: nat): set<nat>
    requires j <= |log|
  {
    set p: nat | p < j && log[p].Sent?
  }

  lemma {:induction false} SentPlacesSize(log: seq<CQ.Event>, j: nat)
    requires j <= |log|
    ensures |SentPlaces(log, j)| + Resps(log, j) == j
  {
    if j > 0 {
      SentPlacesSize(log, j - 1);
      assert SentPlaces(log, j) == SentPlaces(log, j - 1) + if log[j - 1].Sent? then {j - 1} else {};
    }
  }

  /** The SEND CQEs written are as many as the commands they were written for. */
  lemma SentMatch(c: Config, s: State)
    requires Inv(c, s)
    ensures |s.h.sentAt| + Resps(s.cq.log, |s.cq.log|) == |s.cq.log|
    ensures s.h.sentAt.Keys <= AskedSet(c, |s.h.cmds|)
  {
    hide SQ.Good, CQ.Good, RQ.Good, CmdsInv, LockInv, CapsInv, ConInv, NamedInv, PubInv, RegsInv,
         LastInv, TagInv, JobInv, CmdJobs, ExitInv, StatInv, CountInv, PendInv, JobsInRange, Config.Signals;
    forall p | 0 <= p < |s.cq.log|
      ensures s.cq.log[p].Sent? ==> s.cq.log[p].n in s.h.sentAt && s.h.sentAt[s.cq.log[p].n] == p
      ensures s.cq.log[p].n < |s.h.cmds| && (s.cq.log[p].Sent? ==> c.Signals(s.cq.log[p].n))
    {
      assert EventInv(c, s.cq.log, s.h.respAt, s.h.sentAt, s.h.cmds, s.sq.retired, s.rq.arrivals, p);
    }
    forall p | p in SentPlaces(s.cq.log, |s.cq.log|)
      ensures p in s.h.sentAt.Values
    {
      assert s.h.sentAt[s.cq.log[p].n] == p;
    }
    assert s.h.sentAt.Values == SentPlaces(s.cq.log, |s.cq.log|);
    SameSize(s.h.sentAt.Keys, SentPlaces(s.cq.log, |s.cq.log|), s.h.sentAt);
    SentPlacesSize(s.cq.log, |s.cq.log|);
  }

  /** With SEND CQEs first, the last response is the last CQE of all. */
  lemma AllRead(c: Config, s: State)
    requires Inv(c, s) && c.ordered && s.con.Halted? && |s.h.pub| >= |s.h.cmds|
    ensures Here(c, s) == |s.cq.log| && s.h.sentAt.Keys >= AskedSet(c, |s.h.cmds|)
  {
    hide SQ.Good, CQ.Good, RQ.Good, CmdsInv, LockInv, CapsInv, ConInv, NamedInv, RegsInv,
         LastInv, TagInv, JobInv, CmdJobs, ExitInv, StatInv, CountInv, PendInv, JobsInRange, Config.Signals;
    ConsumerSteps.CqPlace(c, s);
    forall n: nat | n < |s.h.cmds| ensures n in s.h.pub { Progress.AllPublished(c, s, n); }
    if Here(c, s) < |s.cq.log| {
      LaterUnread(c, s, Here(c, s));
    }
  }

  lemma LaterUnread(c: Config, s: State, p: nat)
    requires Inv(c, s) && c.ordered && s.con.Halted? && Here(c, s) <= p < |s.cq.log|
    ensures exists n: nat :: n < |s.h.cmds| && n !in s.h.pub
  {
    hide SQ.Good, CQ.Good, RQ.Good, CmdsInv, LockInv, CapsInv, ConInv, NamedInv, RegsInv,
         LastInv, TagInv, JobInv, CmdJobs, ExitInv, StatInv, CountInv, PendInv, JobsInRange, Config.Signals;
    assert EventInv(c, s.cq.log, s.h.respAt, s.h.sentAt, s.h.cmds, s.sq.retired, s.rq.arrivals, p);
    assert s.cq.log[p].n !in s.h.pub;
  }

  /** An error-free run counts exactly the SEND CQEs that were asked for. */
  lemma FinalRequests(c: Config, s: State)
    requires Inv(c, s) && Flushed(c, s) && Finished(c, s) && c.ordered
    ensures s.regs.cqeReq == Asked(c, c.njobs)
  {
    hide Inv, Flushed, Asked, AskedSet;
    FinalCounts(c, s);
    PublishedCount(c, s);
    AllRead(c, s);
    SentMatch(c, s);
    AskedSize(c, c.njobs);
    assert s.h.sentAt.Keys == AskedSet(c, c.njobs);
  }

  lemma PublishedCount(c: Config, s: State)
    requires Inv(c, s) && s.con.Halted?
    ensures |s.h.pub| == s.regs.doneCnt == Resps(s.cq.log, Here(c, s))
  {
    hide SQ.Good, CQ.Good, RQ.Good, CmdsInv, LogInv, LockInv, CapsInv, ConInv, NamedInv,
         LastInv, TagInv, JobInv, CmdJobs, ExitInv, StatInv, CountInv, PendInv, JobsInRange;
  }

  // ---- the CQ check ----

  /** CQEs a complete run reads. */
  function Total(c: Config): nat { c.njobs + Asked(c, c.njobs) }

  /** The CQ check of an error-free run passes or fails by what was known at launch. */
  lemma CqVerdict(c: Config, ss: seq<State>, acts: seq<Act>)
    requires Run(c, ss, acts) && Finished(c, ss[|acts|]) && c.ordered
    ensures CqAudit(c, ss[|acts|]) <==> (c.cg.ci0 + Total(c)) % W32 < W24
  {
    hide Inv, Flushed, Asked, CqAudit, SqAudit, RqAudit;
    AuditVerdict(c, ss, acts);
    RunKeeps(c, ss, acts, |acts|);
    FlushedAlways(c, ss, acts, |acts|);
    FinalRequests(c, ss[|acts|]);
    FinalCounts(c, ss[|acts|]);
  }

  ghost predicate Alarmed(c: Config, ss: seq<State>, acts: seq<Act>) {
    Run(c, ss, acts) && Finished(c, ss[|acts|]) && !CqAudit(c, ss[|acts|])
  }

  /** The alarm can be drawn by an error-free run exactly when the sum leaves the 24 bits. */
  lemma AlarmExact(c: Config)
    requires c.Valid() && c.ordered && RqClamp(c) && CqClamp(c)
    ensures (exists ss, acts :: Alarmed(c, ss, acts)) <==> W24 <= (c.cg.ci0 + Total(c)) % W32
  {
    hide Inv, Init, Total, CqAudit, Progress.Complete;
    if ss, acts :| Alarmed(c, ss, acts) {
      CqVerdict(c, ss, acts);
    }
    if W24 <= (c.cg.ci0 + Total(c)) % W32 {
      var ss, acts := CompleteRun(c);
      CqVerdict(c, ss, acts);
      assert Alarmed(c, ss, acts);
    }
  }

  lemma CompleteRun(c: Config) returns (ss: seq<State>, acts: seq<Act>)
    requires c.Valid() && c.ordered && RqClamp(c) && CqClamp(c)
    ensures Run(c, ss, acts) && Finished(c, ss[|acts|])
  {
    hide Inv, Init;
    Tightness.LaunchExists(c);
    var first := [Tightness.Launch(c)];
    assert Run(c, first, []);
    ss, acts := Progress.Finish(c, first, []);
  }

  /** From counter 2^24 - 1 every error-free run with a job draws it, ordered or not. */
  lemma AlarmAtEdge(c: Config, ss: seq<State>, acts: seq<Act>)
    requires Run(c, ss, acts) && Finished(c, ss[|acts|])
    requires c.cg.ci0 == W24 - 1 && 0 < c.njobs < 0x4000_0000
    ensures Alarmed(c, ss, acts)
  {
    hide Inv, Flushed, CqAudit, SqAudit, RqAudit;
    var s := ss[|acts|];
    RunKeeps(c, ss, acts, |acts|);
    AuditVerdict(c, ss, acts);
    FlushedAlways(c, ss, acts, |acts|);
    FinalCounts(c, s);
    ConsumerPlace(c, s);
    Progress.LogBounded(c, s);
  }

  /** One job, one command, taken over at consumer counter 2^24 - 1. */
  const LATE: Config :=
    Config(1, 1, SQ.SqGeo(64, 0, 1), CQ.CqGeo(64, W24 - 1), RQ.Geo(32, 0, seq(17, i => i)), false, true)

  /** The false alarm is real: this launch completes its job and draws it. */
  lemma FalseAlarm()
    ensures exists ss, acts :: Alarmed(LATE, ss, acts)
  {
    assert Pow2(1) && Pow2(2) && Pow2(4) && Pow2(8) && Pow2(16) && Pow2(32) && Pow2(64);
    assert LATE.Valid();
    assert Asked(LATE, 1) == 1;
    AlarmExact(LATE);
  }
}
