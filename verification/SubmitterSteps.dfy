/** Submitter steps keep the invariant. */
module SubmitterSteps {
  import opened Arith
  import opened Protocol
  import opened Invariant
  import SQ = SendQueue
  import CQ = CompletionQueue
  import RQ = RecvQueue

  // ---- one submitter changes, part by part ----

  lemma TagAt(s: State, t: nat)
    requires TagInv(s.sub, s.tags, s.h.last, s.h.cmds, s.h.pub, s.cq.log, s.h.respAt)
    requires t < |s.sub|
    ensures |s.sub| == |s.tags| == |s.h.last|
    ensures TagOk(s.sub[t], s.tags[t], s.h.last[t], s.h.cmds, s.h.pub,
                  StatusOf(s.cq.log, s.h.respAt, s.h.last[t]))
  {}

  lemma TagStep(s: State, t: nat, u: Sub, tag: Tag)
    requires TagInv(s.sub, s.tags, s.h.last, s.h.cmds, s.h.pub, s.cq.log, s.h.respAt)
    requires t < |s.sub| == |s.tags| == |s.h.last|
    requires TagOk(u, tag, s.h.last[t], s.h.cmds, s.h.pub,
                   StatusOf(s.cq.log, s.h.respAt, s.h.last[t]))
    ensures TagInv(s.sub[t := u], s.tags[t := tag], s.h.last, s.h.cmds, s.h.pub, s.cq.log, s.h.respAt)
  {}

  lemma TagStepSame(s: State, t: nat, u: Sub)
    requires TagInv(s.sub, s.tags, s.h.last, s.h.cmds, s.h.pub, s.cq.log, s.h.respAt)
    requires t < |s.sub| == |s.tags| == |s.h.last|
    requires TagOk(u, s.tags[t], s.h.last[t], s.h.cmds, s.h.pub,
                   StatusOf(s.cq.log, s.h.respAt, s.h.last[t]))
    ensures TagInv(s.sub[t := u], s.tags, s.h.last, s.h.cmds, s.h.pub, s.cq.log, s.h.respAt)
  {}

  /** The submitter keeps its job, and neither claims, records nor exits. */
  lemma JobStep(c: Config, s: State, t: nat, u: Sub)
    requires JobInv(c, s.nextJob, s.sub, s.h.owner, s.h.recs, s.h.cmds)
    requires CmdJobs(c, s.nextJob, s.sub, s.h.cmds) && ExitInv(c, s.nextJob, s.sub, s.abort)
    requires JobsInRange(s.sub, c.njobs)
    requires t < |s.sub| && HasJob(s.sub[t]) && HasJob(u) && u.job == s.sub[t].job
    requires Open(u) == Open(s.sub[t]) && (Unsent(u) ==> Unsent(s.sub[t])) && !u.Lost?
    ensures JobInv(c, s.nextJob, s.sub[t := u], s.h.owner, s.h.recs, s.h.cmds)
    ensures CmdJobs(c, s.nextJob, s.sub[t := u], s.h.cmds)
    ensures ExitInv(c, s.nextJob, s.sub[t := u], s.abort)
    ensures JobsInRange(s.sub[t := u], c.njobs)
  {}

  lemma LockStep(c: Config, s: State, t: nat, u: Sub)
    requires LockInv(c, s.sub, s.holder, s.sqPi, |s.h.cmds|, s.sq.ring)
    requires t < |s.sub| && !Holds(s.sub[t]) && !Holds(u)
    ensures LockInv(c, s.sub[t := u], s.holder, s.sqPi, |s.h.cmds|, s.sq.ring)
  {}

  lemma CapsStep(c: Config, s: State, t: nat, u: Sub)
    requires CapsInv(c, s.sub, s.caps)
    requires t < |s.sub| && (Prepared(u) ==> Prepared(s.sub[t]) && u.job == s.sub[t].job)
    ensures CapsInv(c, s.sub[t := u], s.caps)
  {}

  /** Fewer than QD commands are unanswered while a submitter has none out: the next WQE fits. */
  lemma NextFits(c: Config, s: State, t: nat)
    requires Inv(c, s) && t < c.qd && Settled(s.h.last[t], s.h.pub)
    ensures SQ.Fits(c.sg, s.sq, |s.h.cmds| + 1)
  {
    hide SQ.Good, CQ.Good, RQ.Good, ConInv, RegsInv, TagInv, JobInv, CmdJobs, StatInv, LogInv, PubInv,
         LastInv, CmdsInv, LockInv, CapsInv, NamedInv, ExitInv, PendInv, JobsInRange;
    OutBound(c, s.h.last, s.h.pub, t);
    PublishedRetired(c, s);
    assert |s.h.cmds| - s.sq.retired <= c.qd - 1;
  }

  lemma OutBound(c: Config, last: seq<int>, pub: set<nat>, t: nat)
    requires |last| == c.qd && t < c.qd && Settled(last[t], pub)
    ensures |Out(last, pub)| <= c.qd - 1
  {
    assert Out(last, pub) <= Range(c.qd) - {t};
    RangeSize(c.qd);
    SubsetSize(Out(last, pub), Range(c.qd) - {t});
  }

  lemma PublishedRetired(c: Config, s: State)
    requires PubInv(s.cq.log, s.h.respAt, s.h.pub, Here(c, s) + PubStep(s.con))
    requires LogInv(c, s.cq.log, s.h.respAt, s.h.sentAt, s.h.cmds, s.sq.retired, s.rq.arrivals)
    ensures s.h.pub <= Range(s.sq.retired) && |s.h.pub| <= s.sq.retired <= |s.h.cmds|
  {
    forall n | n in s.h.pub
      ensures n < s.sq.retired
    {
      assert EventInv(c, s.cq.log, s.h.respAt, s.h.sentAt, s.h.cmds, s.sq.retired,
                      s.rq.arrivals, s.h.respAt[n]);
    }
    RangeSize(s.sq.retired);
    SubsetSize(s.h.pub, Range(s.sq.retired));
  }

  // ---- the steps ----

  lemma ClaimKeeps(c: Config, s: State, t: nat)
    requires Inv(c, s) && SubEnabled(c, s, Claim(t))
    ensures Inv(c, SubNext(c, s, Claim(t)))
  {
    hide SQ.Good, CQ.Good, RQ.Good, CmdsInv, LogInv, LockInv, CapsInv, ConInv, NamedInv, PubInv, RegsInv,
         LastInv, TagInv, JobInv, CmdJobs, ExitInv, StatInv, CountInv, PendInv, JobsInRange;
    ClaimJobs(c, s, t);
    TagAt(s, t);
    TagStepSame(s, t, Claimed(s.nextJob));
    LockStep(c, s, t, Claimed(s.nextJob));
    CapsStep(c, s, t, Claimed(s.nextJob));
  }

  lemma QuitKeeps(c: Config, s: State, t: nat)
    requires Inv(c, s) && SubEnabled(c, s, Quit(t))
    ensures Inv(c, SubNext(c, s, Quit(t)))
  {
    hide SQ.Good, CQ.Good, RQ.Good, CmdsInv, LogInv, LockInv, CapsInv, ConInv, NamedInv, PubInv, RegsInv,
         LastInv, TagInv, JobInv, CmdJobs, ExitInv, StatInv, CountInv, PendInv, JobsInRange;
    QuitJobs(c, s, t);
    TagAt(s, t);
    TagStepSame(s, t, Exited);
    LockStep(c, s, t, Exited);
    CapsStep(c, s, t, Exited);
  }

  lemma FillKeeps(c: Config, s: State, t: nat)
    requires Inv(c, s) && SubEnabled(c, s, Fill(t))
    ensures Inv(c, SubNext(c, s, Fill(t)))
  {
    hide SQ.Good, CQ.Good, RQ.Good, CmdsInv, LogInv, LockInv, CapsInv, ConInv, NamedInv, PubInv, RegsInv,
         LastInv, TagInv, JobInv, CmdJobs, ExitInv, StatInv, CountInv, PendInv, JobsInRange;
    var j := s.sub[t].job;
    TagAt(s, t);
    JobStep(c, s, t, Filled(j));
    TagStepSame(s, t, Filled(j));
    LockStep(c, s, t, Filled(j));
    FillCaps(c, s, t);
  }

  lemma MarkKeeps(c: Config, s: State, t: nat)
    requires Inv(c, s) && SubEnabled(c, s, Mark(t))
    ensures Inv(c, SubNext(c, s, Mark(t)))
  {
    hide SQ.Good, CQ.Good, RQ.Good, CmdsInv, LogInv, LockInv, CapsInv, ConInv, NamedInv, PubInv, RegsInv,
         LastInv, TagInv, JobInv, CmdJobs, ExitInv, StatInv, CountInv, PendInv, JobsInRange;
    var j := s.sub[t].job;
    TagAt(s, t);
    JobStep(c, s, t, Marked(j));
    TagStep(s, t, Marked(j), s.tags[t].(state := Posted));
    NamedState(s, t, Posted);
    LockStep(c, s, t, Marked(j));
    CapsStep(c, s, t, Marked(j));
  }

  lemma LockKeeps(c: Config, s: State, t: nat)
    requires Inv(c, s) && SubEnabled(c, s, Lock(t))
    ensures Inv(c, SubNext(c, s, Lock(t)))
  {
    hide SQ.Good, CQ.Good, RQ.Good, CmdsInv, LogInv, LockInv, CapsInv, ConInv, NamedInv, PubInv, RegsInv,
         LastInv, TagInv, JobInv, CmdJobs, ExitInv, StatInv, CountInv, PendInv, JobsInRange;
    var u := Locked(s.sub[t].job);
    TagAt(s, t);
    JobStep(c, s, t, u);
    TagStepSame(s, t, u);
    TakeLock(c, s, t);
    CapsStep(c, s, t, u);
  }

  lemma ReadPiKeeps(c: Config, s: State, t: nat)
    requires Inv(c, s) && SubEnabled(c, s, ReadPi(t))
    ensures Inv(c, SubNext(c, s, ReadPi(t)))
  {
    hide SQ.Good, CQ.Good, RQ.Good, CmdsInv, LogInv, LockInv, CapsInv, ConInv, NamedInv, PubInv, RegsInv,
         LastInv, TagInv, JobInv, CmdJobs, ExitInv, StatInv, CountInv, PendInv, JobsInRange;
    var u := Based(s.sub[t].job, s.sqPi % W16);
    TagAt(s, t);
    JobStep(c, s, t, u);
    TagStepSame(s, t, u);
    ReadPiLock(c, s, t);
    CapsStep(c, s, t, u);
  }

  lemma WriteLoKeeps(c: Config, s: State, t: nat)
    requires Inv(c, s) && SubEnabled(c, s, WriteLo(t))
    ensures Inv(c, SubNext(c, s, WriteLo(t)))
  {
    hide SQ.Good, CQ.Good, RQ.Good, CmdsInv, LogInv, LockInv, CapsInv, ConInv, NamedInv, PubInv, RegsInv,
         LastInv, TagInv, JobInv, CmdJobs, ExitInv, StatInv, CountInv, PendInv, JobsInRange;
    var Based(j, pi) := s.sub[t];
    var u := if c.sg.bb == 2 then Half(j, pi) else Full(j, pi);
    TagAt(s, t);
    JobStep(c, s, t, u);
    TagStepSame(s, t, u);
    CapsStep(c, s, t, u);
    NextFits(c, s, t);
    CmdsLen(c, s);
    LoLock(c, s, t);
  }

  lemma WriteHiKeeps(c: Config, s: State, t: nat)
    requires Inv(c, s) && SubEnabled(c, s, WriteHi(t))
    ensures Inv(c, SubNext(c, s, WriteHi(t)))
  {
    hide SQ.Good, CQ.Good, RQ.Good, CmdsInv, LogInv, LockInv, CapsInv, ConInv, NamedInv, PubInv, RegsInv,
         LastInv, TagInv, JobInv, CmdJobs, ExitInv, StatInv, CountInv, PendInv, JobsInRange;
    var Half(j, pi) := s.sub[t];
    var u := Full(j, pi);
    TagAt(s, t);
    JobStep(c, s, t, u);
    TagStepSame(s, t, u);
    CapsStep(c, s, t, u);
    NextFits(c, s, t);
    CmdsLen(c, s);
    HiLock(c, s, t);
  }

  lemma RingKeeps(c: Config, s: State, t: nat)
    requires Inv(c, s) && SubEnabled(c, s, Ring(t))
    ensures Inv(c, SubNext(c, s, Ring(t)))
  {
    hide SQ.Good, CQ.Good, RQ.Good, CmdsInv, LogInv, LockInv, CapsInv, ConInv, NamedInv, PubInv, RegsInv,
         LastInv, TagInv, JobInv, CmdJobs, ExitInv, StatInv, CountInv, PendInv, JobsInRange;
    NextFits(c, s, t) by { TagAt(s, t); }
    RingQueue(c, s, t);
    RingHistory(c, s, t);
    RingTags(c, s, t);
  }

  lemma StorePiKeeps(c: Config, s: State, t: nat)
    requires Inv(c, s) && SubEnabled(c, s, StorePi(t))
    ensures Inv(c, SubNext(c, s, StorePi(t)))
  {
    hide SQ.Good, CQ.Good, RQ.Good, CmdsInv, LogInv, LockInv, CapsInv, ConInv, NamedInv, PubInv, RegsInv,
         LastInv, TagInv, JobInv, CmdJobs, ExitInv, StatInv, CountInv, PendInv, JobsInRange;
    var u := Stored(s.sub[t].job);
    TagAt(s, t);
    JobStep(c, s, t, u);
    TagStepSame(s, t, u);
    StorePiLock(c, s, t);
    CapsStep(c, s, t, u);
  }

  lemma UnlockKeeps(c: Config, s: State, t: nat)
    requires Inv(c, s) && SubEnabled(c, s, Unlock(t))
    ensures Inv(c, SubNext(c, s, Unlock(t)))
  {
    hide SQ.Good, CQ.Good, RQ.Good, CmdsInv, LogInv, LockInv, CapsInv, ConInv, NamedInv, PubInv, RegsInv,
         LastInv, TagInv, JobInv, CmdJobs, ExitInv, StatInv, CountInv, PendInv, JobsInRange;
    var u := Waiting(s.sub[t].job);
    TagAt(s, t);
    JobStep(c, s, t, u);
    TagStepSame(s, t, u);
    DropLock(c, s, t);
    CapsStep(c, s, t, u);
  }

  lemma SeeKeeps(c: Config, s: State, t: nat)
    requires Inv(c, s) && SubEnabled(c, s, See(t))
    ensures Inv(c, SubNext(c, s, See(t)))
  {
    hide SQ.Good, CQ.Good, RQ.Good, CmdsInv, LogInv, LockInv, CapsInv, ConInv, NamedInv, PubInv, RegsInv,
         LastInv, TagInv, JobInv, CmdJobs, ExitInv, StatInv, CountInv, PendInv, JobsInRange;
    var u := Seen(s.sub[t].job);
    TagAt(s, t);
    JobStep(c, s, t, u);
    TagStepSame(s, t, u);
    LockStep(c, s, t, u);
    CapsStep(c, s, t, u);
  }

  lemma NoteKeeps(c: Config, s: State, t: nat)
    requires Inv(c, s) && SubEnabled(c, s, Note(t))
    ensures Inv(c, SubNext(c, s, Note(t)))
  {
    hide SQ.Good, CQ.Good, RQ.Good, CmdsInv, LogInv, LockInv, CapsInv, ConInv, NamedInv, PubInv, RegsInv,
         LastInv, TagInv, JobInv, CmdJobs, ExitInv, StatInv, CountInv, PendInv, JobsInRange;
    var u := Noted(s.sub[t].job);
    TagAt(s, t);
    TagStepSame(s, t, u);
    NoteJobs(c, s, t);
    NoteStat(c, s, t);
    RecordedInRange(c, s, t);
    LockStep(c, s, t, u);
    CapsStep(c, s, t, u);
  }

  lemma ReleaseKeeps(c: Config, s: State, t: nat)
    requires Inv(c, s) && SubEnabled(c, s, Release(t))
    ensures Inv(c, SubNext(c, s, Release(t)))
  {
    hide SQ.Good, CQ.Good, RQ.Good, CmdsInv, LogInv, LockInv, CapsInv, ConInv, NamedInv, PubInv, RegsInv,
         LastInv, TagInv, JobInv, CmdJobs, ExitInv, StatInv, CountInv, PendInv, JobsInRange;
    TagAt(s, t);
    TagStep(s, t, Ready, s.tags[t].(state := Idle));
    NamedState(s, t, Idle);
    ReleaseJobs(c, s, t, Ready);
    LockStep(c, s, t, Ready);
    CapsStep(c, s, t, Ready);
  }

  lemma GiveUpKeeps(c: Config, s: State, t: nat)
    requires Inv(c, s) && SubEnabled(c, s, GiveUp(t))
    ensures Inv(c, SubNext(c, s, GiveUp(t)))
  {
    hide SQ.Good, CQ.Good, RQ.Good, CmdsInv, LogInv, LockInv, CapsInv, ConInv, NamedInv, PubInv, RegsInv,
         LastInv, TagInv, JobInv, CmdJobs, ExitInv, StatInv, CountInv, PendInv, JobsInRange;
    var u := Lost(s.sub[t].job);
    TagStepSame(s, t, u) by { TagAt(s, t); }
    GiveUpJobs(c, s, t);
    GiveUpStat(c, s, t);
    RecordedInRange(c, s, t);
    LockStep(c, s, t, u);
    CapsStep(c, s, t, u);
  }

  lemma LeaveKeeps(c: Config, s: State, t: nat)
    requires Inv(c, s) && SubEnabled(c, s, Leave(t))
    ensures Inv(c, SubNext(c, s, Leave(t)))
  {
    hide SQ.Good, CQ.Good, RQ.Good, CmdsInv, LogInv, LockInv, CapsInv, ConInv, NamedInv, PubInv, RegsInv,
         LastInv, TagInv, JobInv, CmdJobs, ExitInv, StatInv, CountInv, PendInv, JobsInRange;
    TagAt(s, t);
    TagStep(s, t, Exited, s.tags[t].(state := Idle));
    NamedState(s, t, Idle);
    ReleaseJobs(c, s, t, Exited);
    LockStep(c, s, t, Exited);
    CapsStep(c, s, t, Exited);
  }

  // ---- what is special to one step ----

  lemma ClaimJobs(c: Config, s: State, t: nat)
    requires Inv(c, s) && SubEnabled(c, s, Claim(t))
    ensures var s' := SubNext(c, s, Claim(t));
      && JobInv(c, s'.nextJob, s'.sub, s'.h.owner, s'.h.recs, s'.h.cmds)
      && CmdJobs(c, s'.nextJob, s'.sub, s'.h.cmds)
      && ExitInv(c, s'.nextJob, s'.sub, s'.abort)
      && JobsInRange(s'.sub, c.njobs)
  {
    hide SQ.Good, CQ.Good, RQ.Good, CmdsInv, LogInv, LockInv, CapsInv, ConInv, NamedInv, PubInv, RegsInv,
         LastInv, TagInv, StatInv, CountInv, PendInv;
  }

  lemma QuitJobs(c: Config, s: State, t: nat)
    requires Inv(c, s) && SubEnabled(c, s, Quit(t))
    ensures var s' := SubNext(c, s, Quit(t));
      && JobInv(c, s'.nextJob, s'.sub, s'.h.owner, s'.h.recs, s'.h.cmds)
      && CmdJobs(c, s'.nextJob, s'.sub, s'.h.cmds)
      && ExitInv(c, s'.nextJob, s'.sub, s'.abort)
      && JobsInRange(s'.sub, c.njobs)
  {
    hide SQ.Good, CQ.Good, RQ.Good, CmdsInv, LogInv, LockInv, CapsInv, ConInv, NamedInv, PubInv, RegsInv,
         LastInv, TagInv, StatInv, CountInv, PendInv;
  }

  /** After recording, the submitter lets its job go. */
  lemma ReleaseJobs(c: Config, s: State, t: nat, u: Sub)
    requires Inv(c, s) && t < |s.sub|
    requires (s.sub[t].Noted? && u.Ready?) || (s.sub[t].Lost? && u.Exited?)
    ensures JobInv(c, s.nextJob, s.sub[t := u], s.h.owner, s.h.recs, s.h.cmds)
    ensures CmdJobs(c, s.nextJob, s.sub[t := u], s.h.cmds)
    ensures ExitInv(c, s.nextJob, s.sub[t := u], s.abort)
    ensures JobsInRange(s.sub[t := u], c.njobs)
  {
    hide SQ.Good, CQ.Good, RQ.Good, CmdsInv, LogInv, LockInv, CapsInv, ConInv, NamedInv, PubInv, RegsInv,
         LastInv, TagInv, StatInv, CountInv, PendInv;
  }

  lemma NamedState(s: State, t: nat, st: TagState)
    requires NamedInv(s.con, s.tags) && t < |s.tags|
    ensures NamedInv(s.con, s.tags[t := s.tags[t].(state := st)])
  {}

  /** The capsule slot of a tag whose command is settled is not the NIC's any more. */
  lemma FillCaps(c: Config, s: State, t: nat)
    requires Inv(c, s) && SubEnabled(c, s, Fill(t))
    ensures var s' := SubNext(c, s, Fill(t));
      SQ.Good(c.sg, s'.sq, s'.caps) && CapsInv(c, s'.sub, s'.caps)
  {
    hide CQ.Good, RQ.Good, SQ.Good, LockInv, ConInv, NamedInv, RegsInv, JobInv, CmdJobs, ExitInv, StatInv, CountInv;
    hide TagInv, LogInv, PubInv;
    TagAt(s, t);
    if c.sg.bb == 1 {
      PublishedRetired(c, s);
      forall n | s.sq.retired <= n < |s.sq.posted|
        ensures s.sq.posted[n].payload != SQ.Ref(t)
      {
        assert n !in s.h.pub;
        assert s.sq.posted[n] == PostOf(c, s.h.cmds[n]);
      }
      SQ.CapsuleWriteGood(c.sg, s.sq, s.caps, t, CapsuleOf(t, s.sub[t].job));
    }
  }

  lemma TakeLock(c: Config, s: State, t: nat)
    requires LockInv(c, s.sub, s.holder, s.sqPi, |s.h.cmds|, s.sq.ring)
    requires t < |s.sub| && s.sub[t].Marked? && s.holder == -1
    requires c.sg.cnt > 0 && |s.sq.ring| == c.sg.cnt
    ensures LockInv(c, s.sub[t := Locked(s.sub[t].job)], t, s.sqPi, |s.h.cmds|, s.sq.ring)
  {}

  lemma DropLock(c: Config, s: State, t: nat)
    requires LockInv(c, s.sub, s.holder, s.sqPi, |s.h.cmds|, s.sq.ring)
    requires t < |s.sub| && s.sub[t].Stored?
    ensures LockInv(c, s.sub[t := Waiting(s.sub[t].job)], -1, s.sqPi, |s.h.cmds|, s.sq.ring)
  {}

  lemma ReadPiLock(c: Config, s: State, t: nat)
    requires LockInv(c, s.sub, s.holder, s.sqPi, |s.h.cmds|, s.sq.ring)
    requires t < |s.sub| && s.sub[t].Locked?
    ensures LockInv(c, s.sub[t := Based(s.sub[t].job, s.sqPi % W16)], s.holder, s.sqPi, |s.h.cmds|, s.sq.ring)
  {}

  lemma StorePiLock(c: Config, s: State, t: nat)
    requires LockInv(c, s.sub, s.holder, s.sqPi, |s.h.cmds|, s.sq.ring)
    requires t < |s.sub| && s.sub[t].Rung?
    ensures LockInv(c, s.sub[t := Stored(s.sub[t].job)], s.holder, s.sub[t].pi + c.sg.bb, |s.h.cmds|, s.sq.ring)
  {}

  lemma LoLock(c: Config, s: State, t: nat)
    requires SQ.Good(c.sg, s.sq, s.caps) && |s.sq.posted| == |s.h.cmds|
    requires LockInv(c, s.sub, s.holder, s.sqPi, |s.h.cmds|, s.sq.ring)
    requires t < |s.sub| && s.sub[t].Based? && SQ.Fits(c.sg, s.sq, |s.h.cmds| + 1)
    ensures
      var Based(j, pi) := s.sub[t];
      var q' := s.sq.WriteLo(c.sg, pi, PayloadOf(c, t, j));
      var u := if c.sg.bb == 2 then Half(j, pi) else Full(j, pi);
      && SQ.Good(c.sg, q', s.caps)
      && LockInv(c, s.sub[t := u], s.holder, s.sqPi, |s.h.cmds|, q'.ring)
  {
    hide SQ.Good;
    assert c.sg.Valid() by { SqFacts(c, s); }
    SQ.WriteLoGood(c.sg, s.sq, s.caps, PayloadOf(c, t, s.sub[t].job));
  }

  lemma CmdsLen(c: Config, s: State)
    requires CmdsInv(c, s.sq.posted, s.h.cmds)
    ensures |s.sq.posted| == |s.h.cmds|
  {}

  lemma SqFacts(c: Config, s: State)
    requires SQ.Good(c.sg, s.sq, s.caps)
    ensures c.sg.Valid() && |s.sq.ring| == c.sg.cnt
  {}

  lemma HiLock(c: Config, s: State, t: nat)
    requires SQ.Good(c.sg, s.sq, s.caps) && |s.sq.posted| == |s.h.cmds|
    requires LockInv(c, s.sub, s.holder, s.sqPi, |s.h.cmds|, s.sq.ring)
    requires t < |s.sub| && s.sub[t].Half? && SQ.Fits(c.sg, s.sq, |s.h.cmds| + 1)
    ensures
      var Half(j, pi) := s.sub[t];
      var q' := s.sq.WriteHi(c.sg, pi, PayloadOf(c, t, j));
      && SQ.Good(c.sg, q', s.caps)
      && LockInv(c, s.sub[t := Full(j, pi)], s.holder, s.sqPi, |s.h.cmds|, q'.ring)
  {
    hide SQ.Good;
    SqFacts(c, s);
    SQ.WriteHiGood(c.sg, s.sq, s.caps, PayloadOf(c, t, s.sub[t].job));
  }

  lemma RecordedInRange(c: Config, s: State, t: nat)
    requires JobsInRange(s.sub, c.njobs) && t < |s.sub| && HasJob(s.sub[t])
    ensures s.sub[t].job < c.njobs
  {}

  lemma NoteJobs(c: Config, s: State, t: nat)
    requires Inv(c, s) && SubEnabled(c, s, Note(t))
    ensures var s' := SubNext(c, s, Note(t));
      && JobInv(c, s'.nextJob, s'.sub, s'.h.owner, s'.h.recs, s'.h.cmds)
      && CmdJobs(c, s'.nextJob, s'.sub, s'.h.cmds)
      && ExitInv(c, s'.nextJob, s'.sub, s'.abort)
      && JobsInRange(s'.sub, c.njobs)
      && s'.h.via == s.h.via[s.sub[t].job := s.h.last[t]]
  {
    hide SQ.Good, CQ.Good, RQ.Good, CmdsInv, LogInv, LockInv, CapsInv, ConInv, NamedInv, PubInv, RegsInv,
         LastInv, TagInv, CountInv, PendInv, StatInv;
    TagAt(s, t);
  }

  /** The status recorded for a job is that of the job's own command. */
  lemma NoteStat(c: Config, s: State, t: nat)
    requires Inv(c, s) && SubEnabled(c, s, Note(t))
    ensures var s' := SubNext(c, s, Note(t));
      StatInv(c, s'.stat, s'.h.recs, s'.h.via, s'.h.cmds, s'.h.pub, s'.cq.log, s'.h.respAt, s'.abort)
  {
    hide SQ.Good, CQ.Good, RQ.Good, CmdsInv, LogInv, LockInv, CapsInv, ConInv, NamedInv, PubInv, RegsInv,
         LastInv, TagInv, CountInv, PendInv, CmdJobs, ExitInv, JobsInRange;
    TagAt(s, t);
  }

  lemma GiveUpJobs(c: Config, s: State, t: nat)
    requires Inv(c, s) && SubEnabled(c, s, GiveUp(t))
    ensures var s' := SubNext(c, s, GiveUp(t));
      && JobInv(c, s'.nextJob, s'.sub, s'.h.owner, s'.h.recs, s'.h.cmds)
      && CmdJobs(c, s'.nextJob, s'.sub, s'.h.cmds)
      && ExitInv(c, s'.nextJob, s'.sub, s'.abort)
      && JobsInRange(s'.sub, c.njobs)
  {
    hide SQ.Good, CQ.Good, RQ.Good, CmdsInv, LogInv, LockInv, CapsInv, ConInv, NamedInv, PubInv, RegsInv,
         LastInv, TagInv, CountInv, PendInv, StatInv;
  }

  lemma GiveUpStat(c: Config, s: State, t: nat)
    requires Inv(c, s) && SubEnabled(c, s, GiveUp(t))
    ensures var s' := SubNext(c, s, GiveUp(t));
      StatInv(c, s'.stat, s'.h.recs, s'.h.via, s'.h.cmds, s'.h.pub, s'.cq.log, s'.h.respAt, s'.abort)
  {
    hide SQ.Good, CQ.Good, RQ.Good, CmdsInv, LogInv, LockInv, CapsInv, ConInv, NamedInv, PubInv, RegsInv,
         LastInv, TagInv, CountInv, PendInv, CmdJobs, ExitInv, JobsInRange;
  }

  // ---- the dbrec write exposes a command ----

  lemma RingQueue(c: Config, s: State, t: nat)
    requires Inv(c, s) && SubEnabled(c, s, Ring(t)) && SQ.Fits(c.sg, s.sq, |s.h.cmds| + 1)
    ensures var s' := SubNext(c, s, Ring(t));
      && SQ.Good(c.sg, s'.sq, s'.caps)
      && CmdsInv(c, s'.sq.posted, s'.h.cmds)
      && LockInv(c, s'.sub, s'.holder, s'.sqPi, |s'.h.cmds|, s'.sq.ring)
      && CapsInv(c, s'.sub, s'.caps)
  {
    hide SQ.Good, CQ.Good, RQ.Good, LogInv, ConInv, NamedInv, PubInv, RegsInv,
         LastInv, TagInv, CountInv, PendInv, JobInv, CmdJobs, ExitInv, StatInv;
    var Full(j, pi) := s.sub[t];
    SQ.ExposeGood(c.sg, s.sq, s.caps, PostOf(c, Cmd(t, j)));
    AddMod(pi, c.sg.At(|s.h.cmds|), c.sg.bb, W16) by { DivModUnique(pi, W16, 0, pi); }
  }

  lemma RingHistory(c: Config, s: State, t: nat)
    requires Inv(c, s) && SubEnabled(c, s, Ring(t))
    ensures var s' := SubNext(c, s, Ring(t));
      && LogInv(c, s'.cq.log, s'.h.respAt, s'.h.sentAt, s'.h.cmds, s'.sq.retired, s'.rq.arrivals)
      && JobInv(c, s'.nextJob, s'.sub, s'.h.owner, s'.h.recs, s'.h.cmds)
      && CmdJobs(c, s'.nextJob, s'.sub, s'.h.cmds)
      && ExitInv(c, s'.nextJob, s'.sub, s'.abort)
      && JobsInRange(s'.sub, c.njobs)
      && StatInv(c, s'.stat, s'.h.recs, s'.h.via, s'.h.cmds, s'.h.pub, s'.cq.log, s'.h.respAt, s'.abort)
  {
    hide SQ.Good, CQ.Good, RQ.Good, CmdsInv, LockInv, CapsInv, ConInv, NamedInv, PubInv, RegsInv,
         LastInv, TagInv, CountInv, PendInv;
    var s' := SubNext(c, s, Ring(t));
    forall j | 0 <= j < |s.cq.log|
      ensures EventInv(c, s.cq.log, s.h.respAt, s.h.sentAt, s'.h.cmds, s.sq.retired, s.rq.arrivals, j)
    {
      assert EventInv(c, s.cq.log, s.h.respAt, s.h.sentAt, s.h.cmds, s.sq.retired, s.rq.arrivals, j);
    }
  }

  lemma RingTags(c: Config, s: State, t: nat)
    requires Inv(c, s) && SubEnabled(c, s, Ring(t))
    ensures var s' := SubNext(c, s, Ring(t));
      && LastInv(c, s'.h.last, s'.h.cmds, s'.h.pub)
      && TagInv(s'.sub, s'.tags, s'.h.last, s'.h.cmds, s'.h.pub, s'.cq.log, s'.h.respAt)
      && CountInv(s'.h.cmds, s'.h.last, s'.h.pub)
  {
    hide SQ.Good, CQ.Good, RQ.Good, CmdsInv, LockInv, CapsInv, ConInv, NamedInv, RegsInv, LastInv,
         PendInv, JobInv, CmdJobs, ExitInv, StatInv, TagInv, LogInv, PubInv, JobsInRange;
    TagAt(s, t);
    PublishedRetired(c, s);
    assert |s.h.cmds| !in s.h.pub;
    RingLast(c, s.h.last, s.h.cmds, s.h.pub, t, s.sub[t].job);
    RingTagOk(c, s, t);
  }

  lemma RingLast(c: Config, last: seq<int>, cmds: seq<Cmd>, pub: set<nat>, t: nat, j: nat)
    requires LastInv(c, last, cmds, pub) && CountInv(cmds, last, pub)
    requires t < c.qd && Settled(last[t], pub) && |cmds| !in pub
    ensures LastInv(c, last[t := |cmds|], cmds + [Cmd(t, j)], pub)
    ensures CountInv(cmds + [Cmd(t, j)], last[t := |cmds|], pub)
  {
    assert Out(last[t := |cmds|], pub) == Out(last, pub) + {t};
    assert t !in Out(last, pub);
  }

  lemma RingTagOk(c: Config, s: State, t: nat)
    requires Inv(c, s) && SubEnabled(c, s, Ring(t)) && |s.h.cmds| !in s.h.pub
    ensures var s' := SubNext(c, s, Ring(t));
      TagInv(s'.sub, s'.tags, s'.h.last, s'.h.cmds, s'.h.pub, s'.cq.log, s'.h.respAt)
  {
    hide SQ.Good, CQ.Good, RQ.Good, CmdsInv, LockInv, CapsInv, ConInv, NamedInv, RegsInv,
         PendInv, JobInv, CmdJobs, ExitInv, StatInv, LogInv, PubInv, TagInv;
    var s' := SubNext(c, s, Ring(t));
    forall u | 0 <= u < |s'.sub|
      ensures TagOk(s'.sub[u], s'.tags[u], s'.h.last[u], s'.h.cmds, s'.h.pub,
                    StatusOf(s'.cq.log, s'.h.respAt, s'.h.last[u]))
    {
      TagAt(s, u);
    }
    TagAll(s');
  }

  lemma TagAll(s: State)
    requires |s.sub| == |s.tags| == |s.h.last|
    requires forall t :: 0 <= t < |s.sub| ==>
               TagOk(s.sub[t], s.tags[t], s.h.last[t], s.h.cmds, s.h.pub,
                     StatusOf(s.cq.log, s.h.respAt, s.h.last[t]))
    ensures TagInv(s.sub, s.tags, s.h.last, s.h.cmds, s.h.pub, s.cq.log, s.h.respAt)
  {}
}
