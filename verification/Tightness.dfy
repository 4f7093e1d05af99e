/**
 * The clamp on QD is exact: below it no run is ever short of recvs, above it some run is. The
 * run that falls short posts and answers one command at a time until fifteen recvs are waiting
 * for their batch, publishes one more answer before its recv is back, and then has every
 * submitter post.
 */
module Tightness {
  import opened Arith
  import opened Protocol
  import opened Invariant
  import opened Runs
  import opened Safety
  import SQ = SendQueue
  import CQ = CompletionQueue
  import RQ = RecvQueue

  // ---- reachable states ----

  ghost predicate Ends(c: Config, ss: seq<State>, acts: seq<Act>, s: State) {
    Run(c, ss, acts) && ss[|acts|] == s
  }

  ghost predicate Reached(c: Config, s: State) { exists ss, acts :: Ends(c, ss, acts, s) }

  lemma ReachedInv(c: Config, s: State)
    requires Reached(c, s)
    ensures Inv(c, s)
  {
    hide Inv;
    var ss, acts :| Ends(c, ss, acts, s);
    RunKeeps(c, ss, acts, |acts|);
  }

  lemma Take(c: Config, s: State, a: Act) returns (t: State)
    requires Reached(c, s) && Shape(c, s) && Enabled(c, s, a)
    ensures t == Next(c, s, a) && Reached(c, t) && Inv(c, t)
  {
    hide Inv, Next, Run, Shape, Enabled;
    var ss, acts :| Ends(c, ss, acts, s);
    RunLength(c, ss, acts);
    t := RunOn(c, ss, acts, a);
    RunLength(c, ss + [t], acts + [a]);
    assert Ends(c, ss + [t], acts + [a], t);
    ReachedInv(c, t);
  }

  // ---- what single steps do ----

  /** Submitter t has moved; the other submitters, the queues and the consumer have not. */
  ghost predicate OnlySub(s: State, s': State, t: nat) {
    && s'.abort == s.abort && s'.con == s.con && s'.cq == s.cq && s'.rq == s.rq
    && s'.h.respAt == s.h.respAt && s'.h.sentAt == s.h.sentAt && s'.h.pub == s.h.pub
    && s'.sq.fetched == s.sq.fetched && s'.sq.wire == s.sq.wire && s'.sq.retired == s.sq.retired
    && |s'.sub| == |s.sub| && |s'.h.last| == |s.h.last|
    && forall u :: 0 <= u < |s.sub| && u != t ==> s'.sub[u] == s.sub[u]
  }

  ghost predicate SameCmds(s: State, s': State) {
    s'.h.cmds == s.h.cmds && s'.h.last == s.h.last
  }

  lemma TagDone(c: Config, s: State, t: nat)
    requires Inv(c, s) && t < |s.sub| && s.sub[t].Waiting?
    ensures |s.h.last| == |s.tags| == |s.sub| == c.qd
    ensures 0 <= s.h.last[t] && s.h.last[t] in s.h.pub ==> s.tags[t].state.Done? || s.tags[t].state.NvmeErr?
  {
    hide SQ.Good, CQ.Good, RQ.Good, CmdsInv, LogInv, LockInv, CapsInv, ConInv, NamedInv, PubInv,
         RegsInv, LastInv, JobInv, CmdJobs, ExitInv, StatInv, CountInv, PendInv, JobsInRange;
    assert TagOk(s.sub[t], s.tags[t], s.h.last[t], s.h.cmds, s.h.pub, StatusOf(s.cq.log, s.h.respAt, s.h.last[t]));
  }

  lemma DoClaim(c: Config, s: State, t: nat) returns (s': State)
    requires Reached(c, s) && t < |s.sub| && s.sub[t].Ready? && s.nextJob < c.njobs
    ensures Reached(c, s') && OnlySub(s, s', t) && SameCmds(s, s') && s'.holder == s.holder
    ensures s'.nextJob == s.nextJob + 1 && s'.sub[t].Claimed?
  {
    hide Inv, Reached, Run;
    ReachedInv(c, s);
    InvShape(c, s);
    s' := Take(c, s, Claim(t));
  }

  lemma DoFill(c: Config, s: State, t: nat) returns (s': State)
    requires Reached(c, s) && t < |s.sub| && s.sub[t].Claimed?
    ensures Reached(c, s') && OnlySub(s, s', t) && SameCmds(s, s') && s'.holder == s.holder
    ensures s'.nextJob == s.nextJob && s'.sub[t].Filled?
  {
    hide Inv, Reached, Run;
    ReachedInv(c, s);
    InvShape(c, s);
    s' := Take(c, s, Fill(t));
  }

  lemma DoMark(c: Config, s: State, t: nat) returns (s': State)
    requires Reached(c, s) && t < |s.sub| && s.sub[t].Filled?
    ensures Reached(c, s') && OnlySub(s, s', t) && SameCmds(s, s') && s'.holder == s.holder
    ensures s'.nextJob == s.nextJob && s'.sub[t].Marked?
  {
    hide Inv, Reached, Run;
    ReachedInv(c, s);
    InvShape(c, s);
    s' := Take(c, s, Mark(t));
  }

  lemma DoLock(c: Config, s: State, t: nat) returns (s': State)
    requires Reached(c, s) && t < |s.sub| && s.sub[t].Marked? && s.holder == -1
    ensures Reached(c, s') && OnlySub(s, s', t) && SameCmds(s, s')
    ensures s'.nextJob == s.nextJob && s'.sub[t].Locked?
  {
    hide Inv, Reached, Run;
    ReachedInv(c, s);
    InvShape(c, s);
    s' := Take(c, s, Lock(t));
  }

  lemma DoReadPi(c: Config, s: State, t: nat) returns (s': State)
    requires Reached(c, s) && t < |s.sub| && s.sub[t].Locked?
    ensures Reached(c, s') && OnlySub(s, s', t) && SameCmds(s, s')
    ensures s'.nextJob == s.nextJob && s'.sub[t].Based?
  {
    hide Inv, Reached, Run;
    ReachedInv(c, s);
    InvShape(c, s);
    s' := Take(c, s, ReadPi(t));
  }

  lemma DoWriteLo(c: Config, s: State, t: nat) returns (s': State)
    requires Reached(c, s) && t < |s.sub| && s.sub[t].Based?
    ensures Reached(c, s') && OnlySub(s, s', t) && SameCmds(s, s')
    ensures s'.nextJob == s.nextJob && (s'.sub[t].Half? || s'.sub[t].Full?)
  {
    hide Inv, Reached, Run;
    ReachedInv(c, s);
    InvShape(c, s);
    s' := Take(c, s, WriteLo(t));
  }

  lemma DoWriteHi(c: Config, s: State, t: nat) returns (s': State)
    requires Reached(c, s) && t < |s.sub| && s.sub[t].Half?
    ensures Reached(c, s') && OnlySub(s, s', t) && SameCmds(s, s')
    ensures s'.nextJob == s.nextJob && s'.sub[t].Full?
  {
    hide Inv, Reached, Run;
    ReachedInv(c, s);
    InvShape(c, s);
    s' := Take(c, s, WriteHi(t));
  }

  lemma DoRing(c: Config, s: State, t: nat) returns (s': State)
    requires Reached(c, s) && t < |s.sub| && s.sub[t].Full? && t < |s.h.last|
    ensures Reached(c, s') && OnlySub(s, s', t)
    ensures s'.nextJob == s.nextJob && s'.sub[t].Rung? && |s'.h.cmds| == |s.h.cmds| + 1
    ensures s'.h.last == s.h.last[t := |s.h.cmds|] && s'.h.cmds[|s.h.cmds|].tag == t
  {
    hide Inv, Reached, Run;
    ReachedInv(c, s);
    InvShape(c, s);
    s' := Take(c, s, Protocol.Ring(t));
  }

  lemma DoStorePi(c: Config, s: State, t: nat) returns (s': State)
    requires Reached(c, s) && t < |s.sub| && s.sub[t].Rung?
    ensures Reached(c, s') && OnlySub(s, s', t) && SameCmds(s, s')
    ensures s'.nextJob == s.nextJob && s'.sub[t].Stored?
  {
    hide Inv, Reached, Run;
    ReachedInv(c, s);
    InvShape(c, s);
    s' := Take(c, s, StorePi(t));
  }

  lemma DoUnlock(c: Config, s: State, t: nat) returns (s': State)
    requires Reached(c, s) && t < |s.sub| && s.sub[t].Stored?
    ensures Reached(c, s') && OnlySub(s, s', t) && SameCmds(s, s')
    ensures s'.nextJob == s.nextJob && s'.sub[t].Waiting? && s'.holder == -1
  {
    hide Inv, Reached, Run;
    ReachedInv(c, s);
    InvShape(c, s);
    s' := Take(c, s, Unlock(t));
  }

  lemma DoSee(c: Config, s: State, t: nat) returns (s': State)
    requires Reached(c, s) && t < |s.sub| == |s.h.last| && s.sub[t].Waiting?
    requires 0 <= s.h.last[t] && s.h.last[t] in s.h.pub
    ensures Reached(c, s') && OnlySub(s, s', t) && SameCmds(s, s') && s'.holder == s.holder
    ensures s'.nextJob == s.nextJob && s'.sub[t].Seen?
  {
    hide Inv, Reached, Run;
    ReachedInv(c, s);
    InvShape(c, s);
    TagDone(c, s, t);
    s' := Take(c, s, See(t));
  }

  lemma DoNote(c: Config, s: State, t: nat) returns (s': State)
    requires Reached(c, s) && t < |s.sub| && s.sub[t].Seen?
    ensures Reached(c, s') && OnlySub(s, s', t) && SameCmds(s, s') && s'.holder == s.holder
    ensures s'.nextJob == s.nextJob && s'.sub[t].Noted?
  {
    hide Inv, Reached, Run;
    ReachedInv(c, s);
    InvShape(c, s);
    s' := Take(c, s, Note(t));
  }

  lemma DoRelease(c: Config, s: State, t: nat) returns (s': State)
    requires Reached(c, s) && t < |s.sub| && s.sub[t].Noted?
    ensures Reached(c, s') && OnlySub(s, s', t) && SameCmds(s, s') && s'.holder == s.holder
    ensures s'.nextJob == s.nextJob && s'.sub[t].Ready?
  {
    hide Inv, Reached, Run;
    ReachedInv(c, s);
    InvShape(c, s);
    s' := Take(c, s, Release(t));
  }

  // ---- submitting and collecting ----

  /** Submitter t, ready, gets one more command out. */
  lemma PostOne(c: Config, s: State, t: nat) returns (s': State)
    requires Reached(c, s) && t < |s.sub| == |s.h.last| && s.sub[t].Ready?
    requires s.nextJob < c.njobs && s.holder == -1
    ensures Reached(c, s') && OnlySub(s, s', t) && s'.sub[t].Waiting? && s'.holder == -1
    ensures s'.nextJob == s.nextJob + 1 && |s'.h.cmds| == |s.h.cmds| + 1
    ensures s'.h.last == s.h.last[t := |s.h.cmds|] && s'.h.cmds[|s.h.cmds|].tag == t
  {
    hide Reached;
    s' := TakeLock(c, s, t);
    s' := WriteAndRing(c, s', t);
    s' := DoStorePi(c, s', t);
    s' := DoUnlock(c, s', t);
  }

  lemma TakeLock(c: Config, s: State, t: nat) returns (s': State)
    requires Reached(c, s) && t < |s.sub| && s.sub[t].Ready? && s.nextJob < c.njobs && s.holder == -1
    ensures Reached(c, s') && OnlySub(s, s', t) && SameCmds(s, s')
    ensures s'.sub[t].Locked? && s'.nextJob == s.nextJob + 1
  {
    hide Reached;
    s' := DoClaim(c, s, t);
    s' := DoFill(c, s', t);
    s' := DoMark(c, s', t);
    s' := DoLock(c, s', t);
  }

  lemma WriteAndRing(c: Config, s: State, t: nat) returns (s': State)
    requires Reached(c, s) && t < |s.sub| == |s.h.last| && s.sub[t].Locked?
    ensures Reached(c, s') && OnlySub(s, s', t) && s'.sub[t].Rung? && s'.nextJob == s.nextJob
    ensures |s'.h.cmds| == |s.h.cmds| + 1
    ensures s'.h.last == s.h.last[t := |s.h.cmds|] && s'.h.cmds[|s.h.cmds|].tag == t
  {
    hide Reached;
    s' := DoReadPi(c, s, t);
    s' := DoWriteLo(c, s', t);
    if s'.sub[t].Half? {
      s' := DoWriteHi(c, s', t);
    }
    s' := DoRing(c, s', t);
  }

  /** Submitter t, whose command is published, takes the answer and is ready again. */
  lemma Collect(c: Config, s: State, t: nat) returns (s': State)
    requires Reached(c, s) && t < |s.sub| == |s.h.last| && s.sub[t].Waiting?
    requires 0 <= s.h.last[t] && s.h.last[t] in s.h.pub
    ensures Reached(c, s') && OnlySub(s, s', t) && SameCmds(s, s') && s'.sub[t].Ready?
    ensures s'.nextJob == s.nextJob && s'.holder == s.holder
  {
    hide Reached;
    s' := DoSee(c, s, t);
    s' := DoNote(c, s', t);
    s' := DoRelease(c, s', t);
  }

  // ---- the NIC and the consumer ----

  /** Only the NIC or the consumer has moved. */
  ghost predicate OnlyNic(s: State, s': State) {
    && s'.abort == s.abort && s'.sub == s.sub && s'.nextJob == s.nextJob && s'.holder == s.holder && SameCmds(s, s')
  }

  ghost predicate SameCq(s: State, s': State) {
    && s'.con == s.con && s'.cq == s.cq && s'.rq == s.rq && s'.h.respAt == s.h.respAt && s'.h.sentAt == s.h.sentAt
    && s'.h.pub == s.h.pub
  }

  lemma SqPlaces(c: Config, s: State)
    requires Inv(c, s)
    ensures s.sq.CanFetch(c.sg) <==> |s.sq.fetched| < |s.h.cmds|
  {
    hide CQ.Good, RQ.Good, LogInv, LockInv, CapsInv, ConInv, NamedInv, PubInv, RegsInv, TagInv, LastInv,
         JobInv, CmdJobs, ExitInv, StatInv, CountInv, PendInv, JobsInRange;
    SQ.CanFetchExact(c.sg, s.sq, s.caps);
  }

  lemma DoFetch(c: Config, s: State) returns (s': State)
    requires Reached(c, s) && |s.sq.fetched| < |s.h.cmds|
    ensures Reached(c, s') && OnlyNic(s, s') && SameCq(s, s') && |s'.sq.fetched| == |s.sq.fetched| + 1
    ensures s'.sq.wire == s.sq.wire && s'.sq.retired == s.sq.retired
  {
    hide Inv, Reached, Run, SQ.Sq.CanFetch;
    ReachedInv(c, s);
    InvShape(c, s);
    SqPlaces(c, s);
    s' := Take(c, s, Fetch);
  }

  lemma DoSend(c: Config, s: State) returns (s': State)
    requires Reached(c, s) && |s.sq.wire| < |s.sq.fetched|
    ensures Reached(c, s') && OnlyNic(s, s') && SameCq(s, s') && |s'.sq.wire| == |s.sq.wire| + 1
    ensures s'.sq.fetched == s.sq.fetched && s'.sq.retired == s.sq.retired
  {
    hide Inv, Reached, Run;
    ReachedInv(c, s);
    InvShape(c, s);
    s' := Take(c, s, Send);
  }

  lemma DoRetire(c: Config, s: State) returns (s': State)
    requires Reached(c, s) && s.sq.retired < |s.sq.wire|
    ensures Reached(c, s') && OnlyNic(s, s') && SameCq(s, s') && s'.sq.retired == s.sq.retired + 1
    ensures s'.sq.fetched == s.sq.fetched && s'.sq.wire == s.sq.wire
  {
    hide Inv, Reached, Run;
    ReachedInv(c, s);
    InvShape(c, s);
    s' := Take(c, s, Retire);
  }

  /** The one command not yet fetched is fetched, sent and done with. */
  lemma Carry(c: Config, s: State) returns (s': State)
    requires Reached(c, s) && |s.h.cmds| == |s.sq.fetched| + 1 == |s.sq.wire| + 1 == s.sq.retired + 1
    ensures Reached(c, s') && OnlyNic(s, s') && SameCq(s, s')
    ensures |s'.h.cmds| == |s'.sq.fetched| == |s'.sq.wire| == s'.sq.retired
  {
    hide Reached;
    s' := DoFetch(c, s);
    s' := DoSend(c, s');
    s' := DoRetire(c, s');
  }

  /** The CQ dbrec holds the takeover counter, or was last written at the end of a batch. */
  predicate Lazy(c: Config, s: State) { s.cq.shown == c.cg.ci0 || s.cq.shown % CQ.CQ_BATCH == 0 }

  /** The consumer has handled everything the NIC has written. */
  predicate Idle(c: Config, s: State) { s.con.Top? && s.cq.ci == c.cg.ci0 + |s.cq.log| }

  lemma RoomWhenIdle(c: Config, s: State)
    requires Inv(c, s) && Idle(c, s)
    ensures s.cq.Room(c.cg)
  {
    hide SQ.Good, RQ.Good, CmdsInv, LogInv, LockInv, CapsInv, ConInv, NamedInv, PubInv, RegsInv, TagInv, LastInv,
         JobInv, CmdJobs, ExitInv, StatInv, CountInv, PendInv, JobsInRange;
    CQ.RoomExact(c.cg, s.cq);
  }

  lemma CidNeverBad(c: Config, s: State)
    requires Inv(c, s)
    ensures s.regs.cidBad == 0
  {
    hide SQ.Good, RQ.Good, CQ.Good, CmdsInv, LogInv, LockInv, CapsInv, ConInv, NamedInv, PubInv, TagInv, LastInv,
         JobInv, CmdJobs, ExitInv, StatInv, CountInv, PendInv, JobsInRange;
  }

  lemma DoSendCqe(c: Config, s: State, n: nat) returns (s': State)
    requires Reached(c, s) && Idle(c, s)
    requires n < s.sq.retired && c.Signals(n) && n !in s.h.sentAt
    ensures Reached(c, s') && OnlyNic(s, s') && s'.sq == s.sq && s'.rq == s.rq && s'.con == s.con && s'.h.pub == s.h.pub
    ensures s'.h.sentAt == s.h.sentAt[n := |s.cq.log|] && s'.h.respAt == s.h.respAt
    ensures s'.cq.log == s.cq.log + [CQ.Sent(n)] && s'.cq.ci == s.cq.ci && s'.cq.shown == s.cq.shown
  {
    hide Inv, Reached, Run, CQ.Cq.Room, Config.Signals;
    ReachedInv(c, s);
    InvShape(c, s);
    RoomWhenIdle(c, s);
    s' := Take(c, s, SendCqe(n));
  }

  lemma DoAnswer(c: Config, s: State, n: nat) returns (s': State)
    requires Reached(c, s) && Idle(c, s) && s.rq.CanTake(c.rg)
    requires n < s.sq.retired && n < |s.sq.wire| && n !in s.h.respAt
    requires c.ordered && c.Signals(n) ==> n in s.h.sentAt
    ensures Reached(c, s') && OnlyNic(s, s') && s'.sq == s.sq && s'.con == s.con
    ensures s'.h.pub == s.h.pub && s'.h.sentAt == s.h.sentAt
    ensures |s'.cq.log| == |s.cq.log| + 1 && s'.cq.log[|s.cq.log|].Answered? && s'.cq.log[|s.cq.log|].n == n
    ensures s'.cq.ci == s.cq.ci && s'.cq.shown == s.cq.shown
    ensures |s'.rq.arrivals| == |s.rq.arrivals| + 1 && s'.rq.pending == s.rq.pending
  {
    hide Inv, Reached, Run, CQ.Cq.Room, RQ.Rq.CanTake, Config.Signals;
    ReachedInv(c, s);
    InvShape(c, s);
    RoomWhenIdle(c, s);
    s' := Take(c, s, Answer(n, 0, true));
  }

  /** Everything the NIC wrote is handled, except one CQE, which the consumer is about to meet. */
  predicate OneCqe(c: Config, s: State) {
    s.con.Top? && |s.cq.log| > 0 && s.cq.ci == c.cg.ci0 + |s.cq.log| - 1
  }

  lemma FreshLast(c: Config, s: State)
    requires Inv(c, s) && OneCqe(c, s)
    ensures Shape(c, s) && s.cq.Fresh(c.cg) && s.cq.Here(c.cg).body == CQ.Is(s.cq.log[|s.cq.log| - 1])
  {
    hide SQ.Good, RQ.Good, CQ.Good, CmdsInv, LogInv, LockInv, CapsInv, ConInv, NamedInv, PubInv, RegsInv, TagInv,
         LastInv, JobInv, CmdJobs, ExitInv, StatInv, CountInv, PendInv, JobsInRange;
    CQ.FreshExact(c.cg, s.cq);
  }

  lemma DoPoll(c: Config, s: State) returns (s': State)
    requires Reached(c, s) && OneCqe(c, s)
    ensures Reached(c, s') && OnlyNic(s, s') && s'.sq == s.sq && s'.rq == s.rq && s'.h == s.h
    ensures s'.cq == s.cq && s'.con.Got? && s'.con.resp == s.cq.log[|s.cq.log| - 1].Answered?
  {
    hide Inv, Reached, Run, CQ.Cq.Fresh, CQ.Cq.Here;
    ReachedInv(c, s);
    InvShape(c, s);
    FreshLast(c, s);
    s' := Take(c, s, Poll);
  }

  lemma DoRead(c: Config, s: State) returns (s': State)
    requires Reached(c, s) && s.con.Got?
    ensures Reached(c, s') && OnlyNic(s, s') && s'.sq == s.sq && s'.rq == s.rq && s'.h == s.h
    ensures s'.cq == s.cq && (if s.con.resp then s'.con.Have? else s'.con.Adv?)
  {
    hide Inv, Reached, Run, ResponseRead;
    ReachedInv(c, s);
    InvShape(c, s);
    s' := Take(c, s, Read);
  }

  lemma DoName(c: Config, s: State) returns (s': State)
    requires Reached(c, s) && s.con.Have?
    ensures Reached(c, s') && OnlyNic(s, s') && s'.sq == s.sq && s'.rq == s.rq && s'.h == s.h
    ensures s'.cq == s.cq && s'.con.Named?
  {
    hide Inv, Reached, Run;
    ReachedInv(c, s);
    InvShape(c, s);
    s' := Take(c, s, Name);
    CidNeverBad(c, s');
  }

  lemma DoPublish(c: Config, s: State) returns (s': State)
    requires Reached(c, s) && s.con.Named?
    ensures Reached(c, s') && OnlyNic(s, s') && s'.sq == s.sq && s'.rq == s.rq && s'.cq == s.cq
    ensures s'.h.respAt == s.h.respAt && s'.h.sentAt == s.h.sentAt && s'.con.Repost?
  {
    hide Inv, Reached, Run, PublishedHere;
    ReachedInv(c, s);
    InvShape(c, s);
    s' := Take(c, s, Publish);
  }

  lemma DoPutRing(c: Config, s: State) returns (s': State)
    requires Reached(c, s) && s.con.Repost?
    ensures Reached(c, s') && OnlyNic(s, s') && s'.sq == s.sq && s'.cq == s.cq && s'.h == s.h
    ensures s'.rq.arrivals == s.rq.arrivals && s'.rq.pending == s.rq.pending && s'.con.Shadowing?
  {
    hide Inv, Reached, Run;
    ReachedInv(c, s);
    InvShape(c, s);
    s' := Take(c, s, PutRing);
  }

  lemma DoPutShadow(c: Config, s: State) returns (s': State)
    requires Reached(c, s) && s.con.Shadowing?
    ensures Reached(c, s') && OnlyNic(s, s') && s'.sq == s.sq && s'.cq == s.cq && s'.h == s.h
    ensures s'.rq.arrivals == s.rq.arrivals
    ensures if s.rq.pending + 1 < RQ.RQ_BATCH then s'.con.Adv? && s'.rq.pending == s.rq.pending + 1
            else s'.con.Flushing?
  {
    hide Inv, Reached, Run;
    ReachedInv(c, s);
    InvShape(c, s);
    s' := Take(c, s, PutShadow);
  }

  lemma DoFlushRq(c: Config, s: State) returns (s': State)
    requires Reached(c, s) && s.con.Flushing?
    ensures Reached(c, s') && OnlyNic(s, s') && s'.sq == s.sq && s'.cq == s.cq && s'.h == s.h
    ensures s'.rq.arrivals == s.rq.arrivals && s'.rq.pending == 0 && s'.con.Adv?
  {
    hide Inv, Reached, Run;
    ReachedInv(c, s);
    InvShape(c, s);
    s' := Take(c, s, FlushRq);
  }

  lemma DoAdvance(c: Config, s: State) returns (s': State)
    requires Reached(c, s) && s.con.Adv?
    ensures Reached(c, s') && OnlyNic(s, s') && s'.sq == s.sq && s'.rq == s.rq && s'.h == s.h
    ensures s'.con.Top? && s'.cq.ci == s.cq.ci + 1 && s'.cq.log == s.cq.log
    ensures Lazy(c, s) ==> Lazy(c, s')
  {
    hide Inv, Reached, Run;
    ReachedInv(c, s);
    InvShape(c, s);
    s' := Take(c, s, Advance);
  }

  // ---- one command, answered ----

  lemma EventsRetired(c: Config, s: State)
    requires Inv(c, s)
    ensures forall p :: 0 <= p < |s.cq.log| ==> s.cq.log[p].n < s.sq.retired
  {
    hide SQ.Good, CQ.Good, RQ.Good, CmdsInv, LockInv, CapsInv, ConInv, NamedInv, PubInv, RegsInv, LastInv, TagInv,
         JobInv, CmdJobs, ExitInv, StatInv, CountInv, PendInv, JobsInRange;
    forall p | 0 <= p < |s.cq.log|
      ensures s.cq.log[p].n < s.sq.retired
    {
      assert EventInv(c, s.cq.log, s.h.respAt, s.h.sentAt, s.h.cmds, s.sq.retired, s.rq.arrivals, p);
    }
  }

  /** Nothing is known yet of the command the NIC has not even fetched. */
  lemma Unheard(c: Config, s: State)
    requires Inv(c, s)
    ensures s.sq.retired !in s.h.respAt && s.sq.retired !in s.h.sentAt
  {
    hide SQ.Good, RQ.Good, CQ.Good, CmdsInv, EventInv, LockInv, CapsInv, ConInv, NamedInv, PubInv, RegsInv, TagInv,
         LastInv, JobInv, CmdJobs, ExitInv, StatInv, CountInv, PendInv, JobsInRange;
    EventsRetired(c, s);
  }

  /** A SEND CQE comes and is counted; no command is answered by it. */
  lemma PassSent(c: Config, s: State, n: nat) returns (s': State)
    requires Reached(c, s) && Idle(c, s) && n < s.sq.retired && c.Signals(n) && n !in s.h.sentAt
    ensures Reached(c, s') && OnlyNic(s, s') && Idle(c, s') && n in s'.h.sentAt
    ensures s'.sq == s.sq && s'.rq == s.rq && s'.h.respAt == s.h.respAt && s'.h.pub == s.h.pub
    ensures |s'.cq.log| == |s.cq.log| + 1 && (Lazy(c, s) ==> Lazy(c, s'))
  {
    hide Reached, Config.Signals;
    s' := DoSendCqe(c, s, n);
    s' := DoPoll(c, s');
    s' := DoRead(c, s');
    s' := DoAdvance(c, s');
  }

  /**
   * The newest command reaches the target and its answer reaches the completion queue; where
   * the NIC does not order them, its SEND CQE may be held back.
   */
  lemma Respond(c: Config, s: State, n: nat, holdBack: bool) returns (s': State)
    requires (holdBack ==> !c.ordered) && Reached(c, s) && Idle(c, s) && s.rq.CanTake(c.rg)
    requires |s.h.cmds| == n + 1 && |s.sq.fetched| == |s.sq.wire| == s.sq.retired == n
    ensures Reached(c, s') && OnlyNic(s, s') && OneCqe(c, s') && s'.h.pub == s.h.pub
    ensures s'.cq.log[|s'.cq.log| - 1].Answered? && s'.cq.log[|s'.cq.log| - 1].n == n
    ensures |s'.sq.fetched| == |s'.sq.wire| == s'.sq.retired == n + 1
    ensures |s'.rq.arrivals| == |s.rq.arrivals| + 1 && s'.rq.pending == s.rq.pending
    ensures holdBack ==> s'.h.sentAt == s.h.sentAt
    ensures |s'.cq.log| == |s.cq.log| + (if c.Signals(n) && !holdBack then 2 else 1) && (Lazy(c, s) ==> Lazy(c, s'))
  {
    hide Inv, Reached, RQ.Rq.CanTake, Config.Signals;
    ReachedInv(c, s);
    Unheard(c, s);
    s' := Carry(c, s);
    if c.Signals(n) && !holdBack {
      s' := PassSent(c, s', n);
    }
    s' := DoAnswer(c, s', n);
  }

  /** The consumer meets the answer and publishes it; the recv is still to be given back. */
  lemma Announce(c: Config, s: State, n: nat) returns (s': State)
    requires Reached(c, s) && OneCqe(c, s)
    requires s.cq.log[|s.cq.log| - 1].Answered? && s.cq.log[|s.cq.log| - 1].n == n
    ensures Reached(c, s') && OnlyNic(s, s') && s'.con.Repost? && s'.cq == s.cq && s'.sq == s.sq && s'.rq == s.rq
    ensures n in s'.h.pub && s'.h.sentAt == s.h.sentAt
  {
    hide Inv, Reached;
    s' := DoPoll(c, s);
    s' := DoRead(c, s');
    s' := DoName(c, s');
    s' := DoPublish(c, s');
    ReachedInv(c, s');
    LastIsPublished(c, s', n);
  }

  lemma LastIsPublished(c: Config, s: State, n: nat)
    requires Inv(c, s) && s.con.Repost? && |s.cq.log| > 0 && s.cq.ci == c.cg.ci0 + |s.cq.log| - 1
    requires s.cq.log[|s.cq.log| - 1].Answered? && s.cq.log[|s.cq.log| - 1].n == n
    ensures n in s.h.pub
  {
    hide SQ.Good, RQ.Good, CQ.Good, CmdsInv, LockInv, CapsInv, ConInv, NamedInv, RegsInv, TagInv, LastInv,
         JobInv, CmdJobs, ExitInv, StatInv, CountInv, PendInv, JobsInRange;
    assert EventInv(c, s.cq.log, s.h.respAt, s.h.sentAt, s.h.cmds, s.sq.retired, s.rq.arrivals, |s.cq.log| - 1);
  }

  /** The recv goes back to the ring, a full batch goes to the NIC, and the consumer moves on. */
  lemma GiveBack(c: Config, s: State) returns (s': State)
    requires Reached(c, s) && s.con.Repost? && s.rq.pending < RQ.RQ_BATCH
    requires s.cq.ci == c.cg.ci0 + |s.cq.log| - 1
    ensures Reached(c, s') && OnlyNic(s, s') && Idle(c, s') && s'.sq == s.sq && s'.h == s.h
    ensures s'.rq.pending == (s.rq.pending + 1) % RQ.RQ_BATCH && s'.rq.arrivals == s.rq.arrivals
    ensures s'.cq.log == s.cq.log && (Lazy(c, s) ==> Lazy(c, s'))
  {
    hide Reached;
    s' := DoPutRing(c, s);
    s' := DoPutShadow(c, s');
    if s'.con.Flushing? {
      s' := DoFlushRq(c, s');
    }
    s' := DoAdvance(c, s');
  }

  // ---- the run ----

  /** m commands have come and gone, and p recvs wait for their batch. */
  ghost predicate Calm(c: Config, s: State, m: nat, p: nat) {
    && |s.sub| == |s.h.last| == c.qd && (forall t :: 0 <= t < c.qd ==> s.sub[t].Ready?)
    && Idle(c, s) && s.holder == -1 && s.rq.pending == p
    && s.nextJob == |s.h.cmds| == |s.sq.fetched| == |s.sq.wire| == s.sq.retired == |s.rq.arrivals| == m
  }

  lemma IdleVisible(c: Config, s: State)
    requires Inv(c, s) && (Idle(c, s) || (s.con.Repost? && s.cq.ci == c.cg.ci0 + |s.cq.log| - 1))
    ensures Visible(c, s) == |c.rg.first| - s.rq.pending - (if s.con.Repost? then 1 else 0)
    ensures s.rq.CanTake(c.rg) <==> Visible(c, s) > 0
  {
    hide SQ.Good, RQ.Good, CQ.Good, CmdsInv, LockInv, CapsInv, NamedInv, PubInv, RegsInv, TagInv, LastInv,
         JobInv, CmdJobs, ExitInv, StatInv, CountInv, PendInv, JobsInRange, Visible, RQ.Rq.CanTake;
    RqCounters(c, s);
  }

  /** Submitter 0 gets a command out; its answer is published, its recv not yet back. */
  lemma HalfRound(c: Config, s: State, m: nat, p: nat, holdBack: bool) returns (s': State)
    requires (holdBack ==> !c.ordered) && Reached(c, s) && Calm(c, s, m, p)
    requires 0 < c.qd && m < c.njobs && p < |c.rg.first|
    ensures Reached(c, s') && s'.con.Repost? && s'.cq.ci == c.cg.ci0 + |s'.cq.log| - 1
    ensures |s'.sub| == |s'.h.last| == c.qd && (forall t :: 0 <= t < c.qd ==> s'.sub[t].Ready?)
    ensures s'.holder == -1 && s'.rq.pending == p && s'.nextJob == |s'.h.cmds| == m + 1
    ensures |s'.sq.fetched| == |s'.sq.wire| == s'.sq.retired == |s'.rq.arrivals| == m + 1
    ensures holdBack ==> s'.h.sentAt == s.h.sentAt
    ensures |s'.cq.log| == |s.cq.log| + (if c.Signals(m) && !holdBack then 2 else 1) && (Lazy(c, s) ==> Lazy(c, s'))
  {
    hide Inv, Reached, RQ.Rq.CanTake, Visible, Config.Signals;
    var s1 := PostOne(c, s, 0);
    ReachedInv(c, s1);
    IdleVisible(c, s1);
    var s2 := Respond(c, s1, m, holdBack);
    var s3 := Announce(c, s2, m);
    s' := Collect(c, s3, 0);
  }

  lemma AllSignalled(c: Config, n: nat)
    ensures !c.selective ==> c.Signals(n)
  {}

  lemma NextInBatch(k: nat)
    ensures (k % RQ.RQ_BATCH + 1) % RQ.RQ_BATCH == (k + 1) % RQ.RQ_BATCH
  {}

  /** k commands, one after the other, with no idle turn between them. */
  lemma {:induction false} Rounds(c: Config, s: State, k: nat) returns (s': State)
    requires Reached(c, s) && Calm(c, s, 0, 0) && 0 < c.qd && k <= c.njobs
    requires RqClamp(c) || (k <= |c.rg.first| && k < RQ.RQ_BATCH)
    ensures Reached(c, s') && Calm(c, s', k, k % RQ.RQ_BATCH) && (Lazy(c, s) ==> Lazy(c, s'))
    ensures !c.selective ==> |s'.cq.log| == |s.cq.log| + 2 * k
  {
    hide Reached, Lazy, Config.Signals;
    if k == 0 {
      s' := s;
    } else {
      var s1 := Rounds(c, s, k - 1);
      AllSignalled(c, k - 1);
      NextInBatch(k - 1);
      var s2 := HalfRound(c, s1, k - 1, (k - 1) % RQ.RQ_BATCH, false);
      s' := GiveBack(c, s2);
    }
  }

  /** Submitters t and up, all ready, post in turn until the queue pair has seen m commands. */
  lemma {:induction false} PostUpTo(c: Config, s: State, t: nat, m: nat) returns (s': State)
    requires Reached(c, s) && |s.sub| == |s.h.last| == c.qd && s.holder == -1
    requires forall u :: t <= u < c.qd ==> s.sub[u].Ready?
    requires s.nextJob == |s.h.cmds| <= m <= c.njobs && m - |s.h.cmds| <= c.qd - t
    ensures Reached(c, s') && s'.rq == s.rq && |s'.h.cmds| == m
    ensures s'.cq == s.cq && s'.h.sentAt == s.h.sentAt && s'.h.respAt == s.h.respAt
    decreases m - |s.h.cmds|
  {
    hide Reached;
    if |s.h.cmds| == m {
      s' := s;
    } else {
      var s1 := PostOne(c, s, t);
      s' := PostUpTo(c, s1, t + 1, m);
    }
  }

  /** From launch, with one more job than recvs and QD over the clamp, to a state short of recvs. */
  lemma RunDry(c: Config, s: State) returns (s': State)
    requires Reached(c, s) && Calm(c, s, 0, 0) && c.Valid()
    requires |c.rg.first| < c.njobs && !RqClamp(c)
    ensures Reached(c, s') && Visible(c, s') < Owed(s')
  {
    hide Inv, Reached, RQ.Rq.CanTake, Visible;
    var r := |c.rg.first|;
    if r < RQ.RQ_BATCH {
      var s1 := Rounds(c, s, r);
      ReachedInv(c, s1);
      IdleVisible(c, s1);
      s' := PostUpTo(c, s1, 0, r + 1);
      SameVisible(c, s1, s');
    } else {
      var k := RQ.RQ_BATCH - 1;
      var s1 := Rounds(c, s, k);
      var s2 := HalfRound(c, s1, k, k, false);
      ReachedInv(c, s2);
      IdleVisible(c, s2);
      s' := PostUpTo(c, s2, 0, r + 1);
      SameVisible(c, s2, s');
    }
  }

  lemma SameVisible(c: Config, s: State, s': State)
    requires s.rq == s'.rq
    ensures Visible(c, s) == Visible(c, s')
  {}

  // ---- with no more jobs than recvs ----

  lemma CmdsWithinJobs(c: Config, s: State)
    requires Inv(c, s)
    ensures |s.h.cmds| <= c.njobs
  {
    hide SQ.Good, RQ.Good, CQ.Good, CmdsInv, LogInv, LockInv, CapsInv, ConInv, NamedInv, PubInv, RegsInv, TagInv,
         LastInv, ExitInv, StatInv, CountInv, PendInv, JobsInRange;
    Pigeonhole(seq(|s.h.cmds|, n requires 0 <= n < |s.h.cmds| => s.h.cmds[n].job), c.njobs);
  }

  lemma FewJobs(c: Config, ss: seq<State>, acts: seq<Act>, i: nat)
    requires Run(c, ss, acts) && i < |ss| && c.njobs <= |c.rg.first|
    ensures Owed(ss[i]) <= Visible(c, ss[i])
  {
    hide Run, Inv, Visible;
    RunKeeps(c, ss, acts, i);
    PostedFromFirst(c, ss, acts, i);
    CmdsWithinJobs(c, ss[i]);
    RqGood(c, ss[i]);
    RqCounters(c, ss[i]);
  }

  lemma RqGood(c: Config, s: State)
    requires Inv(c, s)
    ensures RQ.Good(c.rg, s.rq, Extra(s.con))
  {
    hide SQ.Good, RQ.Good, CQ.Good, CmdsInv, LogInv, LockInv, CapsInv, ConInv, NamedInv, PubInv, RegsInv, TagInv,
         LastInv, JobInv, CmdJobs, ExitInv, StatInv, CountInv, PendInv, JobsInRange;
  }

  // ---- launch ----

  /** Where slot j of the receive ring stands in the window found at takeover. */
  function Place(g: RQ.Geo, j: nat): nat
    requires g.cnt > 0
  {
    (j - g.tail0) % g.cnt
  }

  /** A state the host may launch from: rings as taken over, nothing in the CQ written yet. */
  function Launch(c: Config): State
    requires c.rg.cnt > 0 && c.cg.cnt > 0
  {
    State(0, -1, c.sg.pi0 % W16, false,
          seq(c.qd, _ => Tag(TagState.Idle, 0)), seq(c.qd, _ => SQ.Capsule(0, 0)), seq(c.njobs, _ => NO_WAIT),
          seq(c.qd, _ => Ready),
          SQ.Start(c.sg, seq(c.sg.cnt, _ => SQ.Unwritten)),
          CQ.Start(c.cg, seq(c.cg.cnt, _ => CQ.Entry(0, CQ.Blank))),
          RQ.Start(c.rg, TakenOver(c)), Top, Regs(0, 0, 0, 0, 0, 0),
          Hist([], seq(c.qd, _ => -1), seq(c.njobs, _ => 0), map[], map[], {}, seq(c.njobs, _ => 0), map[]))
  }

  function TakenOver(c: Config): seq<nat>
    requires c.rg.cnt > 0
  {
    seq(c.rg.cnt, j requires 0 <= j < c.rg.cnt =>
          if Place(c.rg, j) < |c.rg.first| then c.rg.first[Place(c.rg, j)] else 0)
  }

  lemma TakenOverAt(c: Config, i: nat)
    requires c.rg.Valid() && i < |c.rg.first|
    ensures TakenOver(c)[(c.rg.tail0 + i) % c.rg.cnt] == c.rg.first[i]
  {
    var x := c.rg.tail0 + i;
    DivModUnique(x % c.rg.cnt - c.rg.tail0, c.rg.cnt, -(x / c.rg.cnt), i);
  }

  /** Every configuration has a launch, so what is said of all its runs is said of some. */
  lemma LaunchExists(c: Config)
    requires c.Valid()
    ensures c.rg.cnt > 0 && c.cg.cnt > 0 && Init(c, Launch(c))
  {
    hide TakenOver, SQ.SqGeo.Valid, CQ.CqGeo.Valid;
    Positive(c);
    forall i | 0 <= i < |c.rg.first|
      ensures TakenOver(c)[(c.rg.tail0 + i) % c.rg.cnt] == c.rg.first[i]
    {
      TakenOverAt(c, i);
    }
  }

  lemma Positive(c: Config)
    requires c.Valid()
    ensures c.rg.cnt > 0 && c.cg.cnt > 0 && |TakenOver(c)| == c.rg.cnt
  {}

  lemma LaunchCalm(c: Config)
    requires c.Valid()
    ensures c.rg.cnt > 0 && c.cg.cnt > 0 && Reached(c, Launch(c)) && Calm(c, Launch(c), 0, 0)
  {
    hide Init;
    LaunchExists(c);
    assert Ends(c, [Launch(c)], [], Launch(c));
  }

  // ---- the exact condition ----

  /** In every state of every run the NIC sees a recv for each command still to be answered. */
  ghost predicate AlwaysFed(c: Config) {
    forall ss, acts, i: nat :: Run(c, ss, acts) && i < |ss| ==> Owed(ss[i]) <= Visible(c, ss[i])
  }

  lemma DryWithoutClamp(c: Config)
    requires c.Valid() && |c.rg.first| < c.njobs && !RqClamp(c)
    ensures exists ss, acts :: Run(c, ss, acts) && |ss| == |acts| + 1 && Visible(c, ss[|acts|]) < Owed(ss[|acts|])
  {
    hide Init, Calm, Visible;
    LaunchCalm(c);
    var s := RunDry(c, Launch(c));
    var ss, acts :| Ends(c, ss, acts, s);
  }

  /** The clamp, or a run too short to use up the recvs found at takeover: nothing less will do. */
  lemma ClampIsExact(c: Config)
    requires c.Valid()
    ensures AlwaysFed(c) <==> RqClamp(c) || c.njobs <= |c.rg.first|
  {
    hide Run, Visible;
    if RqClamp(c) || c.njobs <= |c.rg.first| {
      forall ss, acts, i: nat | Run(c, ss, acts) && i < |ss|
        ensures Owed(ss[i]) <= Visible(c, ss[i])
      {
        if RqClamp(c) {
          NeverDry(c, ss, acts, i);
        } else {
          FewJobs(c, ss, acts, i);
        }
      }
    } else {
      DryWithoutClamp(c);
      var ss, acts :| Run(c, ss, acts) && |ss| == |acts| + 1 && Visible(c, ss[|acts|]) < Owed(ss[|acts|]);
    }
  }
}
