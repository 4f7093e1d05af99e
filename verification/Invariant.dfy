/** What every step of the protocol keeps, part by part; each part names only what it reads. */
module Invariant {
  import opened Arith
  import opened Protocol
  import SQ = SendQueue
  import CQ = CompletionQueue
  import RQ = RecvQueue

  // ---- places in the CQE log ----

  function Here(c: Config, s: State): int { s.cq.ci - c.cg.ci0 }

  /** 1 once the CQE at hand has had its effect on the tags. */
  function PubStep(con: Con): nat {
    if con.Repost? || con.Shadowing? || con.Flushing? || con.Adv? then 1 else 0
  }

  /** 1 once it has given its recv back. */
  function TailStep(con: Con): nat { if con.Adv? then 1 else 0 }

  /** 1 once it has been counted. */
  function SeenStep(con: Con): nat {
    if con.Have? || con.Named? || PubStep(con) == 1 then 1 else 0
  }

  predicate AtCqe(con: Con) { con.Got? || SeenStep(con) == 1 }

  /** Responses among the first j CQEs. */
  function Resps(log: seq<CQ.Event>, j: int): nat
    decreases j
  {
    if j <= 0 || j > |log| then 0
    else Resps(log, j - 1) + if log[j - 1].Answered? then 1 else 0
  }

  /** Responses with a nonzero NVMe status among them. */
  function Errs(log: seq<CQ.Event>, j: int): nat
    decreases j
  {
    if j <= 0 || j > |log| then 0
    else Errs(log, j - 1)
         + if log[j - 1].Answered? && Failed(log[j - 1].arrival.rsp.status) then 1 else 0
  }

  lemma {:induction false} CountsPrefix(log: seq<CQ.Event>, e: CQ.Event, j: nat)
    requires j <= |log|
    ensures Resps(log + [e], j) == Resps(log, j) && Errs(log + [e], j) == Errs(log, j)
  {
    if j > 0 {
      CountsPrefix(log, e, j - 1);
    }
  }

  lemma {:induction false} RespsMonotone(log: seq<CQ.Event>, i: nat, j: nat)
    requires i <= j <= |log|
    ensures Resps(log, i) <= Resps(log, j) <= Resps(log, i) + (j - i)
  {
    if i < j {
      RespsMonotone(log, i, j - 1);
    }
  }

  function StatusOf(log: seq<CQ.Event>, respAt: map<nat, nat>, n: int): nat {
    if n in respAt && respAt[n] < |log| && log[respAt[n]].Answered?
    then log[respAt[n]].arrival.rsp.status else 0
  }

  // ---- commands and the CQE log ----

  /** The NIC's queue holds the commands of the history, in order. */
  ghost predicate CmdsInv(c: Config, posted: seq<SQ.Post>, cmds: seq<Cmd>) {
    && |posted| == |cmds|
    && (forall n :: 0 <= n < |cmds| ==> cmds[n].tag < c.qd && posted[n] == PostOf(c, cmds[n]))
  }

  /** Every CQE belongs to one retired command, and a command has at most one of each kind. */
  ghost predicate LogInv(c: Config, log: seq<CQ.Event>, respAt: map<nat, nat>,
                         sentAt: map<nat, nat>, cmds: seq<Cmd>, retired: nat,
                         arrivals: seq<RQ.Arrival>)
  {
    && retired <= |cmds|
    && (forall j :: 0 <= j < |log| ==>
          EventInv(c, log, respAt, sentAt, cmds, retired, arrivals, j))
    && (forall n :: n in respAt ==>
          respAt[n] < |log| && log[respAt[n]].Answered? && log[respAt[n]].n == n)
    && (forall n :: n in sentAt ==> sentAt[n] < |log| && log[sentAt[n]] == CQ.Sent(n))
    && |arrivals| == Resps(log, |log|)
    && (c.ordered ==> forall n :: n in respAt && c.Signals(n) ==>
          n in sentAt && sentAt[n] < respAt[n])
  }

  ghost predicate EventInv(c: Config, log: seq<CQ.Event>, respAt: map<nat, nat>,
                           sentAt: map<nat, nat>, cmds: seq<Cmd>, retired: nat,
                           arrivals: seq<RQ.Arrival>, j: nat)
    requires j < |log|
  {
    log[j].n < retired && log[j].n < |cmds| &&
    match log[j]
    case Sent(n) => n in sentAt && sentAt[n] == j && c.Signals(n)
    case Answered(n, k, arr) =>
      && n in respAt && respAt[n] == j
      && k == c.rg.tail0 + Resps(log, j)
      && k < c.rg.tail0 + |arrivals| && arrivals[k - c.rg.tail0] == arr
      && arr.rsp.cid == CID_TAG + cmds[n].tag && arr.rsp.status < W16
  }

  // ---- the consumer ----

  /** The consumer works on the CQE at ci, with that CQE's own values. */
  ghost predicate ConInv(c: Config, con: Con, log: seq<CQ.Event>, i: int, q: RQ.Rq) {
    && 0 <= i <= |log|
    && c.rg.tail0 <= q.tail == c.rg.tail0 + Resps(log, i + TailStep(con))
    && (AtCqe(con) ==> i < |log| && AtInv(c, con, log[i], q))
  }

  ghost predicate AtInv(c: Config, con: Con, e: CQ.Event, q: RQ.Rq) {
    match con
    case Got(resp, wc, inl) =>
      resp == e.Answered? && (resp ==> wc == e.k % W16 && inl == e.arrival.inlined)
    case Have(wc, rsp) => e.Answered? && wc == e.k % W16 && rsp == e.arrival.rsp
    case Named(wc, t, st) =>
      && e.Answered? && wc == e.k % W16 && t < c.qd
      && CID_TAG + t == e.arrival.rsp.cid && st == e.arrival.rsp.status
    case Repost(wc) => e.Answered? && wc == e.k % W16
    case Shadowing(v) =>
      && e.Answered? && c.rg.Valid() && c.rg.tail0 <= q.head && |q.ring| == c.rg.cnt
      && v == c.rg.Desc(q.head) && q.ring[q.Slot(c.rg, q.head)] == v
    case Flushing => e.Answered?
    case _ => true
  }

  ghost predicate NamedInv(con: Con, tags: seq<Tag>) {
    con.Named? ==> con.tag < |tags| && tags[con.tag].status == con.status
  }

  /** The published commands are those whose response CQE has been passed. */
  ghost predicate PubInv(log: seq<CQ.Event>, respAt: map<nat, nat>, pub: set<nat>, end: int) {
    && 0 <= end <= |log|
    && (forall n :: n in pub <==> n in respAt && respAt[n] < end)
    && |pub| == Resps(log, end)
  }

  ghost predicate RegsInv(log: seq<CQ.Event>, r: Regs, con: Con, i: int) {
    && 0 <= i && i + SeenStep(con) <= |log|
    && r.doneCnt == Resps(log, i + PubStep(con))
    && r.nvmeErr == Errs(log, i + PubStep(con))
    && r.cidBad == 0 && r.wcBad == 0
    && r.cqeResp == Resps(log, i + SeenStep(con))
    && r.cqeReq + r.cqeResp == i + SeenStep(con)
  }

  // ---- the submission lock and the unexposed WQE ----

  predicate Holds(u: Sub) {
    u.Locked? || u.Based? || u.Half? || u.Full? || u.Rung? || u.Stored?
  }

  /** n is the number of commands exposed so far: the next WQE has that number. */
  ghost predicate LockInv(c: Config, sub: seq<Sub>, holder: int, sqPi: nat, n: nat,
                          ring: seq<SQ.Block>)
  {
    && (forall t :: 0 <= t < |sub| && Holds(sub[t]) ==> holder == t)
    && (holder != -1 ==> 0 <= holder < |sub| && Holds(sub[holder]))
    && (if holder != -1 && sub[holder].Rung?
        then (sub[holder].pi + c.sg.bb) % W16 == c.sg.At(n) % W16
        else sqPi % W16 == c.sg.At(n) % W16)
    && (holder != -1 ==> BlocksInv(c, sub[holder], holder, n, ring))
  }

  ghost predicate BlocksInv(c: Config, u: Sub, t: nat, n: nat, ring: seq<SQ.Block>) {
    c.sg.cnt > 0 && |ring| == c.sg.cnt &&
    match u
    case Based(j, pi) => pi == c.sg.At(n) % W16
    case Half(j, pi) =>
      && pi == c.sg.At(n) % W16 && c.sg.bb == 2
      && ring[c.sg.At(n) % c.sg.cnt] == SQ.Lo(pi, PayloadOf(c, t, j))
    case Full(j, pi) =>
      && pi == c.sg.At(n) % W16 && SQ.Whole(c.sg, ring, n, PayloadOf(c, t, j))
    case _ => true
  }

  predicate Prepared(u: Sub) {
    u.Filled? || u.Marked? || u.Locked? || u.Based? || u.Half? || u.Full?
  }

  /** From filling to the dbrec write a submitter's capsule is the new command's. */
  ghost predicate CapsInv(c: Config, sub: seq<Sub>, caps: seq<SQ.Capsule>) {
    forall t :: 0 <= t < |sub| && Prepared(sub[t]) ==>
      SQ.CapsuleThere(caps, PostOf(c, Cmd(t, sub[t].job)))
  }

  // ---- tags ----

  ghost predicate LastInv(c: Config, last: seq<int>, cmds: seq<Cmd>, pub: set<nat>) {
    && |last| == c.qd
    && (forall t :: 0 <= t < c.qd ==>
          last[t] == -1 || (0 <= last[t] < |cmds| && cmds[last[t]].tag == t))
    && (forall n :: 0 <= n < |cmds| && n !in pub ==> cmds[n].tag < c.qd && last[cmds[n].tag] == n)
  }

  /** No command of the tag can still be published. */
  predicate Settled(l: int, pub: set<nat>) { l < 0 || l in pub }

  /** The job's command is out; the tag turns DONE, with its status, exactly at publication. */
  predicate Flying(tag: Tag, l: int, j: nat, cmds: seq<Cmd>, pub: set<nat>, status: nat) {
    0 <= l < |cmds| && cmds[l].job == j &&
    if l in pub then tag == Tag(if Failed(status) then NvmeErr else Done, status)
    else tag.state.Posted?
  }

  predicate Landed(tag: Tag, l: int, j: nat, cmds: seq<Cmd>, pub: set<nat>, status: nat) {
    0 <= l < |cmds| && cmds[l].job == j && l in pub && tag.status == status
  }

  /** A submitter, its tag, its latest command l and the status that command was answered with. */
  predicate TagOk(u: Sub, tag: Tag, l: int, cmds: seq<Cmd>, pub: set<nat>, status: nat) {
    match u
    case Ready => Settled(l, pub) && tag.state.Idle?
    case Claimed(_) => Settled(l, pub) && tag.state.Idle?
    case Filled(_) => Settled(l, pub) && tag.state.Idle?
    case Marked(_) => Settled(l, pub) && tag.state.Posted?
    case Locked(_) => Settled(l, pub) && tag.state.Posted?
    case Based(_, _) => Settled(l, pub) && tag.state.Posted?
    case Half(_, _) => Settled(l, pub) && tag.state.Posted?
    case Full(_, _) => Settled(l, pub) && tag.state.Posted?
    case Rung(j, _) => Flying(tag, l, j, cmds, pub, status)
    case Stored(j) => Flying(tag, l, j, cmds, pub, status)
    case Waiting(j) => Flying(tag, l, j, cmds, pub, status)
    case Seen(j) => Landed(tag, l, j, cmds, pub, status)
    case Noted(j) => Landed(tag, l, j, cmds, pub, status)
    case Lost(_) => true
    case Exited => true
  }

  ghost predicate TagInv(sub: seq<Sub>, tags: seq<Tag>, last: seq<int>, cmds: seq<Cmd>,
                         pub: set<nat>, log: seq<CQ.Event>, respAt: map<nat, nat>)
  {
    && |sub| == |tags| == |last|
    && (forall t :: 0 <= t < |sub| ==>
          TagOk(sub[t], tags[t], last[t], cmds, pub, StatusOf(log, respAt, last[t])))
  }

  // ---- jobs ----

  /** Claimed and not yet recorded. */
  predicate Open(u: Sub) { HasJob(u) && !u.Noted? && !u.Lost? }

  /** Claimed, its command not yet exposed. */
  predicate Unsent(u: Sub) { u.Claimed? || Prepared(u) }

  ghost predicate JobInv(c: Config, nextJob: nat, sub: seq<Sub>, owner: seq<nat>,
                         recs: seq<nat>, cmds: seq<Cmd>)
  {
    && |owner| == |recs| == c.njobs && |sub| == c.qd && nextJob <= c.njobs
    && (forall t :: 0 <= t < c.qd && Open(sub[t]) ==>
          sub[t].job < nextJob && owner[sub[t].job] == t && recs[sub[t].job] == 0)
    && (forall j :: 0 <= j < nextJob ==> owner[j] < c.qd && recs[j] <= 1)
    && (forall j :: 0 <= j < nextJob && recs[j] == 0 ==>
          Open(sub[owner[j]]) && sub[owner[j]].job == j)
    && (forall j :: nextJob <= j < c.njobs ==> recs[j] == 0)
  }

  ghost predicate CmdJobs(c: Config, nextJob: nat, sub: seq<Sub>, cmds: seq<Cmd>) {
    && (forall n :: 0 <= n < |cmds| ==> cmds[n].job < nextJob)
    && (forall n, t :: 0 <= n < |cmds| && 0 <= t < |sub| && Unsent(sub[t]) ==>
          cmds[n].job != sub[t].job)
    && (forall m, n :: 0 <= m < n < |cmds| ==> cmds[m].job != cmds[n].job)
  }

  ghost predicate ExitInv(c: Config, nextJob: nat, sub: seq<Sub>, abort: bool) {
    forall t :: 0 <= t < |sub| ==>
      (sub[t].Exited? ==> nextJob >= c.njobs || abort) && (sub[t].Lost? ==> abort)
  }

  /** What c_stat says: nothing yet, the job's own status, or given up. */
  ghost predicate StatInv(c: Config, stat: seq<nat>, recs: seq<nat>, via: map<nat, nat>,
                          cmds: seq<Cmd>, pub: set<nat>, log: seq<CQ.Event>,
                          respAt: map<nat, nat>, abort: bool)
  {
    && |stat| == |recs| == c.njobs
    && (forall j :: 0 <= j < c.njobs ==>
          if j in via then
            && recs[j] == 1 && via[j] < |cmds| && cmds[via[j]].job == j && via[j] in pub
            && stat[j] == StatusOf(log, respAt, via[j])
          else stat[j] == NO_WAIT && (recs[j] > 0 ==> abort))
  }

  // ---- counting ----

  /** Tags whose latest command has not been published. */
  function Out(last: seq<int>, pub: set<nat>): set<nat> {
    set t: nat | t < |last| && !Settled(last[t], pub)
  }

  ghost predicate CountInv(cmds: seq<Cmd>, last: seq<int>, pub: set<nat>) {
    |cmds| == |pub| + |Out(last, pub)|
  }

  function Extra(con: Con): nat { if con.Flushing? then 1 else 0 }

  ghost predicate PendInv(con: Con, q: RQ.Rq) { con.Flushing? || q.pending < RQ.RQ_BATCH }

  ghost predicate Inv(c: Config, s: State) {
    && Shape(c, s)
    && SQ.Good(c.sg, s.sq, s.caps) && CQ.Good(c.cg, s.cq)
    && RQ.Good(c.rg, s.rq, Extra(s.con)) && PendInv(s.con, s.rq)
    && CmdsInv(c, s.sq.posted, s.h.cmds)
    && LogInv(c, s.cq.log, s.h.respAt, s.h.sentAt, s.h.cmds, s.sq.retired, s.rq.arrivals)
    && LockInv(c, s.sub, s.holder, s.sqPi, |s.h.cmds|, s.sq.ring)
    && CapsInv(c, s.sub, s.caps)
    && ConInv(c, s.con, s.cq.log, Here(c, s), s.rq)
    && NamedInv(s.con, s.tags)
    && PubInv(s.cq.log, s.h.respAt, s.h.pub, Here(c, s) + PubStep(s.con))
    && RegsInv(s.cq.log, s.regs, s.con, Here(c, s))
    && LastInv(c, s.h.last, s.h.cmds, s.h.pub)
    && TagInv(s.sub, s.tags, s.h.last, s.h.cmds, s.h.pub, s.cq.log, s.h.respAt)
    && JobInv(c, s.nextJob, s.sub, s.h.owner, s.h.recs, s.h.cmds)
    && CmdJobs(c, s.nextJob, s.sub, s.h.cmds)
    && ExitInv(c, s.nextJob, s.sub, s.abort)
    && StatInv(c, s.stat, s.h.recs, s.h.via, s.h.cmds, s.h.pub, s.cq.log, s.h.respAt, s.abort)
    && CountInv(s.h.cmds, s.h.last, s.h.pub)
  }
}
