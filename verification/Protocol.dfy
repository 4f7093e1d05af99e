/**
 * One queue pair as a transition system: QD submitters, one consumer, the NIC and its target.
 * Every store another party can see is a step of its own; steps of different parties
 * interleave freely.
 */
module Protocol {
  import opened Arith
  import SQ = SendQueue
  import CQ = CompletionQueue
  import RQ = RecvQueue

  const CID_TAG: nat := 0x8000        // cid = 0x8000 | tag
  const NO_WAIT: nat := 0xffff_ffff   // c_stat of a job whose response was not waited for

  datatype Config = Config(
    qd: nat, njobs: nat,
    sg: SQ.SqGeo, cg: CQ.CqGeo, rg: RQ.Geo,
    selective: bool,      // opt 0x4000
    ordered: bool)        // hypothesis: a command's SEND CQE precedes its response CQE
  {
    ghost predicate Valid() {
      && sg.Valid() && cg.Valid() && rg.Valid()
      && 0 < qd < CID_TAG
      && sg.At(qd) <= sg.pi0 + sg.cnt
    }

    predicate Signals(n: nat) { SQ.Signalled(sg, selective, n) }
  }

  datatype TagState = Idle | Posted | Done | NvmeErr

  datatype Tag = Tag(state: TagState, status: nat)

  /** Program counter of a submitter, with the values it holds in registers. */
  datatype Sub =
    | Ready
    | Claimed(job: nat)            // CAS on next_job won
    | Filled(job: nat)             // capsule written
    | Marked(job: nat)             // tag is POSTED
    | Locked(job: nat)             // sq_lock taken
    | Based(job: nat, pi: nat)     // sq_pi read, truncated to 16 bits
    | Half(job: nat, pi: nat)      // first of two WQEBBs written
    | Full(job: nat, pi: nat)      // WQE complete
    | Rung(job: nat, pi: nat)      // dbrec written; the doorbell itself carries no state
    | Stored(job: nat)             // sq_pi written back
    | Waiting(job: nat)            // lock released
    | Seen(job: nat)               // read a tag state >= DONE
    | Noted(job: nat)              // c_stat written
    | Lost(job: nat)               // gave up: c_stat says so
    | Exited

  /** Program counter of the consumer. */
  datatype Con =
    | Top
    | Got(resp: bool, wc: nat, inlined: bool)     // tail of a fresh CQE read
    | Have(wc: nat, rsp: RQ.Rsp)                  // response read
    | Named(wc: nat, tag: nat, status: nat)       // status stored in the tag
    | Repost(wc: nat)                             // tag state published (or cid refused)
    | Shadowing(desc: nat)                        // descriptor written to the ring
    | Flushing
    | Adv
    | IdleRq | IdleCq | IdleChk
    | StopRq | StopCq | Halted

  datatype Regs = Regs(doneCnt: nat, nvmeErr: nat, cidBad: nat, wcBad: nat,
                       cqeReq: nat, cqeResp: nat)

  datatype Cmd = Cmd(tag: nat, job: nat)

  /** What happened, kept beside the state; no step reads it. */
  datatype Hist = Hist(
    cmds: seq<Cmd>,            // commands in the order the dbrec exposed them
    last: seq<int>,            // per tag, its latest command, or -1
    owner: seq<nat>,           // per claimed job, the submitter that won it
    respAt: map<nat, nat>,     // command -> place of its response CQE in the log
    sentAt: map<nat, nat>,     // command -> place of its SEND CQE in the log
    pub: set<nat>,             // commands whose tag state was published
    recs: seq<nat>,            // per job, how often c_stat was written
    via: map<nat, nat>)        // job -> the command whose status was recorded

  datatype State = State(
    nextJob: nat, holder: int, sqPi: nat, abort: bool,
    tags: seq<Tag>, caps: seq<SQ.Capsule>, stat: seq<nat>, sub: seq<Sub>,
    sq: SQ.Sq, cq: CQ.Cq, rq: RQ.Rq, con: Con, regs: Regs, h: Hist)

  datatype Act =
    | Claim(t: nat) | Quit(t: nat) | Fill(t: nat) | Mark(t: nat) | Lock(t: nat)
    | ReadPi(t: nat) | WriteLo(t: nat) | WriteHi(t: nat) | Ring(t: nat)
    | StorePi(t: nat) | Unlock(t: nat) | See(t: nat) | Note(t: nat) | Release(t: nat)
    | GiveUp(t: nat) | Leave(t: nat)
    | Poll | EndStep | Read | Name | Publish | PutRing | PutShadow | FlushRq | Advance
    | IdleFlushRq | IdleFlushCq | IdleCheck | StopOnAbort | StopFlushRq | StopFlushCq
    | Fetch | Send | Retire
    | SendCqe(n: nat) | Answer(n: nat, status: nat, inlined: bool)
    | RaiseAbort

  function CapsuleOf(t: nat, job: nat): SQ.Capsule { SQ.Capsule(CID_TAG + t, job) }

  function PayloadOf(c: Config, t: nat, job: nat): SQ.Payload {
    if c.sg.bb == 2 then SQ.Inline(CapsuleOf(t, job)) else SQ.Ref(t)
  }

  function PostOf(c: Config, cmd: Cmd): SQ.Post {
    SQ.Post(PayloadOf(c, cmd.tag, cmd.job), CapsuleOf(cmd.tag, cmd.job))
  }

  function Failed(status: nat): bool { status / 2 != 0 }

  // ---- shape: what the state always looks like, whatever the run ----

  ghost predicate Shape(c: Config, s: State) {
    && c.Valid()
    && |s.tags| == |s.caps| == |s.sub| == |s.h.last| == c.qd
    && |s.stat| == |s.h.recs| == |s.h.owner| == c.njobs
    && |s.sq.ring| == c.sg.cnt && |s.cq.entries| == c.cg.cnt
    && |s.rq.ring| == |s.rq.shadow| == c.rg.cnt
    && s.cq.phase <= 1
    && JobsInRange(s.sub, c.njobs)
  }

  ghost predicate JobsInRange(sub: seq<Sub>, njobs: nat) {
    forall t :: 0 <= t < |sub| && HasJob(sub[t]) ==> sub[t].job < njobs
  }

  predicate HasJob(u: Sub) { !u.Ready? && !u.Exited? }

  // ---- submitters (src/gpu_io_kernel.cpp: claim_job, submitter, post_wqe, post_wqe_inl) ----

  predicate SubEnabled(c: Config, s: State, a: Act)
    requires |s.sub| == |s.tags| == c.qd
  {
    match a
    case Claim(t) => t < c.qd && s.sub[t].Ready? && s.nextJob < c.njobs
    case Quit(t) => t < c.qd && s.sub[t].Ready? && (s.nextJob >= c.njobs || s.abort)
    case Fill(t) => t < c.qd && s.sub[t].Claimed?
    case Mark(t) => t < c.qd && s.sub[t].Filled?
    case Lock(t) => t < c.qd && s.sub[t].Marked? && s.holder == -1
    case ReadPi(t) => t < c.qd && s.sub[t].Locked?
    case WriteLo(t) => t < c.qd && s.sub[t].Based?
    case WriteHi(t) => t < c.qd && s.sub[t].Half?
    case Ring(t) => t < c.qd && s.sub[t].Full?
    case StorePi(t) => t < c.qd && s.sub[t].Rung?
    case Unlock(t) => t < c.qd && s.sub[t].Stored?
    case See(t) => t < c.qd && s.sub[t].Waiting? && (s.tags[t].state.Done? || s.tags[t].state.NvmeErr?)
    case Note(t) => t < c.qd && s.sub[t].Seen?
    case Release(t) => t < c.qd && s.sub[t].Noted?
    case GiveUp(t) => t < c.qd && s.sub[t].Waiting? && s.abort
    case Leave(t) => t < c.qd && s.sub[t].Lost?
    case _ => false
  }

  function SubNext(c: Config, s: State, a: Act): State
    requires Shape(c, s) && SubEnabled(c, s, a)
  {
    assert a.Note? || a.GiveUp? ==> HasJob(s.sub[a.t]);
    match a
    case Claim(t) =>
      s.(nextJob := s.nextJob + 1, sub := s.sub[t := Claimed(s.nextJob)],
         h := s.h.(owner := s.h.owner[s.nextJob := t]))
    case Quit(t) => s.(sub := s.sub[t := Exited])
    case Fill(t) =>
      var j := s.sub[t].job;
      s.(caps := if c.sg.bb == 2 then s.caps else s.caps[t := CapsuleOf(t, j)],
         sub := s.sub[t := Filled(j)])
    case Mark(t) =>
      s.(tags := s.tags[t := s.tags[t].(state := Posted)], sub := s.sub[t := Marked(s.sub[t].job)])
    case Lock(t) => s.(holder := t, sub := s.sub[t := Locked(s.sub[t].job)])
    case ReadPi(t) => s.(sub := s.sub[t := Based(s.sub[t].job, s.sqPi % W16)])
    case WriteLo(t) =>
      var Based(j, pi) := s.sub[t];
      s.(sq := s.sq.WriteLo(c.sg, pi, PayloadOf(c, t, j)),
         sub := s.sub[t := if c.sg.bb == 2 then Half(j, pi) else Full(j, pi)])
    case WriteHi(t) =>
      var Half(j, pi) := s.sub[t];
      s.(sq := s.sq.WriteHi(c.sg, pi, PayloadOf(c, t, j)), sub := s.sub[t := Full(j, pi)])
    case Ring(t) =>
      var Full(j, pi) := s.sub[t];
      s.(sq := s.sq.Expose(c.sg, pi, PostOf(c, Cmd(t, j))), sub := s.sub[t := Rung(j, pi)],
         h := s.h.(cmds := s.h.cmds + [Cmd(t, j)], last := s.h.last[t := |s.h.cmds|]))
    case StorePi(t) =>
      s.(sqPi := s.sub[t].pi + c.sg.bb, sub := s.sub[t := Stored(s.sub[t].job)])
    case Unlock(t) => s.(holder := -1, sub := s.sub[t := Waiting(s.sub[t].job)])
    case See(t) => s.(sub := s.sub[t := Seen(s.sub[t].job)])
    case Note(t) =>
      var j := s.sub[t].job;
      s.(stat := s.stat[j := s.tags[t].status], sub := s.sub[t := Noted(j)],
         h := s.h.(recs := s.h.recs[j := s.h.recs[j] + 1],
                   via := if s.h.last[t] >= 0 then s.h.via[j := s.h.last[t]] else s.h.via))
    case Release(t) =>
      s.(tags := s.tags[t := s.tags[t].(state := Idle)], sub := s.sub[t := Ready])
    case GiveUp(t) =>
      var j := s.sub[t].job;
      s.(stat := s.stat[j := NO_WAIT], sub := s.sub[t := Lost(j)],
         h := s.h.(recs := s.h.recs[j := s.h.recs[j] + 1]))
    case Leave(t) =>
      s.(tags := s.tags[t := s.tags[t].(state := Idle)], sub := s.sub[t := Exited])
  }

  // ---- consumer (poller, consume_one, handle_resp, rq_repost, advance_ci, idle_flush) ----

  predicate ConEnabled(c: Config, s: State, a: Act) {
    match a
    case Poll => s.con.Top?
    case EndStep => s.con.Top?      // a poll step flushes after 32 CQEs even if more are waiting
    case Read => s.con.Got?
    case Name => s.con.Have?
    case Publish => s.con.Named?
    case PutRing => s.con.Repost?
    case PutShadow => s.con.Shadowing?
    case FlushRq => s.con.Flushing?
    case Advance => s.con.Adv?
    case IdleFlushRq => s.con.IdleRq?
    case IdleFlushCq => s.con.IdleCq?
    case IdleCheck => s.con.IdleChk?
    case StopOnAbort => s.abort && (s.con.IdleChk? || s.con.Top?)
    case StopFlushRq => s.con.StopRq?
    case StopFlushCq => s.con.StopCq?
    case _ => false
  }

  /** The response of the CQE at hand: from the entry itself, or through the RQ slot. */
  function ResponseRead(c: Config, s: State, wc: nat, inlined: bool): RQ.Rsp
    requires Shape(c, s)
  {
    var body := s.cq.Here(c.cg).body;
    if inlined then
      if body.Is? && body.event.Answered? then body.event.arrival.rsp else RQ.Rsp(0, 0)
    else
      var b := s.rq.ring[wc % c.rg.cnt];
      if b in s.rq.bufs then s.rq.bufs[b] else RQ.Rsp(0, 0)
  }

  /** cid must carry the kernel's mark and a tag below QD. */
  predicate CidGood(c: Config, cid: nat) { CID_TAG <= cid < CID_TAG + c.qd }

  function ConNext(c: Config, s: State, a: Act): State
    requires Shape(c, s) && ConEnabled(c, s, a)
  {
    match a
    case Poll =>
      if !s.cq.Fresh(c.cg) then s.(con := IdleRq)
      else
        var body := s.cq.Here(c.cg).body;
        if body.Is? && body.event.Answered?
        then s.(con := Got(true, body.event.k % W16, body.event.arrival.inlined))
        else s.(con := Got(false, 0, false))
    case EndStep => s.(con := IdleRq)
    case Read =>
      if s.con.resp then
        var Got(_, wc, inl) := s.con;
        s.(con := Have(wc, ResponseRead(c, s, wc, inl)),
           regs := s.regs.(cqeResp := s.regs.cqeResp + 1,
                           wcBad := s.regs.wcBad + if s.rq.tail % W16 != wc then 1 else 0))
      else s.(con := Adv, regs := s.regs.(cqeReq := s.regs.cqeReq + 1))
    case Name =>
      var Have(wc, rsp) := s.con;
      if CidGood(c, rsp.cid) then
        var t := rsp.cid - CID_TAG;
        s.(tags := s.tags[t := s.tags[t].(status := rsp.status)], con := Named(wc, t, rsp.status))
      else
        s.(abort := true, con := Repost(wc), regs := s.regs.(cidBad := s.regs.cidBad + 1))
    case Publish =>
      var Named(wc, t, st) := s.con;
      var tags' := if t < |s.tags|
                   then s.tags[t := s.tags[t].(state := if Failed(st) then NvmeErr else Done)]
                   else s.tags;
      s.(tags := tags', con := Repost(wc),
         regs := s.regs.(doneCnt := s.regs.doneCnt + 1,
                         nvmeErr := s.regs.nvmeErr + if Failed(st) then 1 else 0),
         h := s.h.(pub := s.h.pub + PublishedHere(c, s)))
    case PutRing =>
      var v := s.rq.shadow[s.con.wc % c.rg.cnt];
      s.(rq := s.rq.WriteRing(c.rg, v), con := Shadowing(v))
    case PutShadow =>
      var q := s.rq.WriteShadow(c.rg, s.con.desc);
      if q.pending >= RQ.RQ_BATCH then s.(rq := q, con := Flushing)
      else s.(rq := q.Next(), con := Adv)
    case FlushRq => s.(rq := s.rq.Flush().Next(), con := Adv)
    case Advance => s.(cq := s.cq.Advance(c.cg), con := Top)
    case IdleFlushRq => s.(rq := s.rq.Flush(), con := IdleCq)
    case IdleFlushCq => s.(cq := s.cq.Flush(), con := IdleChk)
    case IdleCheck => s.(con := if s.regs.doneCnt >= c.njobs then StopRq else Top)
    case StopOnAbort => s.(con := StopRq)
    case StopFlushRq => s.(rq := s.rq.Flush(), con := StopCq)
    case StopFlushCq => s.(cq := s.cq.Flush(), con := Halted)
  }

  /** History only: the command whose response is the CQE at ci. */
  function PublishedHere(c: Config, s: State): set<nat> {
    var ci0 := c.cg.ci0;
    if ci0 <= s.cq.ci < s.cq.Produced(c.cg) && s.cq.log[s.cq.ci - ci0].Answered?
    then {s.cq.log[s.cq.ci - ci0].n} else {}
  }

  // ---- NIC and target, by hypothesis ----

  predicate NicEnabled(c: Config, s: State, a: Act) {
    match a
    // WQEs are fetched in counter order, below the 16-bit SQ dbrec
    case Fetch => s.sq.CanFetch(c.sg)
    case Send => |s.sq.wire| < |s.sq.fetched|
    case Retire => s.sq.retired < |s.sq.wire|
    // a SEND CQE only for a signalled WQE, once, and only if the CQ dbrec leaves room
    case SendCqe(n) =>
      n < s.sq.retired && c.Signals(n) && n !in s.h.sentAt && s.cq.Room(c.cg)
    // every command is answered at most once, after the NIC is finished with its SEND,
    // into the oldest posted recv
    case Answer(n, status, _) =>
      && n < s.sq.retired && n < |s.sq.wire| && n !in s.h.respAt && status < W16
      && s.rq.CanTake(c.rg) && s.cq.Room(c.cg)
      && (c.ordered && c.Signals(n) ==> n in s.h.sentAt)
    case _ => false
  }

  function NicNext(c: Config, s: State, a: Act): State
    requires Shape(c, s) && NicEnabled(c, s, a)
  {
    match a
    case Fetch => s.(sq := s.sq.Fetch(c.sg))
    case Send => s.(sq := s.sq.Send(s.caps))
    case Retire => s.(sq := s.sq.Retire())
    case SendCqe(n) =>
      s.(cq := s.cq.Produce(c.cg, CQ.Sent(n)), h := s.h.(sentAt := s.h.sentAt[n := |s.cq.log|]))
    case Answer(n, status, inlined) =>
      var arr := RQ.Arrival(inlined, RQ.Rsp(s.sq.wire[n].cid, status));
      s.(rq := s.rq.Take(c.rg, arr),
         cq := s.cq.Produce(c.cg, CQ.Answered(n, s.rq.Taken(c.rg), arr)),
         h := s.h.(respAt := s.h.respAt[n := |s.cq.log|]))
  }

  // ---- runs ----

  predicate Enabled(c: Config, s: State, a: Act)
    requires |s.sub| == |s.tags| == c.qd
  {
    SubEnabled(c, s, a) || ConEnabled(c, s, a) || NicEnabled(c, s, a) || a.RaiseAbort?
  }

  /** A timeout or an error CQE may raise the abort flag at any time. */
  function Next(c: Config, s: State, a: Act): State
    requires Shape(c, s) && Enabled(c, s, a)
  {
    if SubEnabled(c, s, a) then SubNext(c, s, a)
    else if ConEnabled(c, s, a) then ConNext(c, s, a)
    else if NicEnabled(c, s, a) then NicNext(c, s, a)
    else s.(abort := true)
  }

  /** State at launch: shared area and tags zeroed, c_stat all ones, queues as taken over. */
  ghost predicate Init(c: Config, s: State) {
    && Shape(c, s)
    && s.nextJob == 0 && s.holder == -1 && s.sqPi == c.sg.pi0 % W16 && !s.abort
    && (forall t :: 0 <= t < c.qd ==> s.tags[t].state.Idle?)
    && (forall t :: 0 <= t < c.qd ==> s.sub[t].Ready?)
    && (forall j :: 0 <= j < c.njobs ==> s.stat[j] == NO_WAIT)
    && s.sq == SQ.Start(c.sg, s.sq.ring)
    && s.cq == CQ.Start(c.cg, s.cq.entries) && CQ.Stale(c.cg, s.cq.entries, c.cg.ci0)
    && s.rq == RQ.Start(c.rg, s.rq.ring)
    && (forall i :: 0 <= i < |c.rg.first| ==>
          s.rq.ring[(c.rg.tail0 + i) % c.rg.cnt] == c.rg.first[i])
    && s.con.Top? && s.regs == Regs(0, 0, 0, 0, 0, 0)
    && s.h.cmds == [] && s.h.respAt == map[] && s.h.sentAt == map[] && s.h.via == map[]
    && s.h.pub == {}
    && (forall t :: 0 <= t < c.qd ==> s.h.last[t] == -1)
    && (forall j :: 0 <= j < c.njobs ==> s.h.recs[j] == 0)
  }
}
