/**
 * The consumer's own state in place: rings of descriptors in 64-bit words, doorbell records,
 * tags, and the counters a poller keeps in registers or the shared area.
 */
module Poller {
  import opened Arith
  import opened Protocol
  import opened Consumer
  import CQ = CompletionQueue
  import RQ = RecvQueue

  const POLL_STEP: nat := 32

  /** The words of the k-th descriptor. */
  function Words(a: seq<nat>, w: nat, k: nat): (r: seq<nat>)
    requires (k + 1) * w <= |a|
    ensures |r| == w
  {
    a[k * w..k * w + w]
  }

  lemma InBounds(k: nat, n: nat, w: nat)
    requires k < n
    ensures (k + 1) * w <= n * w && k * w + w == (k + 1) * w
  {}

  lemma Apart(j: nat, k: nat, w: nat)
    requires j != k
    ensures j * w + w <= k * w || k * w + w <= j * w
  {
    if j < k { InBounds(j, k, w); } else { InBounds(k, j, w); }
  }

  /** Descriptors as single values, by any reading of their words. */
  ghost function Slots(a: seq<nat>, w: nat, n: nat, id: seq<nat> -> nat): (r: seq<nat>)
    requires n * w <= |a|
    ensures |r| == n
    decreases n
  {
    if n == 0 then []
    else
      InBounds(n - 1, n, w);
      Slots(a, w, n - 1, id) + [id(Words(a, w, n - 1))]
  }

  lemma {:induction false} SlotsAt(a: seq<nat>, w: nat, n: nat, id: seq<nat> -> nat, k: nat)
    requires n * w <= |a| && k < n
    ensures (k + 1) * w <= n * w && Slots(a, w, n, id)[k] == id(Words(a, w, k))
    decreases n
  {
    InBounds(k, n, w);
    if k < n - 1 {
      InBounds(n - 1, n, w);
      SlotsAt(a, w, n - 1, id, k);
    }
  }

  /** Memory with some words replaced. */
  function Splice(m: seq<nat>, d: nat, v: seq<nat>): (r: seq<nat>)
    requires d + |v| <= |m|
    ensures |r| == |m|
  {
    m[..d] + v + m[d + |v|..]
  }

  /** Replacing the words of one descriptor replaces that descriptor. */
  lemma SlotsUpdate(a: seq<nat>, b: seq<nat>, w: nat, n: nat, id: seq<nat> -> nat, h: nat, v: seq<nat>)
    requires |a| == |b| == n * w && h < n && |v| == w
    requires h * w + w <= |a| && b == Splice(a, h * w, v)
    ensures Slots(b, w, n, id) == Slots(a, w, n, id)[h := id(v)]
  {
    hide Splice, Slots, Words;
    forall k | 0 <= k < n ensures Slots(b, w, n, id)[k] == Slots(a, w, n, id)[h := id(v)][k] {
      SlotUpdate(a, b, w, n, id, h, v, k);
    }
  }

  lemma SlotUpdate(a: seq<nat>, b: seq<nat>, w: nat, n: nat, id: seq<nat> -> nat, h: nat, v: seq<nat>, k: nat)
    requires |a| == |b| == n * w && h < n && |v| == w && k < n
    requires h * w + w <= |a| && b == Splice(a, h * w, v)
    ensures Slots(b, w, n, id)[k] == if k == h then id(v) else Slots(a, w, n, id)[k]
  {
    hide Splice, Slots;
    InBounds(k, n, w);
    if k != h { Apart(k, h, w); }
    Spliced(a, v, h * w, k * w, w);
    SlotsAt(a, w, n, id, k);
    SlotsAt(b, w, n, id, k);
    assert Words(b, w, k) == b[k * w..k * w + w];
    assert Words(a, w, k) == a[k * w..k * w + w];
  }

  lemma Spliced(a: seq<nat>, v: seq<nat>, d: nat, s: nat, w: nat)
    requires |v| == w && d + w <= |a| && s + w <= |a| && (d == s || d + w <= s || s + w <= d)
    ensures Splice(a, d, v)[s..s + w] == if s == d then v else a[s..s + w]
  {}

  /** What lock holders hand on: position in the CQ, and the consumer state of ps_load and ps_store. */
  class Shared {
    var spCi: nat
    var spPhase: nat
    var spSeq: nat
    var rqHead: nat
    var rqPending: nat
    var cqCiWritten: nat
    var regs: Regs

    constructor (ci: nat, phase: nat)
      ensures spCi == ci && spPhase == phase
    {
      spCi, spPhase, spSeq, rqHead, rqPending, cqCiWritten, regs := ci, phase, 0, 0, 0, 0, Regs(0, 0, 0, 0, 0, 0);
    }
  }

  class Poller {
    const c: Config
    const words: nat                 // 64-bit words of a descriptor
    const id: seq<nat> -> nat        // the buffer a descriptor's words name
    const cqBuf: array<CQ.Entry>
    const rqBuf: array<nat>
    const rqShadow: array<nat>
    const tags: array<Tag>
    var bufs: map<nat, RQ.Rsp>
    var rqDb: nat
    var cqDb: nat
    // registers
    var ci: nat
    var phase: nat
    var seqNo: nat
    var rqHead: nat
    var rqPending: nat
    var cqCiWritten: nat
    var regs: Regs
    var aborted: bool
    ghost var shown: nat
    // the NIC's: what it has written and delivered since takeover
    var log: seq<CQ.Event>
    var arrivals: seq<RQ.Arrival>

    ghost predicate Valid()
      reads this, cqBuf, rqBuf, rqShadow, tags
    {
      && c.Valid() && phase <= 1
      && cqBuf.Length == c.cg.cnt && rqBuf.Length == rqShadow.Length == c.rg.cnt * words && tags.Length == c.qd
      && rqBuf != rqShadow
    }

    ghost function View(): Side
      reads this, cqBuf, rqBuf, rqShadow, tags
      requires Valid()
    {
      Side(CQ.Cq(cqBuf[..], cqDb, ci, phase, cqCiWritten, shown, log),
           RQ.Rq(Ring(), Shadow(),
                 rqDb, rqHead, rqPending, c.rg.tail0 + seqNo, arrivals, bufs),
           tags[..], regs, aborted)
    }

    method RqFlush()
      requires Valid()
      modifies `rqDb, `rqPending
      ensures Valid() && View() == old(View()).(rq := old(View()).rq.Flush())
    {
      if rqPending == 0 {
        return;
      }
      rqDb := rqHead % W16;
      rqPending := 0;
    }

    method CqFlush()
      requires Valid()
      modifies `cqDb, `cqCiWritten, `shown
      ensures Valid() && View() == old(View()).(cq := old(View()).cq.Flush())
    {
      if cqCiWritten == ci {
        return;
      }
      cqDb := ci % W24;
      cqCiWritten := ci;
      shown := ci;
    }

    method IdleFlush()
      requires Valid()
      modifies `rqDb, `rqPending, `cqDb, `cqCiWritten, `shown
      ensures Valid() && View() == Settle(old(View()))
    {
      RqFlush();
      CqFlush();
    }

    ghost function Ring(): (r: seq<nat>)
      reads this, cqBuf, rqBuf, rqShadow, tags
      requires Valid()
      ensures |r| == c.rg.cnt
    {
      Slots(rqBuf[..], words, c.rg.cnt, id)
    }

    ghost function Shadow(): (r: seq<nat>)
      reads this, cqBuf, rqBuf, rqShadow, tags
      requires Valid()
      ensures |r| == c.rg.cnt
    {
      Slots(rqShadow[..], words, c.rg.cnt, id)
    }

    /** The descriptor of slot k goes to slot h, in the ring and in the shadow. */
    method CopyDescriptor(k: nat, h: nat)
      requires Valid() && k < c.rg.cnt && h < c.rg.cnt
      modifies rqBuf, rqShadow
      ensures Valid()
      ensures Ring() == old(Ring())[h := old(Shadow())[k]]
      ensures Shadow() == old(Shadow())[h := old(Shadow())[k]]
    {
      hide Slots, Splice, Words, Offset;
      Offsets(k, h, c.rg.cnt, words);
      ghost var r0, s0 := rqBuf[..], rqShadow[..];
      ghost var v := Words(s0, words, k);
      WordsAre(s0, words, k);
      var d, s := Offset(h, words), Offset(k, words);
      assert rqShadow[s..s + words] == s0[s..s + words];
      CopyWords(rqBuf, rqShadow, d, s, words, v);
      Copied(r0, s0, rqBuf[..], rqShadow[..], words, c.rg.cnt, id, k, h, v);
    }

    /** The recv just handled is posted again, as the newest; a full batch is published. */
    method RqRepost(wc: nat)
      requires Valid()
      modifies rqBuf, rqShadow, `rqHead, `rqPending, `rqDb
      ensures Valid() && View() == old(View()).(rq := Reposted(c, old(View()).rq, wc))
    {
      hide Slots;
      var head := rqHead;
      CopyDescriptor(wc % c.rg.cnt, head % c.rg.cnt);
      rqHead := head + 1;
      rqPending := rqPending + 1;
      if rqPending >= RQ.RQ_BATCH {
        RqFlush();
      }
    }

    /** The buffer named by the descriptor in a slot of the ring. */
    method Descriptor(k: nat) returns (b: nat)
      requires Valid() && k < c.rg.cnt
      ensures b == Ring()[k]
    {
      hide Slots;
      InBounds(k, c.rg.cnt, words);
      SlotsAt(rqBuf[..], words, c.rg.cnt, id, k);
      WordsAre(rqBuf[..], words, k);
      var s := Offset(k, words);
      assert rqBuf[..][s..s + words] == rqBuf[s..s + words];
      b := id(rqBuf[s..s + words]);
    }

    /** The response: in the CQE, or in the buffer of the slot that wqe_counter names. */
    method ReadResponse(e: CQ.Event) returns (rsp: RQ.Rsp)
      requires Valid() && e.Answered?
      ensures rsp == ReadRsp(c, View().rq, e)
    {
      rsp := RQ.Rsp(0, 0);
      if e.arrival.inlined {
        rsp := e.arrival.rsp;
      } else {
        var b := Descriptor((e.k % W16) % c.rg.cnt);
        if b in bufs {
          rsp := bufs[b];
        }
      }
    }

    /** Status first, then the state the submitter waits for. */
    method FinishTag(t: nat, status: nat)
      requires Valid() && t < c.qd
      modifies tags
      ensures Valid()
      ensures tags[..] == old(tags[..])[t := Tag(if Failed(status) then NvmeErr else Done, status)]
    {
      tags[t] := tags[t].(status := status);
      tags[t] := tags[t].(state := if Failed(status) then NvmeErr else Done);
    }

    /** Read the response, count it, and hand it to its tag. */
    method HandleResp(e: CQ.Event)
      requires Valid() && e.Answered?
      modifies tags, `regs, `aborted
      ensures Fit(c, old(View())) && View() == Respond(c, old(View()), e)
      ensures regs.cqeResp == old(regs.cqeResp) + 1
      ensures regs.wcBad == old(regs.wcBad) + if (c.rg.tail0 + seqNo) % 0x1_0000 == e.k % 0x1_0000 then 0 else 1
      ensures var rsp := ReadRsp(c, old(View()).rq, e);
              if 0x8000 <= rsp.cid < 0x8000 + c.qd then
                && tags[..] == old(tags[..])[rsp.cid - 0x8000 := Tag(if rsp.status < 2 then Done else NvmeErr, rsp.status)]
                && regs.doneCnt == old(regs.doneCnt) + 1 && aborted == old(aborted)
                && regs.nvmeErr == old(regs.nvmeErr) + (if rsp.status < 2 then 0 else 1)
              else
                tags[..] == old(tags[..]) && aborted && regs == old(regs).(cqeResp := regs.cqeResp, wcBad := regs.wcBad,
                                                                           cidBad := old(regs.cidBad) + 1)
      ensures Valid()
    {
      hide Slots, ReadRsp;
      var r := regs.(cqeResp := regs.cqeResp + 1);
      if (c.rg.tail0 + seqNo) % W16 != e.k % W16 {
        r := r.(wcBad := r.wcBad + 1);
      }
      var rsp := ReadResponse(e);
      if CidGood(c, rsp.cid) {
        FinishTag(rsp.cid - CID_TAG, rsp.status);
        if Failed(rsp.status) {
          r := r.(nvmeErr := r.nvmeErr + 1);
        }
        r := r.(doneCnt := r.doneCnt + 1);
      } else {
        r := r.(cidBad := r.cidBad + 1);
        aborted := true;
      }
      regs := r;
    }

    /** Step to the next entry; the phase turns over with the ring, the counter is returned in batches. */
    method AdvanceCi()
      requires Valid()
      modifies `ci, `phase, `cqDb, `cqCiWritten, `shown
      ensures Valid() && View() == old(View()).(cq := old(View()).cq.Advance(c.cg))
    {
      hide Slots;
      ghost var ring, shadow := Ring(), Shadow();
      ci := ci + 1;
      if ci % c.cg.cnt == 0 {
        phase := 1 - phase;
      }
      if ci % CQ.CQ_BATCH == 0 {
        cqDb := ci % W24;
        cqCiWritten := ci;
        shown := ci;
      }
      assert Ring() == ring && Shadow() == shadow;
    }

    method ConsumeOne(e: CQ.Entry)
      requires Valid() && e == View().cq.Here(c.cg)
      modifies tags, rqBuf, rqShadow, `regs, `aborted, `rqHead, `rqPending, `rqDb, `seqNo
      ensures Valid()
      ensures View().(cq := View().cq.Advance(c.cg)) == Handle(c, old(View()))
    {
      hide Slots, Respond, Reposted;
      if e.body.Is? && e.body.event.Answered? {
        HandleResp(e.body.event);
        ghost var mid := View();
        RespondQueues(c, old(View()), e.body.event);
        RqRepost(e.body.event.k % W16);
        seqNo := seqNo + 1;
      } else {
        regs := regs.(cqeReq := regs.cqeReq + 1);
      }
    }

    /** The entry at ci, and whether it is the one awaited. */
    method Look() returns (e: CQ.Entry, valid: bool)
      requires Valid()
      ensures e == View().cq.Here(c.cg) && valid == View().cq.Fresh(c.cg)
    {
      e := cqBuf[ci % c.cg.cnt];
      valid := e.owner == phase && !e.body.Blank?;
    }

    /** One turn of a polling loop, the poller's or the lone submitter's: a CQE, or an idle flush. */
    method Turn() returns (hit: bool)
      requires Valid()
      modifies this, tags, rqBuf, rqShadow
      ensures Valid() && log == old(log) && Fit(c, old(View()))
      ensures hit == Can(c, old(View()), One)
      ensures View() == Do(c, old(View()), if hit then One else Rest)
    {
      hide Slots, Handle, Settle;
      var e;
      e, hit := Look();
      if hit {
        ConsumeOne(e);
        AdvanceCi();
      } else {
        IdleFlush();
      }
    }

    /**
     * One step of a lock holder that polls for everybody: up to 32 CQEs, then a flush, since the
     * next holder may be long in coming.
     */
    method PollStep() returns (n: nat, ghost ops: seq<Op>)
      requires Valid()
      modifies this, tags, rqBuf, rqShadow
      ensures Valid() && log == old(log) && Fit(c, old(View()))
      ensures |ops| == n + 1 <= 33 && ops[|ops| - 1] == Rest && forall i :: 0 <= i < |ops| - 1 ==> ops[i] == One
      ensures Possible(c, old(View()), ops) && View() == DoAll(c, old(View()), ops)
      ensures n < 32 ==> !View().cq.Fresh(c.cg)
      ensures n == 0 ==> ci == old(ci) && phase == old(phase) && seqNo == old(seqNo)
    {
      hide Slots, Handle, Settle, Possible, DoAll;
      ghost var s := View();
      Nothing(c, s);
      ops := [];
      n := 0;
      var valid := true;
      while n < POLL_STEP && valid
        invariant n == 0 ==> ci == old(ci) && phase == old(phase) && seqNo == old(seqNo)
        invariant Valid() && log == old(log) && n <= POLL_STEP && |ops| == n && forall i :: 0 <= i < n ==> ops[i] == One
        invariant Possible(c, s, ops) && View() == DoAll(c, s, ops)
        invariant !valid ==> !View().cq.Fresh(c.cg)
        decreases POLL_STEP - n, valid
      {
        var e;
        e, valid := Look();
        if valid {
          DoMore(c, s, ops, One);
          ops := ops + [One];
          ConsumeOne(e);
          AdvanceCi();
          n := n + 1;
        }
      }
      DoMore(c, s, ops, Rest);
      ops := ops + [Rest];
      SettleKeeps(View(), c.cg);
      IdleFlush();
    }

    /** The consumer as the shared area and the queues have it, whatever the registers hold. */
    ghost function HeldView(sh: Shared): Side
      reads this, cqBuf, rqBuf, rqShadow, tags, sh
      requires Valid()
    {
      Side(CQ.Cq(cqBuf[..], cqDb, sh.spCi, sh.spPhase, sh.cqCiWritten, shown, log),
           RQ.Rq(Ring(), Shadow(),
                 rqDb, sh.rqHead, sh.rqPending, c.rg.tail0 + sh.spSeq, arrivals, bufs),
           tags[..], sh.regs, aborted)
    }

    /** ps_load, and the three positions. */
    method Load(sh: Shared)
      requires Valid() && sh.spPhase <= 1
      modifies `ci, `phase, `seqNo, `rqHead, `rqPending, `cqCiWritten, `regs
      ensures Valid() && View() == old(HeldView(sh)) && phase == sh.spPhase
      ensures ci == sh.spCi && seqNo == sh.spSeq
    {
      hide Slots;
      ghost var ring, shadow := Ring(), Shadow();
      ci, phase, seqNo := sh.spCi, sh.spPhase, sh.spSeq;
      rqHead, rqPending, cqCiWritten, regs := sh.rqHead, sh.rqPending, sh.cqCiWritten, sh.regs;
      assert Ring() == ring && Shadow() == shadow;
    }

    /** ps_store; the positions only if the step met a CQE. */
    method Store(sh: Shared, n: nat)
      requires Valid() && (n == 0 ==> ci == sh.spCi && phase == sh.spPhase && seqNo == sh.spSeq)
      modifies sh
      ensures Valid() && HeldView(sh) == View() && sh.spPhase <= 1
    {
      hide Slots;
      sh.rqHead, sh.rqPending, sh.cqCiWritten, sh.regs := rqHead, rqPending, cqCiWritten, regs;
      if n > 0 {
        sh.spCi, sh.spPhase, sh.spSeq := ci, phase, seqNo;
      }
    }

    /**
     * A holder of cq_lock takes the consumer over from the shared area, makes its step, and hands
     * it on. What its registers held before does not matter.
     */
    method HeldStep(sh: Shared) returns (ghost ops: seq<Op>)
      requires Valid() && sh.spPhase <= 1
      modifies this, sh, tags, rqBuf, rqShadow
      ensures Valid() && sh.spPhase <= 1 && log == old(log) && Fit(c, old(HeldView(sh)))
      ensures 1 <= |ops| <= 33 && ops[|ops| - 1] == Rest && forall i :: 0 <= i < |ops| - 1 ==> ops[i] == One
      ensures Possible(c, old(HeldView(sh)), ops) && HeldView(sh) == DoAll(c, old(HeldView(sh)), ops)
    {
      hide Slots, Possible, DoAll;
      Load(sh);
      label L:
      var n;
      n, ops := PollStep();
      Store(sh, n);
    }

    /** What the NIC's next CQE finds: room by the CQ dbrec and, for a response, the recv it names. */
    method NicMay(e: CQ.Event) returns (may: bool)
      requires Valid()
      ensures Fit(c, View()) && (may <==> Can(c, View(), Arrive(e)))
    {
      hide Slots;
      var taken := c.rg.tail0 + |arrivals|;
      may := ((c.cg.ci0 + |log|) % W24 - cqDb) % W24 < c.cg.cnt;
      if may && e.Answered? {
        may := (rqDb - taken % W16) % W16 != 0 && e.k == taken;
      }
    }

    /** The NIC writes one CQE, and the recv buffer of a response it does not scatter into it. */
    method NicWrites(e: CQ.Event)
      requires Valid() && Fit(c, View()) && Can(c, View(), Arrive(e))
      modifies cqBuf, `log, `arrivals, `bufs
      ensures Valid() && Fit(c, old(View())) && View() == Do(c, old(View()), Arrive(e)) && log == old(log) + [e]
    {
      hide Slots;
      var p := c.cg.ci0 + |log|;
      if e.Answered? {
        if !e.arrival.inlined {
          var b := Descriptor((c.rg.tail0 + |arrivals|) % c.rg.cnt);
          bufs := bufs[b := e.arrival.rsp];
        }
        arrivals := arrivals + [e.arrival];
      }
      cqBuf[p % c.cg.cnt] := CQ.Entry((p / c.cg.cnt) % 2, CQ.Is(e));
      log := log + [e];
    }

    /** The CQEs the NIC has for a turn, as far as it may write them. */
    method NicTurn(ghost t0: Tally, es: seq<CQ.Event>, ghost s: Side, ghost ops: seq<Op>)
      returns (ghost more: seq<Op>)
      requires Valid() && Fit(c, s) && InStep(c, t0, View()) && Possible(c, s, ops) && View() == DoAll(c, s, ops)
      modifies cqBuf, `log, `arrivals, `bufs
      ensures Valid() && old(log) <= log && InStep(c, t0, View())
      ensures Possible(c, s, more) && View() == DoAll(c, s, more)
    {
      hide Slots, Possible, DoAll, InStep, Can, Do;
      more := ops;
      for k := 0 to |es|
        invariant Valid() && old(log) <= log && InStep(c, t0, View())
        invariant Possible(c, s, more) && View() == DoAll(c, s, more)
      {
        var may := NicMay(es[k]);
        if may {
          DoMore(c, s, more, Arrive(es[k]));
          ArriveInStep(c, t0, View(), es[k]);
          more := more + [Arrive(es[k])];
          NicWrites(es[k]);
        }
      }
    }

    /**
     * The poller on its own, from one look at the CQ to the next, while the NIC writes what it
     * has for the turn if it may: until all jobs are counted, or a cid is refused, or nothing has
     * come for too long.
     */
    method Poll(ghost t0: Tally, nic: seq<seq<CQ.Event>>) returns (timedOut: bool, ghost ops: seq<Op>)
      requires Valid() && Fit(c, View()) && InStep(c, t0, View())
      modifies this, tags, cqBuf, rqBuf, rqShadow
      ensures Valid() && old(log) <= log
      ensures Possible(c, old(View()), ops) && View() == DoAll(c, old(View()), ops)
      ensures InStep(c, t0, View())
      ensures !aborted ==> Caught(c, View()) && (timedOut <==> regs.doneCnt < c.njobs)
    {
      hide Slots, Handle, Settle, Possible, DoAll, InStep, Caught, Do, Can, Fit;
      ghost var s := View();
      Nothing(c, s);
      ops := [];
      timedOut := false;
      var i, going := 0, !aborted;
      while going
        invariant Valid() && old(log) <= log && InStep(c, t0, View()) && i <= |nic|
        invariant Possible(c, s, ops) && View() == DoAll(c, s, ops)
        invariant going ==> !aborted && !timedOut
        invariant !going && !aborted ==> Caught(c, View()) && (timedOut <==> regs.doneCnt < c.njobs)
        decreases going, |nic| - i, c.cg.ci0 + |log| - ci
      {
        var turn := i < |nic|;
        if turn {
          ops := NicTurn(t0, nic[i], s, ops);
          i := i + 1;
        }
        InStepFits(c, t0, View());
        DoMore(c, s, ops, One);
        DoMore(c, s, ops, Rest);
        Looked(c, t0, View());
        var hit := Turn();
        ops := ops + [if hit then One else Rest];
        if hit {
          going := !aborted;
        } else if regs.doneCnt >= c.njobs {
          going := false;
        } else if !turn {
          timedOut, going := true, false;
        }
      }
      InStepFits(c, t0, View());
      DoMore(c, s, ops, Rest);
      ops := ops + [Rest];
      RestIs(c, t0, View());
      IdleFlush();
    }
  }

  /** After a look: the CQE at ci handled, or everything caught up and only flushed. */
  lemma Looked(c: Config, t0: Tally, s: Side)
    requires InStep(c, t0, s)
    ensures Fit(c, s) && Can(c, s, Rest)
    ensures Can(c, s, One) ==>
              var s' := Do(c, s, One);
              InStep(c, t0, s') && s.cq.ci < c.cg.ci0 + |s.cq.log| && s'.cq.ci == s.cq.ci + 1 && s'.cq.log == s.cq.log
    ensures !Can(c, s, One) ==>
              var s' := Do(c, s, Rest);
              InStep(c, t0, s') && Caught(c, s') && s'.regs == s.regs && s'.aborted == s.aborted
  {
    hide InStep, Handle, Settle;
    InStepFits(c, t0, s);
    if s.cq.Fresh(c.cg) {
      OneInStep(c, t0, s);
      InPlace(c, t0, s);
    } else {
      IdleInStep(c, t0, s);
      AtEnd(c, t0, s);
      SettleKeeps(s, c.cg);
    }
  }

  lemma RestIs(c: Config, t0: Tally, s: Side)
    requires InStep(c, t0, s)
    ensures Fit(c, s) && Do(c, s, Rest) == Settle(s) && InStep(c, t0, Settle(s))
    ensures Settle(s).regs == s.regs && Settle(s).aborted == s.aborted && (Caught(c, s) ==> Caught(c, Settle(s)))
    ensures Can(c, s, Rest)
  {
    hide InStep;
    InStepFits(c, t0, s);
    IdleInStep(c, t0, s);
  }

  lemma Nothing(c: Config, s: Side)
    requires Fit(c, s)
    ensures Possible(c, s, []) && DoAll(c, s, []) == s
  {}

  lemma SettleKeeps(s: Side, g: CQ.CqGeo)
    requires g.cnt > 0 && |s.cq.entries| == g.cnt
    ensures Settle(s).cq.Fresh(g) == s.cq.Fresh(g) && Settle(s).cq.ci == s.cq.ci && Settle(s).cq.log == s.cq.log
    ensures Settle(s).aborted == s.aborted && Settle(s).regs == s.regs
  {}

  lemma InPlace(c: Config, t0: Tally, s: Side)
    requires InStep(c, t0, s) && s.cq.Fresh(c.cg)
    ensures s.cq.ci < c.cg.ci0 + |s.cq.log| && Handle(c, s).cq.ci == s.cq.ci + 1
    ensures Handle(c, s).cq.log == s.cq.log
  {
    CQ.FreshExact(c.cg, s.cq);
  }

  lemma AtEnd(c: Config, t0: Tally, s: Side)
    requires Fit(c, s) && InStep(c, t0, s) && !s.cq.Fresh(c.cg)
    ensures Caught(c, s)
  {
    CQ.FreshExact(c.cg, s.cq);
  }

  lemma RespondQueues(c: Config, s: Side, e: CQ.Event)
    requires Fit(c, s) && e.Answered?
    ensures Respond(c, s, e).rq == s.rq && Respond(c, s, e).cq == s.cq
  {}

  function Offset(k: nat, w: nat): nat { k * w }

  lemma Offsets(k: nat, h: nat, n: nat, w: nat)
    requires k < n && h < n
    ensures (k + 1) * w <= n * w && (h + 1) * w <= n * w
    ensures var d, s := Offset(h, w), Offset(k, w);
            d + w <= n * w && s + w <= n * w && (d == s || d + w <= s || s + w <= d)
  {
    InBounds(k, n, w);
    InBounds(h, n, w);
    if k != h { Apart(k, h, w); }
  }

  lemma WordsAre(a: seq<nat>, w: nat, k: nat)
    requires (k + 1) * w <= |a|
    ensures Offset(k, w) + w <= |a| && Words(a, w, k) == a[Offset(k, w)..Offset(k, w) + w]
  {}

  lemma Copied(r0: seq<nat>, s0: seq<nat>, r1: seq<nat>, s1: seq<nat>, w: nat, n: nat, id: seq<nat> -> nat,
               k: nat, h: nat, v: seq<nat>)
    requires |r0| == |s0| == |r1| == |s1| == n * w && k < n && h < n
    requires (k + 1) * w <= |s0| && v == Words(s0, w, k) && Offset(h, w) + w <= |s0|
    requires r1 == Splice(r0, Offset(h, w), v) && s1 == Splice(s0, Offset(h, w), v)
    ensures Slots(r1, w, n, id) == Slots(r0, w, n, id)[h := Slots(s0, w, n, id)[k]]
    ensures Slots(s1, w, n, id) == Slots(s0, w, n, id)[h := Slots(s0, w, n, id)[k]]
  {
    hide Slots, Splice, Words;
    SlotsAt(s0, w, n, id, k);
    SlotsUpdate(r0, r1, w, n, id, h, v);
    SlotsUpdate(s0, s1, w, n, id, h, v);
  }

  /** Word by word: read from the shadow, write to the ring and to the shadow. */
  method CopyWords(ring: array<nat>, shadow: array<nat>, d: nat, s: nat, w: nat, ghost v: seq<nat>)
    requires ring != shadow && ring.Length == shadow.Length
    requires d + w <= shadow.Length && s + w <= shadow.Length && (d == s || d + w <= s || s + w <= d)
    requires v == shadow[s..s + w]
    modifies ring, shadow
    ensures ring[..] == Splice(old(ring[..]), d, v) && shadow[..] == Splice(old(shadow[..]), d, v)
  {
    hide Splice;
    ghost var r0, s0 := ring[..], shadow[..];
    assert v == s0[s..s + w];
    var i := 0;
    NoWords(r0, d, v[..0]);
    NoWords(s0, d, v[..0]);
    while i < w
      invariant i <= w
      invariant ring[..] == Splice(r0, d, v[..i]) && shadow[..] == Splice(s0, d, v[..i])
    {
      ReadThrough(s0, d, s, w, i);
      var x := shadow[s + i];
      assert shadow[..][s + i] == x == v[i];
      ring[d + i] := x;
      shadow[d + i] := x;
      OneWordMore(r0, d, v, i);
      OneWordMore(s0, d, v, i);
      assert ring[..] == Splice(r0, d, v[..i])[d + i := x] && shadow[..] == Splice(s0, d, v[..i])[d + i := x];
      i := i + 1;
    }
    assert v[..w] == v;
  }

  lemma NoWords(m: seq<nat>, d: nat, v: seq<nat>)
    requires d <= |m| && v == []
    ensures Splice(m, d, v) == m
  {}

  /** The consumed slot still reads as it did: it is either apart from the head's slot, or the same. */
  lemma ReadThrough(m: seq<nat>, d: nat, s: nat, w: nat, i: nat)
    requires d + w <= |m| && s + w <= |m| && i < w && (d == s || d + w <= s || s + w <= d)
    ensures Splice(m, d, m[s..s + w][..i])[s + i] == m[s..s + w][i]
  {}

  lemma OneWordMore(m: seq<nat>, d: nat, v: seq<nat>, i: nat)
    requires d + |v| <= |m| && i < |v|
    ensures Splice(m, d, v[..i])[d + i := v[i]] == Splice(m, d, v[..i + 1])
  {}
}
