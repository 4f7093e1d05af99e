/** What the host does before launch: the QD clamps, in unsigned 32-bit, and the job slices. */
module HostPlan {
  import opened Arith
  import opened Protocol
  import opened Invariant
  import opened Runs
  import opened Safety
  import Audit
  import SQ = SendQueue
  import CQ = CompletionQueue
  import RQ = RecvQueue

  const W32: nat := 0x1_0000_0000

  function U32(x: int): nat { x % W32 }

  lemma Wraps(x: int)
    requires 0 <= x + W32 && x < W32
    ensures U32(x) == if x < 0 then x + W32 else x
  {}

  /** Some submitter runs, the batched re-post leaves recvs over, the lazy counter leaves CQEs. */
  predicate Usable(qd: nat, rqPosted: nat, cqeCnt: nat) {
    1 <= qd && qd + 1 + RQ.RQ_BATCH <= rqPosted && 2 * qd + CQ.CQ_BATCH < cqeCnt
  }

  /**
   * main lowers QD in place, batched re-post (0x1000) and lazy counter (0x2000) on. The result
   * is the largest usable depth, except on queues so small that the unsigned bounds wrap round.
   */
  method LowerQd(asked: nat, rqPosted: nat, cqeCnt: nat) returns (qd: nat)
    requires 1 <= asked <= 127 && 2 <= rqPosted < W16 && Pow2(cqeCnt) && 2 * cqeCnt <= W24
    ensures Usable(qd, rqPosted, cqeCnt) <==> rqPosted > 1 + RQ.RQ_BATCH && cqeCnt > CQ.CQ_BATCH
    ensures Usable(qd, rqPosted, cqeCnt) ==>
              qd <= asked && forall d :: qd < d <= asked ==> !Usable(d, rqPosted, cqeCnt)
  {
    Pow2Small(cqeCnt);
    Wraps(rqPosted - 1 - RQ.RQ_BATCH);
    Wraps(cqeCnt - CQ.CQ_BATCH);
    qd := asked;
    if qd >= rqPosted {
      qd := rqPosted - 1;
    }
    if qd > U32(rqPosted - 1 - RQ.RQ_BATCH) {
      qd := U32(rqPosted - 1 - RQ.RQ_BATCH);
    }
    Wraps(2 * qd + CQ.CQ_BATCH);
    Wraps(U32(cqeCnt - CQ.CQ_BATCH) / 2 - 1);
    if U32(2 * qd + CQ.CQ_BATCH) >= cqeCnt {
      qd := U32(U32(cqeCnt - CQ.CQ_BATCH) / 2 - 1);
    }
  }

  lemma Pow2Small(n: nat)
    requires Pow2(n)
    ensures n > 32 ==> n >= 64 && n % 2 == 0
    ensures n <= 32 ==> n in {1, 2, 4, 8, 16, 32}
  {
    if n < 64 {
      assert Pow2(n) && (n > 1 ==> Pow2(n / 2)) && (n > 3 ==> Pow2(n / 4)) && (n > 7 ==> Pow2(n / 8));
      assert n > 15 ==> Pow2(n / 16);
      assert n > 31 ==> Pow2(n / 32);
    }
  }

  /** A usable depth meets both clamps of the protocol when takeover lost at most one recv. */
  lemma UsableClamps(c: Config, rqPosted: nat)
    requires Usable(c.qd, rqPosted, c.cg.cnt) && rqPosted - 1 <= |c.rg.first|
    ensures RqClamp(c) && CqClamp(c)
  {}

  const MAX_QD: nat := 127        // the option parser's limit
  const DEVX_CNT: nat := 512      // entries of a DevX SQ, and of its CQ

  /** QD commands fit the SQ exactly when their blocks do. */
  lemma SqFits(g: SQ.SqGeo, qd: nat)
    requires g.bb == 1 || g.bb == 2
    ensures g.At(qd) <= g.pi0 + g.cnt <==> qd * g.bb <= g.cnt
  {}

  /**
   * On queues the program makes itself a usable depth leaves nothing open: one- or two-block
   * entries of QD commands fit the SQ, and both clamps hold.
   */
  lemma DevxLaunchable(c: Config, rqPosted: nat)
    requires c.sg.cnt == c.cg.cnt == DEVX_CNT && (c.sg.bb == 1 || c.sg.bb == 2) && c.rg.Valid()
    requires c.qd <= MAX_QD && Usable(c.qd, rqPosted, c.cg.cnt) && rqPosted - 1 <= |c.rg.first|
    ensures c.Valid() && RqClamp(c) && CqClamp(c)
  {
    SqFits(c.sg, c.qd);
    Pow2Double(1); Pow2Double(2); Pow2Double(4); Pow2Double(8);
    Pow2Double(16); Pow2Double(32); Pow2Double(64); Pow2Double(128); Pow2Double(256);
  }

  // ---- job slices ----

  datatype Slice = Slice(jobBase: nat, njobs: nat)

  function Bound(rounds: nat, nq: nat, q: nat): nat
    requires nq > 0
  {
    rounds * q / nq
  }

  /** The slices, in order, tile 0..rounds. */
  predicate Tiles(s: seq<Slice>, rounds: nat) {
    && |s| > 0 && s[0].jobBase == 0 && s[|s| - 1].jobBase + s[|s| - 1].njobs == rounds
    && forall q :: 0 < q < |s| ==> s[q].jobBase == s[q - 1].jobBase + s[q - 1].njobs
  }

  method FillSlices(ctxs: array<Slice>, nq: nat, rounds: nat)
    requires 0 < nq <= 16 && nq <= ctxs.Length && rounds < W32
    modifies ctxs
    ensures Tiles(ctxs[..nq], rounds)
    ensures forall q :: 0 <= q < nq ==> Even(rounds, nq, ctxs[q].njobs)
    ensures ctxs[nq..] == old(ctxs[nq..])
  {
    hide Bound, SliceOf, Tiles, Even;
    var q := 0;
    while q < nq
      invariant q <= nq
      invariant forall p :: 0 <= p < q ==> ctxs[p] == SliceOf(rounds, nq, p)
      invariant ctxs[nq..] == old(ctxs[nq..])
    {
      var s := OneSlice(rounds, nq, q);
      ctxs[q] := s;
      q := q + 1;
    }
    SlicesTile(ctxs[..nq], nq, rounds);
    SlicesEven(ctxs[..nq], nq, rounds);
    assert forall p :: 0 <= p < nq ==> ctxs[..nq][p] == ctxs[p];
  }

  lemma SlicesEven(s: seq<Slice>, nq: nat, rounds: nat)
    requires 0 < nq == |s| && forall q :: 0 <= q < nq ==> s[q] == SliceOf(rounds, nq, q)
    ensures forall q :: 0 <= q < nq ==> Even(rounds, nq, s[q].njobs)
  {
    hide SliceOf;
    forall q | 0 <= q < nq ensures Even(rounds, nq, s[q].njobs) {
      SliceSize(rounds, nq, q);
    }
  }

  /** No slice is larger than another by more than one job. */
  predicate Even(rounds: nat, nq: nat, n: nat)
    requires nq > 0
  {
    rounds / nq <= n <= rounds / nq + 1
  }

  method OneSlice(rounds: nat, nq: nat, q: nat) returns (s: Slice)
    requires nq > 0
    ensures s == SliceOf(rounds, nq, q)
  {
    hide SliceOf;
    var lo := rounds * q / nq;
    var hi := rounds * (q + 1) / nq;
    SliceIs(rounds, nq, q, lo, hi);
    s := Slice(lo, hi - lo);
  }

  lemma SliceSize(rounds: nat, nq: nat, q: nat)
    requires nq > 0
    ensures rounds / nq <= SliceOf(rounds, nq, q).njobs <= rounds / nq + 1
  {
    Spread(rounds, nq, q);
  }

  function SliceOf(rounds: nat, nq: nat, q: nat): Slice
    requires nq > 0
  {
    Spread(rounds, nq, q);
    Slice(Bound(rounds, nq, q), Bound(rounds, nq, q + 1) - Bound(rounds, nq, q))
  }

  lemma SliceIs(rounds: nat, nq: nat, q: nat, lo: nat, hi: nat)
    requires nq > 0 && lo == rounds * q / nq && hi == rounds * (q + 1) / nq
    ensures lo <= hi && Slice(lo, hi - lo) == SliceOf(rounds, nq, q)
  {
    Spread(rounds, nq, q);
  }

  lemma SlicesTile(s: seq<Slice>, nq: nat, rounds: nat)
    requires 0 < nq == |s| && forall q :: 0 <= q < nq ==> s[q] == SliceOf(rounds, nq, q)
    ensures Tiles(s, rounds)
  {
    DivModUnique(rounds * 0, nq, 0, 0);
    DivModUnique(rounds * nq, nq, rounds, 0);
    assert Bound(rounds, nq, 0) == 0 && Bound(rounds, nq, nq) == rounds;
  }

  lemma Spread(rounds: nat, nq: nat, q: nat)
    requires nq > 0
    ensures rounds / nq <= Bound(rounds, nq, q + 1) - Bound(rounds, nq, q) <= rounds / nq + 1
  {
    var k, r := rounds / nq, rounds % nq;
    var a, b := rounds * q, rounds * (q + 1);
    assert b == a + rounds;
    assert a == a / nq * nq + a % nq;
    var t := a % nq + r;
    assert b == (a / nq + k) * nq + t;
    if t < nq {
      DivModUnique(b, nq, a / nq + k, t);
    } else {
      DivModUnique(b, nq, a / nq + k + 1, t - nq);
    }
  }

  /** The queue pair a global job belongs to. */
  predicate Owns(s: seq<Slice>, q: nat, J: nat) {
    q < |s| && s[q].jobBase <= J < s[q].jobBase + s[q].njobs
  }

  lemma {:induction false} BasesGrow(s: seq<Slice>, rounds: nat, p: nat, q: nat)
    requires Tiles(s, rounds) && p < q < |s|
    ensures s[p].jobBase + s[p].njobs <= s[q].jobBase
  {
    if p + 1 < q {
      BasesGrow(s, rounds, p, q - 1);
    }
  }

  lemma {:induction false} OwnerExists(s: seq<Slice>, rounds: nat, J: nat, q: nat)
    requires Tiles(s, rounds) && q < |s| && J < s[q].jobBase + s[q].njobs
    ensures exists p :: Owns(s, p, J)
  {
    if J >= s[q].jobBase {
      assert Owns(s, q, J);
    } else {
      OwnerExists(s, rounds, J, q - 1);
    }
  }

  /** Every global job lies in the slice of exactly one queue pair. */
  lemma OneOwner(s: seq<Slice>, rounds: nat, J: nat)
    requires Tiles(s, rounds) && J < rounds
    ensures exists q :: Owns(s, q, J)
    ensures forall p, q :: Owns(s, p, J) && Owns(s, q, J) ==> p == q
  {
    OwnerExists(s, rounds, J, |s| - 1);
    forall p, q | Owns(s, p, J) && Owns(s, q, J)
      ensures p == q
    {
      if p < q {
        BasesGrow(s, rounds, p, q);
      } else if q < p {
        BasesGrow(s, rounds, q, p);
      }
    }
  }

  // ---- all queue pairs together ----

  /** What one finished queue pair says of one of its jobs. */
  predicate Settles(e: State, j: nat, p: nat) {
    AnswersJob(e, j, p) && j < |e.stat| && e.cq.log[p].arrival.rsp.status == e.stat[j]
  }

  lemma QpSettles(c: Config, ss: seq<State>, acts: seq<Act>, j: nat)
    requires Run(c, ss, acts) && j < c.njobs && Audit.Finished(c, ss[|acts|])
    ensures exists p: nat :: Settles(ss[|acts|], j, p)
    ensures forall p: nat, p': nat ::
              Settles(ss[|acts|], j, p) && Settles(ss[|acts|], j, p') ==> p == p'
  {
    var e := ss[|acts|];
    ExactlyOnce(c, ss, acts, |acts|, j);
    hide Run;
    var p: nat :| AnswersJob(e, j, p) && e.cq.log[p].arrival.rsp.status == e.stat[j];
    assert Settles(e, j, p);
  }

  /** The launch: one independent run per queue pair, over its own slice, to its end. */
  ghost predicate Launch(s: seq<Slice>, rounds: nat, cs: seq<Config>, runs: seq<seq<State>>,
                         acts: seq<seq<Act>>)
  {
    && Tiles(s, rounds) && |cs| == |runs| == |acts| == |s|
    && forall q :: 0 <= q < |s| ==>
         && cs[q].njobs == s[q].njobs && Run(cs[q], runs[q], acts[q])
         && Audit.Finished(cs[q], runs[q][|acts[q]|])
  }

  /** The CQE at place p of queue pair q answers global job J, with the status recorded for it. */
  ghost predicate SettlesJob(s: seq<Slice>, runs: seq<seq<State>>, acts: seq<seq<Act>>,
                             q: nat, J: nat, p: nat)
    requires |runs| == |acts| == |s|
  {
    Owns(s, q, J) && |acts[q]| < |runs[q]|
    && Settles(runs[q][|acts[q]|], J - s[q].jobBase, p)
  }

  /**
   * Over all queue pairs, a launch that ends without abort leaves in every global job's entry
   * the status of the one response, of the one queue pair, that answers it.
   */
  lemma AllJobsOnce(s: seq<Slice>, rounds: nat, cs: seq<Config>, runs: seq<seq<State>>,
                    acts: seq<seq<Act>>, J: nat)
    requires Launch(s, rounds, cs, runs, acts) && J < rounds
    ensures exists q: nat, p: nat :: SettlesJob(s, runs, acts, q, J, p)
    ensures forall q: nat, p: nat, q': nat, p': nat ::
              SettlesJob(s, runs, acts, q, J, p) && SettlesJob(s, runs, acts, q', J, p')
              ==> q == q' && p == p'
  {
    OneOwner(s, rounds, J);
    var q: nat :| Owns(s, q, J);
    assert cs[q].njobs == s[q].njobs && Run(cs[q], runs[q], acts[q]);
    hide Run, Settles;
    QpSettles(cs[q], runs[q], acts[q], J - s[q].jobBase);
    RunLength(cs[q], runs[q], acts[q]);
    var p: nat :| Settles(runs[q][|acts[q]|], J - s[q].jobBase, p);
    assert SettlesJob(s, runs, acts, q, J, p);
  }

  lemma RunLength(c: Config, ss: seq<State>, acts: seq<Act>)
    requires Run(c, ss, acts)
    ensures |ss| == |acts| + 1
  {}
}
