/**
 * The receive queue: descriptors the consumer hands back from its shadow ring, and the
 * buffers the NIC fills. Counters are unbounded; doorbell records and slots are views.
 */
module RecvQueue {
  import opened Arith

  const RQ_BATCH: nat := 16

  /** Second half of an NVMe completion: bytes 12..15. */
  datatype Rsp = Rsp(cid: nat, status: nat)

  /** One response as the NIC delivered it: scattered into the CQE, or into the recv buffer. */
  datatype Arrival = Arrival(inlined: bool, rsp: Rsp)

  /** What takeover finds: ring size, count of consumed recvs, buffers of the posted window. */
  datatype Geo = Geo(cnt: nat, tail0: nat, first: seq<nat>) {
    ghost predicate Valid() {
      && Pow2(cnt) && cnt < W16
      && 1 <= |first| <= cnt
      && forall i, j :: 0 <= i < j < |first| ==> first[i] != first[j]
    }

    /** The buffer the recv with count k uses, for every k the run can reach. */
    function Desc(k: nat): nat
      requires |first| > 0 && tail0 <= k
    {
      first[(k - tail0) % |first|]
    }
  }

  datatype Rq = Rq(
    ring: seq<nat>,            // descriptors in the NIC's ring
    shadow: seq<nat>,          // the consumer's copy
    db: nat,                   // dbrec[0], 16 bits
    head: nat,                 // rq_head
    pending: nat,              // rq_pending
    tail: nat,                 // rq_tail + seq: next recv to be handled
    arrivals: seq<Arrival>,    // what the NIC consumed so far, oldest first
    bufs: map<nat, Rsp>)       // recv buffers the NIC has written
  {
    function Taken(g: Geo): nat { g.tail0 + |arrivals| }

    /** The NIC's own test: is there a posted recv below the doorbell record? */
    predicate CanTake(g: Geo) { (db - Taken(g) % W16) % W16 != 0 }

    function Slot(g: Geo, k: nat): nat
      requires g.cnt > 0
    {
      k % g.cnt
    }

    function Take(g: Geo, a: Arrival): Rq
      requires g.cnt > 0 && |ring| == g.cnt
    {
      this.(arrivals := arrivals + [a],
            bufs := if a.inlined then bufs else bufs[ring[Slot(g, Taken(g))] := a.rsp])
    }

    function WriteRing(g: Geo, v: nat): Rq
      requires g.cnt > 0 && |ring| == g.cnt
    {
      this.(ring := ring[Slot(g, head) := v])
    }

    function WriteShadow(g: Geo, v: nat): Rq
      requires g.cnt > 0 && |shadow| == g.cnt
    {
      this.(shadow := shadow[Slot(g, head) := v], head := head + 1, pending := pending + 1)
    }

    function Flush(): Rq {
      if pending == 0 then this else this.(db := head % W16, pending := 0)
    }

    function Next(): Rq { this.(tail := tail + 1) }
  }

  function Start(g: Geo, ring: seq<nat>): Rq {
    Rq(ring, ring, (g.tail0 + |g.first|) % W16, g.tail0 + |g.first|, 0, g.tail0, [], map[])
  }

  /**
   * `extra` is 1 between the re-post of a descriptor and the step to the next recv. The
   * window holds exactly the takeover descriptors, rotated, in the ring and in the shadow,
   * and every unhandled response that went to a buffer is still in it.
   */
  ghost predicate Good(g: Geo, q: Rq, extra: nat) {
    && g.Valid()
    && |q.ring| == |q.shadow| == g.cnt
    && g.tail0 <= q.tail <= q.Taken(g) <= q.head - q.pending
    && q.head == q.tail + |g.first| + extra && extra <= 1
    && q.pending <= RQ_BATCH
    && (extra == 1 ==> q.tail < q.Taken(g))
    && q.db == (q.head - q.pending) % W16
    && (forall k :: q.tail <= k < q.head ==>
          q.ring[q.Slot(g, k)] == g.Desc(k) && q.shadow[q.Slot(g, k)] == g.Desc(k))
    && Held(g, q.arrivals, q.bufs, q.tail + extra)
  }

  /** Every unhandled response that was not scattered into its CQE is still in its buffer. */
  ghost predicate Held(g: Geo, arrivals: seq<Arrival>, bufs: map<nat, Rsp>, tail: nat)
    requires |g.first| > 0 && g.tail0 <= tail
  {
    forall k :: tail <= k < g.tail0 + |arrivals| && !arrivals[k - g.tail0].inlined ==>
      g.Desc(k) in bufs && bufs[g.Desc(k)] == arrivals[k - g.tail0].rsp
  }

  lemma StartGood(g: Geo, ring: seq<nat>)
    requires g.Valid() && |ring| == g.cnt
    requires forall i :: 0 <= i < |g.first| ==> ring[(g.tail0 + i) % g.cnt] == g.first[i]
    ensures Good(g, Start(g, ring), 0)
  {
    var q := Start(g, ring);
    forall k | q.tail <= k < q.head
      ensures q.ring[q.Slot(g, k)] == g.Desc(k)
    {
      var i := k - g.tail0;
      DivModUnique(i, |g.first|, 0, i);
      assert ring[(g.tail0 + i) % g.cnt] == g.first[i];
    }
  }

  lemma DescPeriodic(g: Geo, k: nat)
    requires |g.first| > 0 && g.tail0 <= k
    ensures g.Desc(k + |g.first|) == g.Desc(k)
  {
    SlotShift(k - g.tail0, |g.first|);
  }

  lemma DescDistinct(g: Geo, a: nat, b: nat)
    requires g.Valid() && g.tail0 <= a < b < a + |g.first|
    ensures g.Desc(a) != g.Desc(b)
  {
    SlotsDiffer(a - g.tail0, b - g.tail0, |g.first|);
  }

  /** The 16-bit test the NIC makes says exactly whether a posted recv is left. */
  lemma CanTakeExact(g: Geo, q: Rq, extra: nat)
    requires Good(g, q, extra)
    ensures q.CanTake(g) <==> q.Taken(g) < q.head - q.pending
  {
    DiffView(q.Taken(g), q.head - q.pending, W16);
  }

  lemma HeldExtends(g: Geo, arrivals: seq<Arrival>, bufs: map<nat, Rsp>, tail: nat, a: Arrival)
    requires g.Valid() && g.tail0 <= tail <= g.tail0 + |arrivals| < tail + |g.first|
    requires Held(g, arrivals, bufs, tail)
    ensures Held(g, arrivals + [a],
                 if a.inlined then bufs else bufs[g.Desc(g.tail0 + |arrivals|) := a.rsp], tail)
  {
    var t := g.tail0 + |arrivals|;
    forall k | tail <= k < t && !arrivals[k - g.tail0].inlined
      ensures g.Desc(k) != g.Desc(t)
    {
      DescDistinct(g, k, t);
    }
  }

  lemma TakeGood(g: Geo, q: Rq, extra: nat, a: Arrival)
    requires Good(g, q, extra) && q.CanTake(g)
    ensures Good(g, q.Take(g, a), extra)
  {
    CanTakeExact(g, q, extra);
    var t := q.Taken(g);
    assert q.ring[q.Slot(g, t)] == g.Desc(t);
    HeldExtends(g, q.arrivals, q.bufs, q.tail + extra, a);
  }

  /** Reading through the ring slot named by wqe_counter yields the response that came in it. */
  lemma ReadBack(g: Geo, q: Rq, extra: nat, k: nat)
    requires Good(g, q, extra) && q.tail + extra <= k < q.Taken(g) && !q.arrivals[k - g.tail0].inlined
    ensures g.cnt > 0
    ensures q.ring[(k % W16) % g.cnt] in q.bufs
    ensures q.bufs[q.ring[(k % W16) % g.cnt]] == q.arrivals[k - g.tail0].rsp
  {
    ViewSlot(g, k);
    assert q.ring[q.Slot(g, k)] == g.Desc(k);
  }

  /** A 16-bit counter names the same slot as the unbounded one. */
  lemma ViewSlot(g: Geo, k: nat)
    requires g.Valid()
    ensures (k % W16) % g.cnt == k % g.cnt
  {
    Pow2Widths();
    Pow2Divides(g.cnt, W16);
    ModMod(k, W16, g.cnt);
  }

  lemma WriteRingGood(g: Geo, q: Rq)
    requires Good(g, q, 0) && q.tail < q.Taken(g)
    ensures q.shadow[q.Slot(g, q.tail)] == g.Desc(q.head)
    ensures Good(g, q.WriteRing(g, g.Desc(q.head)), 0)
  {
    DescPeriodic(g, q.tail);
    var q' := q.WriteRing(g, g.Desc(q.head));
    forall k | q.tail <= k < q.head
      ensures q'.ring[q.Slot(g, k)] == g.Desc(k)
    {
      if k + g.cnt != q.head {
        SlotsDiffer(k, q.head, g.cnt);
      }
    }
  }

  lemma WriteShadowGood(g: Geo, q: Rq)
    requires Good(g, q, 0) && q.tail < q.Taken(g) && q.pending < RQ_BATCH
    requires q.ring[q.Slot(g, q.head)] == g.Desc(q.head)
    ensures Good(g, q.WriteShadow(g, g.Desc(q.head)), 1)
  {
    DescPeriodic(g, q.tail);
    var q' := q.WriteShadow(g, g.Desc(q.head));
    forall k | q.tail <= k < q'.head
      ensures q'.ring[q.Slot(g, k)] == g.Desc(k) && q'.shadow[q.Slot(g, k)] == g.Desc(k)
    {
      if k < q.head && k + g.cnt != q.head {
        SlotsDiffer(k, q.head, g.cnt);
      }
    }
  }

  lemma FlushGood(g: Geo, q: Rq, extra: nat)
    requires Good(g, q, extra)
    ensures Good(g, q.Flush(), extra) && q.Flush().pending == 0
    ensures q.Flush().db == q.head % W16
  {}

  lemma NextGood(g: Geo, q: Rq)
    requires Good(g, q, 1)
    ensures Good(g, q.Next(), 0)
  {}

  // ---- conservation of recv buffers ----

  /** The descriptors of posted or unhandled recvs, oldest first, as the NIC's ring has them. */
  ghost function Window(g: Geo, q: Rq): seq<nat>
    requires Good(g, q, 0)
  {
    seq(|g.first|, i requires 0 <= i < |g.first| => q.ring[q.Slot(g, q.tail + i)])
  }

  function Rotated(xs: seq<nat>, o: nat): seq<nat>
    requires o <= |xs|
  {
    xs[o..] + xs[..o]
  }

  lemma RotatedAt(xs: seq<nat>, a: nat, i: nat)
    requires i < |xs|
    ensures xs[(a + i) % |xs|] == Rotated(xs, a % |xs|)[i]
  {
    var n := |xs|;
    var o := a % n;
    AddMod(a, o, i, n) by { DivModUnique(o, n, 0, o); }
    if o + i < n {
      DivModUnique(o + i, n, 0, o + i);
    } else {
      DivModUnique(o + i, n, 1, o + i - n);
    }
  }

  /** No descriptor is lost, doubled or invented: the window is the takeover window, rotated. */
  lemma WindowConserved(g: Geo, q: Rq)
    requires Good(g, q, 0)
    ensures multiset(Window(g, q)) == multiset(g.first)
    ensures forall i, j :: 0 <= i < j < |g.first| ==> Window(g, q)[i] != Window(g, q)[j]
  {
    var w := Window(g, q);
    var o := (q.tail - g.tail0) % |g.first|;
    WindowIsRotation(g, q, w);
    assert g.first == g.first[..o] + g.first[o..];
    forall i, j | 0 <= i < j < |g.first|
      ensures w[i] != w[j]
    {
      assert w[i] == g.Desc(q.tail + i) && w[j] == g.Desc(q.tail + j);
      DescDistinct(g, q.tail + i, q.tail + j);
    }
  }

  lemma WindowIsRotation(g: Geo, q: Rq, w: seq<nat>)
    requires Good(g, q, 0) && w == Window(g, q)
    ensures w == Rotated(g.first, (q.tail - g.tail0) % |g.first|)
  {
    forall i | 0 <= i < |g.first|
      ensures w[i] == Rotated(g.first, (q.tail - g.tail0) % |g.first|)[i]
    {
      assert w[i] == g.Desc(q.tail + i);
      RotatedAt(g.first, q.tail - g.tail0, i);
    }
  }
}
