/**
 * The send queue: WQEs of one or two WQEBBs in a ring, fetched by the NIC in counter order
 * below dbrec[1], the capsule either inside the WQE or in a slot the WQE points at.
 */
module SendQueue {
  import opened Arith

  datatype Capsule = Capsule(cid: nat, job: nat)

  datatype Payload =
    | Ref(slot: nat)            // data segment: address of a capsule slot
    | Inline(cap: Capsule)      // capsule in the WQE
    | Garbled                   // what the NIC reads when the blocks do not fit together

  datatype Block =
    | Unwritten
    | Lo(idx: nat, payload: Payload)   // control segment with wqe_idx, start of the payload
    | Hi(payload: Payload)             // second WQEBB of an inline capsule

  datatype Post = Post(payload: Payload, cap: Capsule)

  datatype SqGeo = SqGeo(cnt: nat, pi0: nat, bb: nat) {
    predicate Valid() { Pow2(cnt) && 2 * cnt <= W16 && (bb == 1 || (bb == 2 && cnt >= 2)) }

    /** Producer counter of the n-th command posted since takeover. */
    function At(n: nat): nat { pi0 + if bb == 2 then 2 * n else n }
  }

  datatype Sq = Sq(
    ring: seq<Block>,
    db: nat,                   // dbrec[1], 16 bits
    posted: seq<Post>,         // commands the dbrec covers, oldest first
    fetched: seq<Payload>,     // WQEs the NIC has read
    wire: seq<Capsule>,        // capsules it has sent
    retired: nat)              // SENDs it is finished with, slots included
  {
    predicate CanFetch(g: SqGeo) { (db - g.At(|fetched|) % W16) % W16 != 0 }

    function Decode(g: SqGeo, n: nat): Payload
      requires g.cnt > 0 && |ring| == g.cnt
    {
      var lo := ring[g.At(n) % g.cnt];
      if lo.Lo? && lo.idx == g.At(n) % W16
         && (g.bb == 2 ==> ring[(g.At(n) + 1) % g.cnt] == Hi(lo.payload))
      then lo.payload else Garbled
    }

    function Fetch(g: SqGeo): Sq
      requires g.cnt > 0 && |ring| == g.cnt
    {
      this.(fetched := fetched + [Decode(g, |fetched|)])
    }

    /** The NIC gathers the capsule when it sends, from the WQE or from memory. */
    function Gather(caps: seq<Capsule>): Capsule
      requires |wire| < |fetched|
    {
      match fetched[|wire|]
      case Inline(c) => c
      case Ref(s) => if s < |caps| then caps[s] else Capsule(0, 0)
      case Garbled => Capsule(0, 0)
    }

    function Send(caps: seq<Capsule>): Sq
      requires |wire| < |fetched|
    {
      this.(wire := wire + [Gather(caps)])
    }

    function Retire(): Sq { this.(retired := retired + 1) }

    /** `pi` is the 16-bit counter the submitter read; slots are taken from it. */
    function WriteLo(g: SqGeo, pi: nat, p: Payload): Sq
      requires g.cnt > 0 && |ring| == g.cnt
    {
      this.(ring := ring[pi % g.cnt := Lo(pi, p)])
    }

    function WriteHi(g: SqGeo, pi: nat, p: Payload): Sq
      requires g.cnt > 0 && |ring| == g.cnt
    {
      this.(ring := ring[(pi + 1) % g.cnt := Hi(p)])
    }

    function Expose(g: SqGeo, pi: nat, p: Post): Sq {
      this.(db := (pi + g.bb) % W16, posted := posted + [p])
    }
  }

  function Start(g: SqGeo, ring: seq<Block>): Sq {
    Sq(ring, g.pi0 % W16, [], [], [], 0)
  }

  /** WQEBBs between the NIC's retired position and the n-th post fit the ring. */
  predicate Fits(g: SqGeo, q: Sq, n: nat) { g.At(n) <= g.At(q.retired) + g.cnt }

  /** The complete WQE of counter At(n) stands in the ring, under its own wqe_idx. */
  predicate Whole(g: SqGeo, ring: seq<Block>, n: nat, p: Payload)
    requires g.cnt > 0 && |ring| == g.cnt
  {
    && ring[g.At(n) % g.cnt] == Lo(g.At(n) % W16, p)
    && (g.bb == 2 ==> ring[(g.At(n) + 1) % g.cnt] == Hi(p))
  }

  predicate CapsuleThere(caps: seq<Capsule>, p: Post) {
    match p.payload
    case Inline(c) => c == p.cap
    case Ref(s) => s < |caps| && caps[s] == p.cap
    case Garbled => false
  }

  ghost predicate Intact(g: SqGeo, ring: seq<Block>, posted: seq<Post>, retired: nat)
    requires g.cnt > 0 && |ring| == g.cnt
  {
    forall n :: retired <= n < |posted| ==> Whole(g, ring, n, posted[n].payload)
  }

  ghost predicate CapsulesIntact(caps: seq<Capsule>, posted: seq<Post>, retired: nat) {
    forall n :: retired <= n < |posted| ==> CapsuleThere(caps, posted[n])
  }

  ghost predicate Good(g: SqGeo, q: Sq, caps: seq<Capsule>) {
    && g.Valid() && |q.ring| == g.cnt
    && q.retired <= |q.wire| <= |q.fetched| <= |q.posted|
    && Fits(g, q, |q.posted|)
    && q.db == g.At(|q.posted|) % W16
    && Intact(g, q.ring, q.posted, q.retired)
    && CapsulesIntact(caps, q.posted, q.retired)
    && (forall n :: 0 <= n < |q.fetched| ==> q.fetched[n] == q.posted[n].payload)
    && (forall n :: 0 <= n < |q.wire| ==> q.wire[n] == q.posted[n].cap)
  }

  lemma StartGood(g: SqGeo, ring: seq<Block>, caps: seq<Capsule>)
    requires g.Valid() && |ring| == g.cnt
    ensures Good(g, Start(g, ring), caps)
  {}

  lemma CanFetchExact(g: SqGeo, q: Sq, caps: seq<Capsule>)
    requires Good(g, q, caps)
    ensures q.CanFetch(g) <==> |q.fetched| < |q.posted|
  {
    DiffView(g.At(|q.fetched|), g.At(|q.posted|), W16);
  }

  lemma FetchGood(g: SqGeo, q: Sq, caps: seq<Capsule>)
    requires Good(g, q, caps) && q.CanFetch(g)
    ensures Good(g, q.Fetch(g), caps)
  {
    CanFetchExact(g, q, caps);
    var n := |q.fetched|;
    assert Whole(g, q.ring, n, q.posted[n].payload);
  }

  lemma SendGood(g: SqGeo, q: Sq, caps: seq<Capsule>)
    requires Good(g, q, caps) && |q.wire| < |q.fetched|
    ensures Good(g, q.Send(caps), caps)
  {
    var n := |q.wire|;
    assert CapsuleThere(caps, q.posted[n]);
  }

  lemma RetireGood(g: SqGeo, q: Sq, caps: seq<Capsule>)
    requires Good(g, q, caps) && q.retired < |q.wire|
    ensures Good(g, q.Retire(), caps)
  {}

  lemma ViewSlot(g: SqGeo, x: nat)
    requires g.Valid()
    ensures (x % W16) % g.cnt == x % g.cnt
    ensures (x % W16 + 1) % g.cnt == (x + 1) % g.cnt
  {
    Pow2Widths();
    Pow2Divides(g.cnt, W16);
    ModMod(x, W16, g.cnt);
    AddMod(x % W16, x, 1, g.cnt);
  }

  /** Neither block of a new WQE lands on a block of a WQE the NIC still owns. */
  lemma NoOverlap(g: SqGeo, q: Sq, n: nat, p: nat)
    requires g.Valid() && q.retired <= n < p && Fits(g, q, p + 1)
    ensures g.At(n) % g.cnt != g.At(p) % g.cnt
    ensures g.bb == 2 ==> (g.At(n) + 1) % g.cnt != g.At(p) % g.cnt
    ensures g.bb == 2 ==> g.At(n) % g.cnt != (g.At(p) + 1) % g.cnt
    ensures g.bb == 2 ==> (g.At(n) + 1) % g.cnt != (g.At(p) + 1) % g.cnt
  {
    SlotsDiffer(g.At(n), g.At(p), g.cnt);
    if g.bb == 2 {
      SlotsDiffer(g.At(n) + 1, g.At(p), g.cnt);
      SlotsDiffer(g.At(n), g.At(p) + 1, g.cnt);
      SlotsDiffer(g.At(n) + 1, g.At(p) + 1, g.cnt);
    }
  }

  lemma WriteLoGood(g: SqGeo, q: Sq, caps: seq<Capsule>, pay: Payload)
    requires Good(g, q, caps) && Fits(g, q, |q.posted| + 1)
    ensures var pi := g.At(|q.posted|) % W16;
            && Good(g, q.WriteLo(g, pi, pay), caps)
            && q.WriteLo(g, pi, pay).ring[g.At(|q.posted|) % g.cnt] == Lo(pi, pay)
  {
    var p := |q.posted|;
    ViewSlot(g, g.At(p));
    var q' := q.WriteLo(g, g.At(p) % W16, pay);
    forall n | q.retired <= n < p
      ensures Whole(g, q'.ring, n, q.posted[n].payload)
    {
      assert Whole(g, q.ring, n, q.posted[n].payload);
      NoOverlap(g, q, n, p);
    }
  }

  lemma WriteHiGood(g: SqGeo, q: Sq, caps: seq<Capsule>, pay: Payload)
    requires Good(g, q, caps) && Fits(g, q, |q.posted| + 1) && g.bb == 2
    requires q.ring[g.At(|q.posted|) % g.cnt] == Lo(g.At(|q.posted|) % W16, pay)
    ensures var q' := q.WriteHi(g, g.At(|q.posted|) % W16, pay);
            Good(g, q', caps) && Whole(g, q'.ring, |q.posted|, pay)
  {
    var p := |q.posted|;
    ViewSlot(g, g.At(p));
    var q' := q.WriteHi(g, g.At(p) % W16, pay);
    forall n | q.retired <= n < p
      ensures Whole(g, q'.ring, n, q.posted[n].payload)
    {
      assert Whole(g, q.ring, n, q.posted[n].payload);
      NoOverlap(g, q, n, p);
    }
    SlotsDiffer(g.At(p), g.At(p) + 1, g.cnt);
  }

  lemma ExposeGood(g: SqGeo, q: Sq, caps: seq<Capsule>, p: Post)
    requires Good(g, q, caps) && Fits(g, q, |q.posted| + 1)
    requires Whole(g, q.ring, |q.posted|, p.payload) && CapsuleThere(caps, p)
    ensures Good(g, q.Expose(g, g.At(|q.posted|) % W16, p), caps)
  {
    AddMod(g.At(|q.posted|) % W16, g.At(|q.posted|), g.bb, W16);
  }

  /** A capsule slot no command in flight points at can be reused. */
  lemma CapsuleWriteGood(g: SqGeo, q: Sq, caps: seq<Capsule>, s: nat, cap: Capsule)
    requires Good(g, q, caps) && s < |caps|
    requires forall n :: q.retired <= n < |q.posted| ==> q.posted[n].payload != Ref(s)
    ensures Good(g, q, caps[s := cap])
  {
    forall n | q.retired <= n < |q.posted|
      ensures CapsuleThere(caps[s := cap], q.posted[n])
    {
      assert CapsuleThere(caps, q.posted[n]);
    }
  }

  // ---- selective signalling ----

  const SIG_EVERY: nat := 32

  /** post_wqe: one block, a CQE when the low five bits of pi are all set. */
  predicate SignalledOne(pi: nat) { pi % SIG_EVERY == SIG_EVERY - 1 }

  /** post_wqe_inl: two blocks, a CQE when pi and pi + 2 differ above the low five bits. */
  predicate SignalledTwo(pi: nat) { pi / SIG_EVERY != (pi + 2) / SIG_EVERY }

  /** Does the n-th WQE ask for a SEND CQE? Both tests see the 16-bit counter. */
  predicate Signalled(g: SqGeo, selective: bool, n: nat) {
    !selective
    || (if g.bb == 2 then SignalledTwo(g.At(n) % W16) else SignalledOne(g.At(n) % W16))
  }

  function SignalCount(g: SqGeo, n: nat): nat {
    if n == 0 then 0
    else SignalCount(g, n - 1) + if Signalled(g, true, n - 1) then 1 else 0
  }

  /** n posts ask for one CQE per multiple of 32 the counter crosses, 16-bit wraps included. */
  lemma {:induction false} SignalExact(g: SqGeo, n: nat)
    requires g.bb == 1 || g.bb == 2
    ensures SignalCount(g, n) == g.At(n) / 32 - g.pi0 / 32
  {
    if n > 0 {
      SignalExact(g, n - 1);
      var x := g.At(n - 1);
      assert x == x / W16 * W16 + x % W16;
      assert x / SIG_EVERY == x / W16 * (W16 / SIG_EVERY) + x % W16 / SIG_EVERY;
      assert (x + g.bb) / SIG_EVERY == x / W16 * (W16 / SIG_EVERY) + (x % W16 + g.bb) / SIG_EVERY;
    }
  }
}
