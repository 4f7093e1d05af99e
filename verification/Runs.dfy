/** What holds in every state of every run. */
module Runs {
  import opened Arith
  import opened Protocol
  import opened Invariant
  import SubmitterSteps
  import ConsumerSteps
  import NicSteps
  import SQ = SendQueue
  import CQ = CompletionQueue
  import RQ = RecvQueue

  /** A run: states and the actions between them, starting as launched. Next is defined on
      every state a run can reach: see StepKeeps, which maintains Shape. */
  ghost predicate Run(c: Config, ss: seq<State>, acts: seq<Act>) {
    && |ss| == |acts| + 1 && Init(c, ss[0])
    && (forall i :: 0 <= i < |acts| ==> Step(c, ss[i], acts[i], ss[i + 1]))
  }

  ghost predicate Step(c: Config, s: State, a: Act, s': State) {
    Shape(c, s) && Enabled(c, s, a) && s' == Next(c, s, a)
  }

  lemma StepKeeps(c: Config, s: State, a: Act)
    requires Inv(c, s) && Enabled(c, s, a)
    ensures Inv(c, Next(c, s, a))
  {
    if SubEnabled(c, s, a) {
      SubStepKeeps(c, s, a);
    } else if ConEnabled(c, s, a) {
      ConStepKeeps(c, s, a);
    } else if NicEnabled(c, s, a) {
      NicStepKeeps(c, s, a);
    } else {
      NicSteps.RaiseKeeps(c, s);
    }
  }

  lemma SubStepKeeps(c: Config, s: State, a: Act)
    requires Inv(c, s) && SubEnabled(c, s, a)
    ensures Inv(c, SubNext(c, s, a))
  {
    hide Inv;
    match a
    case Claim(t) => SubmitterSteps.ClaimKeeps(c, s, t);
    case Quit(t) => SubmitterSteps.QuitKeeps(c, s, t);
    case Fill(t) => SubmitterSteps.FillKeeps(c, s, t);
    case Mark(t) => SubmitterSteps.MarkKeeps(c, s, t);
    case Lock(t) => SubmitterSteps.LockKeeps(c, s, t);
    case ReadPi(t) => SubmitterSteps.ReadPiKeeps(c, s, t);
    case WriteLo(t) => SubmitterSteps.WriteLoKeeps(c, s, t);
    case WriteHi(t) => SubmitterSteps.WriteHiKeeps(c, s, t);
    case Ring(t) => SubmitterSteps.RingKeeps(c, s, t);
    case StorePi(t) => SubmitterSteps.StorePiKeeps(c, s, t);
    case Unlock(t) => SubmitterSteps.UnlockKeeps(c, s, t);
    case See(t) => SubmitterSteps.SeeKeeps(c, s, t);
    case Note(t) => SubmitterSteps.NoteKeeps(c, s, t);
    case Release(t) => SubmitterSteps.ReleaseKeeps(c, s, t);
    case GiveUp(t) => SubmitterSteps.GiveUpKeeps(c, s, t);
    case Leave(t) => SubmitterSteps.LeaveKeeps(c, s, t);
  }

  lemma ConStepKeeps(c: Config, s: State, a: Act)
    requires Inv(c, s) && ConEnabled(c, s, a)
    ensures Inv(c, ConNext(c, s, a))
  {
    hide Inv;
    match a
    case Poll => ConsumerSteps.PollKeeps(c, s);
    case EndStep => ConsumerSteps.EndStepKeeps(c, s);
    case Read => ConsumerSteps.ReadKeeps(c, s);
    case Name => ConsumerSteps.NameKeeps(c, s);
    case Publish => ConsumerSteps.PublishKeeps(c, s);
    case PutRing => ConsumerSteps.PutRingKeeps(c, s);
    case PutShadow => ConsumerSteps.PutShadowKeeps(c, s);
    case FlushRq => ConsumerSteps.FlushRqKeeps(c, s);
    case Advance => ConsumerSteps.AdvanceKeeps(c, s);
    case IdleFlushRq => ConsumerSteps.IdleFlushRqKeeps(c, s);
    case StopFlushRq => ConsumerSteps.StopFlushRqKeeps(c, s);
    case IdleFlushCq => ConsumerSteps.IdleFlushCqKeeps(c, s);
    case StopFlushCq => ConsumerSteps.StopFlushCqKeeps(c, s);
    case IdleCheck => ConsumerSteps.CheckKeeps(c, s);
    case StopOnAbort => ConsumerSteps.StopKeeps(c, s);
  }

  lemma NicStepKeeps(c: Config, s: State, a: Act)
    requires Inv(c, s) && NicEnabled(c, s, a)
    ensures Inv(c, NicNext(c, s, a))
  {
    hide Inv;
    match a
    case Fetch => NicSteps.FetchKeeps(c, s);
    case Send => NicSteps.SendKeeps(c, s);
    case Retire => NicSteps.RetireKeeps(c, s);
    case SendCqe(n) => NicSteps.SendCqeKeeps(c, s, n);
    case Answer(n, st, inl) => NicSteps.AnswerKeeps(c, s, n, st, inl);
  }

  lemma InitKeeps(c: Config, s: State)
    requires Init(c, s)
    ensures Inv(c, s)
  {
    hide SQ.Good, CQ.Good, RQ.Good;
    SQ.StartGood(c.sg, s.sq.ring, s.caps);
    CQ.StartGood(c.cg, s.cq.entries);
    RQ.StartGood(c.rg, s.rq.ring);
    assert Out(s.h.last, {}) == {};
    DivModUnique(c.sg.pi0 % W16, W16, 0, c.sg.pi0 % W16);
  }

  lemma InvShape(c: Config, s: State)
    requires Inv(c, s)
    ensures Shape(c, s)
  {}

  lemma {:induction false} RunKeeps(c: Config, ss: seq<State>, acts: seq<Act>, i: nat)
    requires Run(c, ss, acts) && i < |ss|
    ensures Inv(c, ss[i])
  {
    hide Inv, Init;
    if i == 0 {
      InitKeeps(c, ss[0]);
    } else {
      RunKeeps(c, ss, acts, i - 1);
      assert Step(c, ss[i - 1], acts[i - 1], ss[i]);
      InvShape(c, ss[i - 1]);
      StepKeeps(c, ss[i - 1], acts[i - 1]);
    }
  }

  /** A run goes on with any enabled step. */
  lemma RunOn(c: Config, ss: seq<State>, acts: seq<Act>, a: Act) returns (t: State)
    requires Run(c, ss, acts) && Shape(c, ss[|acts|]) && Enabled(c, ss[|acts|], a)
    ensures t == Next(c, ss[|acts|], a) && Run(c, ss + [t], acts + [a])
  {
    hide Init, Shape, Enabled, Next;
    t := Next(c, ss[|acts|], a);
    var ss', acts' := ss + [t], acts + [a];
    forall i | 0 <= i < |acts'|
      ensures Step(c, ss'[i], acts'[i], ss'[i + 1])
    {
      if i < |acts| {
        assert Step(c, ss[i], acts[i], ss[i + 1]);
      }
    }
  }

  lemma RunLength(c: Config, ss: seq<State>, acts: seq<Act>)
    requires Run(c, ss, acts)
    ensures |ss| == |acts| + 1
  {}
}
