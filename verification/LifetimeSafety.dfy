/** What every step keeps but a send that orphans a registered channel: a channel its
    poller knows belongs to a connection whose destruction is still to run. */
module LifetimeSafety {
  import opened Registry
  import opened Lifetime
  import opened LifetimeSanity
  import C = ConnectionSpec

  /** The poller knows the channel only while the destruction is still to run. */
  predicate Attached(s: Sys, c: CId) {
    Known(s, c) && ChanOf(s, c).index != New ==> ToRun(s, c)
  }

  predicate Registered(s: Sys, c: CId) {
    Known(s, c) && ChanOf(s, c).index != New
  }

  /** The channels of a list being walked are all with their poller. */
  predicate ActiveRegistered(s: Sys, l: LId)
    requires l < |s.loops|
  {
    s.loops[l].phase == Dispatching ==>
      forall i :: 0 <= i < |s.loops[l].active| ==> Registered(s, s.loops[l].active[i])
  }

  ghost predicate AllAgree(s: Sys) {
    forall l :: 0 <= l < |s.regs| ==> s.regs[l].Agrees()
  }

  ghost predicate Safe(e: Edition, s: Sys) {
    && Sane(e, s) && AllAgree(s)
    && (forall c :: c in s.recs ==> Attached(s, c))
    && (forall l :: 0 <= l < |s.loops| ==> ActiveRegistered(s, l))
  }

  // ---------------------------------------------------------------- ownership

  lemma ToRunIsOwned(e: Edition, s: Sys, c: CId)
    requires ToRun(s, c)
    ensures Owned(e, s, c)
  {
    if c !in s.listed {
      if l :| 0 <= l < |s.loops| && (UnlistFn(c) in Unrun(s.loops[l]) || About(s.loops[l].frame, c)) {
        TokenInQueue(s.loops[l], UnlistFn(c));
        assert HeldBy(e, s.loops[l], c);
      } else {
        var k :| 0 <= k < |s.loops| && DestroyFn(c) in Unrun(s.loops[k]);
        TokenInQueue(s.loops[k], DestroyFn(c));
        assert HeldBy(e, s.loops[k], c);
      }
    }
  }

  lemma RegisteredIsOwned(e: Edition, s: Sys, c: CId)
    requires Safe(e, s) && Registered(s, c)
    ensures ToRun(s, c) && Owned(e, s, c)
  {
    assert Attached(s, c);
    ToRunIsOwned(e, s, c);
  }

  // ---------------------------------------------------------------- the pollers

  lemma MaskAgrees(s: Sys, c: CId, mask: Mask)
    requires AllAgree(s)
    ensures AllAgree(SetMask(s, c, mask)) && AllAgree(AddInterest(s, c, mask)) && AllAgree(Unregister(s, c))
  {
    if Known(s, c) {
      var r := s.regs[s.recs[c].loop];
      SetEventsAgrees(r, c, mask);
      SetEventsAgrees(r, c, r.chans[c].events + mask);
      RemoveChannelAgrees(r, c);
    }
  }

  lemma HandlersAgree(e: Edition, s: Sys, c: CId, watch: bool)
    requires AllAgree(s) && c in s.recs
    ensures AllAgree(DoEstablish(s, c)) && AllAgree(DoClose(s, c)) && AllAgree(DoSend(e, s, c, watch))
  {
    MaskAgrees(SetState(s, c, C.Connected), c, READ_EVENT);
    MaskAgrees(SetState(s, c, C.Disconnected), c, NONE_EVENT);
    MaskAgrees(if e == C.AsWritten then SetState(s, c, C.Disconnected) else s, c, WRITE_EVENT);
  }

  lemma DestroyAgreesAll(s: Sys, c: CId)
    requires AllAgree(s) && c in s.recs
    ensures AllAgree(DoDestroy(s, c))
  {
    MaskAgrees(SetState(s, c, C.Disconnected), c, NONE_EVENT);
    MaskAgrees(Quieted(s, c), c, NONE_EVENT);
  }

  lemma CreatedAgrees(e: Edition, s: Sys, c: CId, io: LId, fd: int)
    requires Sane(e, s) && AllAgree(s) && Enabled(e, s, Accept(c, io, fd))
    ensures AllAgree(Created(s, c, io, fd))
  {
    FdIsNew(s, io, fd);
    assert RegFits(s, io, s.regs[io]);
    CreateAgrees(s.regs[io], c, fd);
  }

  lemma ReleasedAgrees(e: Edition, s: Sys, c: CId)
    requires Safe(e, s) && Enabled(e, s, Free(c))
    ensures AllAgree(Released(s, c))
  {
    assert RecOk(s, c);
    if ChanOf(s, c).index != New {
      RegisteredIsOwned(e, s, c);
    }
    ReleaseAgrees(s.regs[s.recs[c].loop], c);
  }

  lemma ReleaseAgrees(r: Reg<CId>, c: CId)
    requires r.Agrees() && c in r.chans && r.chans[c].index == New
    ensures r.(chans := r.chans - {c}, kernel := r.kernel - {r.chans[c].fd}).Agrees()
  {
    assert r.ChanAgrees(c);
    assert r.kernel - {r.chans[c].fd} == r.kernel;
    DestroyAgrees(r, c);
  }

  lemma RunFnAgrees(e: Edition, s: Sys, l: LId, watch: bool)
    requires AllAgree(s) && Enabled(e, s, RunFn(l, watch))
    ensures AllAgree(Next(e, s, RunFn(l, watch)))
  {
    var t := PutLoop(s, l, Popped(s.loops[l]));
    HandlersAgree(e, t, Head(s, l).c, watch);
    DestroyAgreesAll(t, Head(s, l).c);
  }

  lemma StepAgrees(e: Edition, s: Sys, step: Step)
    requires Safe(e, s) && Enabled(e, s, step)
    ensures AllAgree(Next(e, s, step))
  {
    match step {
      case Accept(c, io, fd) => CreatedAgrees(e, s, c, io, fd);
      case HandOver => HandlersAgree(e, SetFrame(s, 0, Idle), s.loops[0].frame.c, false);
      case StopWriting(l) => MaskAgrees(s, Current(s, l), ChanOf(s, Current(s, l)).events - WRITE_EVENT);
      case Close(l) => HandlersAgree(e, PutLoop(s, l, Advanced(s.loops[l])), Current(s, l), false);
      case RunFn(l, watch) => RunFnAgrees(e, s, l, watch);
      case DirectSend(_, c, watch) => HandlersAgree(e, s, c, watch);
      case Free(c) => ReleasedAgrees(e, s, c);
      case _ =>
    }
  }

  // ---------------------------------------------------------------- the connection a step is about

  /** What is still to run for a connection does not get less. */
  predicate KeepsToRun(s: Sys, s': Sys, c: CId) {
    ToRun(s, c) ==> ToRun(s', c)
  }

  lemma PutLoopKeepsToRun(s: Sys, l: LId, loop: Loop, c: CId)
    requires l < |s.loops|
    requires UnlistFn(c) in Unrun(s.loops[l]) ==> UnlistFn(c) in Unrun(loop)
    requires DestroyFn(c) in Unrun(s.loops[l]) ==> DestroyFn(c) in Unrun(loop)
    requires About(s.loops[l].frame, c) ==> About(loop.frame, c)
    ensures KeepsToRun(s, PutLoop(s, l, loop), c)
  {
    var s' := PutLoop(s, l, loop);
    if k :| 0 <= k < |s.loops| && (UnlistFn(c) in Unrun(s.loops[k]) || About(s.loops[k].frame, c)) {
      assert UnlistFn(c) in Unrun(s'.loops[k]) || About(s'.loops[k].frame, c);
    } else if k :| 0 <= k < |s.loops| && DestroyFn(c) in Unrun(s.loops[k]) {
      assert DestroyFn(c) in Unrun(s'.loops[k]);
    }
  }

  lemma PostKeepsToRun(s: Sys, l: LId, f: Fn, c: CId)
    requires l < |s.loops|
    ensures KeepsToRun(s, Post(s, l, f), c)
  {
    assert Unrun(Posted(s.loops[l], f)) == Unrun(s.loops[l]) + [f];
    PutLoopKeepsToRun(s, l, Posted(s.loops[l], f), c);
  }

  lemma PopKeepsToRun(s: Sys, l: LId, c: CId)
    requires l < |s.loops| && s.loops[l].batch != []
    requires !s.loops[l].batch[0].UnlistFn? && !s.loops[l].batch[0].DestroyFn?
    ensures KeepsToRun(s, PutLoop(s, l, Popped(s.loops[l])), c)
  {
    TokensPop(s.loops[l]);
    PutLoopKeepsToRun(s, l, Popped(s.loops[l]), c);
  }

  /** Queues and map are the same: so is what is still to run. */
  lemma SameToRun(s: Sys, s': Sys, c: CId)
    requires s'.loops == s.loops && s'.listed == s.listed
    ensures ToRun(s', c) == ToRun(s, c)
  {
  }

  lemma ListedIsAttached(s: Sys, c: CId)
    requires c in s.recs && RecOk(s, c) && (Unlisted !in s.recs[c].history || Stage(s, c) == 0)
    ensures Attached(s, c)
  {
  }

  lemma FrameAttached(e: Edition, s: Sys, step: Step, c: CId)
    requires Safe(e, s) && Enabled(e, s, step) && FrameStep(step) && Concerns(e, s, step, c)
    requires c in Next(e, s, step).recs && RecOk(Next(e, s, step), c)
    ensures Attached(Next(e, s, step), c)
  {
    var s' := Next(e, s, step);
    match step {
      case Accept(_, _, _) => ListedIsAttached(s', c);
      case HandOver =>
        assert RecOk(s, c);
        HandOverAttached(e, s);
      case Close(l) => assert About(s'.loops[l].frame, c);
      case CloseCallback(l) => CloseCallbackAttached(e, s, l);
      case QueueDestroy => QueueDestroyAttached(e, s);
    }
  }

  lemma HandOverAttached(e: Edition, s: Sys)
    requires Enabled(e, s, HandOver) && RecOk(s, s.loops[0].frame.c)
    ensures Attached(Next(e, s, HandOver), s.loops[0].frame.c)
  {
    var c := s.loops[0].frame.c;
    var t := SetFrame(s, 0, Idle);
    assert s.recs[c].history == [];
    if s.recs[c].loop == 0 {
      EstablishEffect(t, c);
    }
    assert c in Next(e, s, HandOver).listed;
  }

  lemma CloseCallbackAttached(e: Edition, s: Sys, l: LId)
    requires Enabled(e, s, CloseCallback(l))
    ensures Attached(Next(e, s, CloseCallback(l)), s.loops[l].frame.c)
  {
    var c := s.loops[l].frame.c;
    var s' := Next(e, s, CloseCallback(l));
    if l == 0 {
      assert About(s'.loops[0].frame, c);
    } else {
      assert UnlistFn(c) in Unrun(s'.loops[0]);
    }
  }

  lemma QueueDestroyAttached(e: Edition, s: Sys)
    requires Enabled(e, s, QueueDestroy)
    ensures Attached(Next(e, s, QueueDestroy), s.loops[0].frame.c)
  {
    var c := s.loops[0].frame.c;
    assert DestroyFn(c) in Unrun(Next(e, s, QueueDestroy).loops[s.recs[c].loop]);
  }

  lemma RunFnAttached(e: Edition, s: Sys, l: LId, watch: bool)
    requires Safe(e, s) && Enabled(e, s, RunFn(l, watch)) && !Has(e, s, RunFn(l, watch), Orphaning)
    requires Head(s, l).c in Next(e, s, RunFn(l, watch)).recs && RecOk(Next(e, s, RunFn(l, watch)), Head(s, l).c)
    ensures Attached(Next(e, s, RunFn(l, watch)), Head(s, l).c)
  {
    var f := Head(s, l);
    var t := PutLoop(s, l, Popped(s.loops[l]));
    assert RecOk(s, f.c) && Attached(s, f.c) && Fits(s, l, s.loops[l]);
    HeadPlaced(s, l);
    if f.c !in s.freed {
      match f {
        case EstablishFn(c) =>
          RunEstablishRec(e, s, l);
          EstablishAttached(t, c);
        case UnlistFn(c) => assert About(DoUnlist(t, c).loops[0].frame, c);
        case DestroyFn(c) => DestroyEffect(t, c);
        case SendFn(c) =>
          PopKeepsToRun(s, l, c);
          SendAttached(e, t, c, watch);
        case _ => PopKeepsToRun(s, l, f.c);
      }
    }
  }

  lemma EstablishAttached(s: Sys, c: CId)
    requires Known(s, c) && RecBase(s, c) && Stage(s, c) == 0
    ensures Attached(DoEstablish(s, c), c)
  {
    assert s.recs[c].history == [];
    EstablishEffect(s, c);
    assert c in DoEstablish(s, c).listed;
  }

  lemma SendAttached(e: Edition, s: Sys, c: CId, watch: bool)
    requires Known(s, c) && Attached(s, c) && (watch && !Refused(e, s, c) ==> ToRun(s, c))
    ensures Attached(DoSend(e, s, c, watch), c)
  {
    if !Refused(e, s, c) {
      SendEffect(e, s, c, watch);
      SameToRun(s, DoSend(e, s, c, watch), c);
    }
  }

  lemma OwnAttached(e: Edition, s: Sys, step: Step, c: CId)
    requires Safe(e, s) && Enabled(e, s, step) && OwnStep(step) && Concerns(e, s, step, c)
    ensures Attached(Next(e, s, step), c)
  {
    match step {
      case StopWriting(l) => StopWritingAttached(e, s, l);
      case DirectSend(l, _, watch) => DirectSendAttached(e, s, l, c, watch);
      case DirectShutdown(l, _) =>
        assert Attached(s, c);
        SameToRun(s, SetState(s, c, C.Disconnecting), c);
      case PushNotify(_) =>
        assert Attached(s, c);
        PostKeepsToRun(s, s.recs[c].loop, NotifyFn(c), c);
      case Free(_) =>
    }
  }

  lemma StopWritingAttached(e: Edition, s: Sys, l: LId)
    requires Safe(e, s) && Enabled(e, s, StopWriting(l))
    ensures Attached(Next(e, s, StopWriting(l)), Current(s, l))
  {
    var c := Current(s, l);
    assert ActiveRegistered(s, l);
    RegisteredIsOwned(e, s, c);
    SameToRun(s, Next(e, s, StopWriting(l)), c);
  }

  lemma DirectSendAttached(e: Edition, s: Sys, l: LId, c: CId, watch: bool)
    requires Safe(e, s) && Enabled(e, s, DirectSend(l, c, watch))
    ensures Attached(Next(e, s, DirectSend(l, c, watch)), c)
  {
    assert RecOk(s, c);
    assert c in s.listed;
    SendAttached(e, s, c, watch);
  }

  lemma CallAttached(e: Edition, s: Sys, step: Step)
    requires Safe(e, s) && Enabled(e, s, step) && CallStep(step)
    ensures Attached(Next(e, s, step), step.c)
  {
    var c := step.c;
    assert c in s.recs ==> Attached(s, c);
    match step {
      case PushSend(_) => PushAttached(s, s.calls - multiset{Sending(c)}, SendFn(c));
      case PushShutdown(_) => PushAttached(s, s.calls - multiset{Stopped(c)}, ShutdownFn(c));
      case Acquire(_) => SameToRun(s, Next(e, s, step), c);
      case Drop(_) => SameToRun(s, Next(e, s, step), c);
      case BeginSend(_) => SameToRun(s, Next(e, s, step), c);
      case BeginShutdown(_) => SameToRun(s, Next(e, s, step), c);
      case StoreShutdown(_) => SameToRun(s, Next(e, s, step), c);
    }
  }

  lemma PushAttached(s: Sys, calls: multiset<Call>, f: Fn)
    requires Known(s, f.c) && Attached(s, f.c)
    ensures Attached(Post(PutCalls(s, calls), s.recs[f.c].loop, f), f.c)
  {
    SameToRun(s, PutCalls(s, calls), f.c);
    PostKeepsToRun(PutCalls(s, calls), s.recs[f.c].loop, f, f.c);
  }

  lemma ApartAttached(e: Edition, s: Sys, step: Step, c: CId)
    requires Safe(e, s) && Enabled(e, s, step) && !Concerns(e, s, step, c) && c in Next(e, s, step).recs
    ensures Attached(Next(e, s, step), c)
  {
    NothingElseIsBorn(e, s, step, c);
    StepApart(e, s, step, c);
    ApartQueues(e, s, Next(e, s, step), c);
    assert Attached(s, c);
  }

  lemma StepAttached(e: Edition, s: Sys, step: Step, c: CId)
    requires Safe(e, s) && Enabled(e, s, step) && !Has(e, s, step, Orphaning) && Concerns(e, s, step, c)
    requires c in Next(e, s, step).recs && RecOk(Next(e, s, step), c)
    ensures Attached(Next(e, s, step), c)
  {
    if step.RunFn? {
      RunFnAttached(e, s, step.l, step.watch);
    } else if FrameStep(step) {
      FrameAttached(e, s, step, c);
    } else {
      ThreadAttached(e, s, step, c);
    }
  }

  lemma ThreadAttached(e: Edition, s: Sys, step: Step, c: CId)
    requires Safe(e, s) && Enabled(e, s, step) && (OwnStep(step) || CallStep(step)) && Concerns(e, s, step, c)
    ensures Attached(Next(e, s, step), c)
  {
    if OwnStep(step) {
      OwnAttached(e, s, step, c);
    } else {
      CallAttached(e, s, step);
    }
  }

  // ---------------------------------------------------------------- lists being walked

  /** A channel leaves its poller only by its own destruction. */
  lemma StaysRegistered(e: Edition, s: Sys, step: Step, c: CId)
    requires Safe(e, s) && Enabled(e, s, step) && Registered(s, c)
    requires step.RunFn? ==> Head(s, step.l) != DestroyFn(c)
    ensures Registered(Next(e, s, step), c)
  {
    if !Concerns(e, s, step, c) {
      StepApart(e, s, step, c);
    } else if FrameStep(step) {
      FrameStaysRegistered(e, s, step, c);
    } else if step.RunFn? {
      RunStaysRegistered(e, s, step.l, step.watch);
    } else if OwnStep(step) {
      OwnStaysRegistered(e, s, step, c);
    } else {
      CallStaysRegistered(e, s, step);
    }
  }

  lemma FrameStaysRegistered(e: Edition, s: Sys, step: Step, c: CId)
    requires Enabled(e, s, step) && FrameStep(step) && Registered(s, c) && Concerns(e, s, step, c)
    ensures Registered(Next(e, s, step), c)
  {
    if step.HandOver? {
      EstablishEffect(SetFrame(s, 0, Idle), c);
    } else if step.Close? {
      CloseEffect(PutLoop(s, step.l, Advanced(s.loops[step.l])), c);
    }
  }

  lemma UnwatchedStaysRegistered(s: Sys, c: CId)
    requires Registered(s, c)
    ensures Registered(SetMask(s, c, ChanOf(s, c).events - WRITE_EVENT), c)
  {
    MaskEffect(s, c, ChanOf(s, c).events - WRITE_EVENT);
  }

  lemma FreeIsNotRegistered(e: Edition, s: Sys, c: CId)
    requires Safe(e, s) && Enabled(e, s, Free(c))
    ensures !Registered(s, c)
  {
    if Registered(s, c) {
      RegisteredIsOwned(e, s, c);
    }
  }

  lemma OwnStaysRegistered(e: Edition, s: Sys, step: Step, c: CId)
    requires Safe(e, s) && Enabled(e, s, step) && OwnStep(step) && Registered(s, c) && Concerns(e, s, step, c)
    ensures Registered(Next(e, s, step), c)
  {
    match step {
      case StopWriting(_) => UnwatchedStaysRegistered(s, c);
      case DirectSend(_, _, watch) => DirectStaysRegistered(e, s, c, watch);
      case DirectShutdown(_, _) => QuietStaysRegistered(e, s, step);
      case PushNotify(_) => QuietStaysRegistered(e, s, step);
      case Free(_) => FreeIsNotRegistered(e, s, c);
    }
  }

  lemma QuietStaysRegistered(e: Edition, s: Sys, step: Step)
    requires Enabled(e, s, step) && (step.DirectShutdown? || step.PushNotify?) && Registered(s, step.c)
    ensures Registered(Next(e, s, step), step.c)
  {
  }

  lemma CallStaysRegistered(e: Edition, s: Sys, step: Step)
    requires Enabled(e, s, step) && CallStep(step) && Registered(s, step.c)
    ensures Registered(Next(e, s, step), step.c)
  {
  }

  lemma DirectStaysRegistered(e: Edition, s: Sys, c: CId, watch: bool)
    requires Registered(s, c)
    ensures Registered(DoSend(e, s, c, watch), c)
  {
    if !Refused(e, s, c) {
      SendEffect(e, s, c, watch);
    }
  }

  lemma RunStaysRegistered(e: Edition, s: Sys, l: LId, watch: bool)
    requires Enabled(e, s, RunFn(l, watch)) && Registered(s, Head(s, l).c) && !Head(s, l).DestroyFn?
    ensures Registered(Next(e, s, RunFn(l, watch)), Head(s, l).c)
  {
    var t := PutLoop(s, l, Popped(s.loops[l]));
    var f := Head(s, l);
    if f.EstablishFn? {
      EstablishEffect(t, f.c);
    } else if f.SendFn? {
      DirectStaysRegistered(e, t, f.c, watch);
    }
  }

  /** A list is walked by the loop that polled it, and by one that runs no functor. */
  lemma WalkGoesOn(e: Edition, s: Sys, step: Step, l: LId)
    requires Enabled(e, s, step) && l < |s.loops| && LoopsGo(e, s, step, Next(e, s, step))
    requires Next(e, s, step).loops[l].phase == Dispatching && step != Poll(l, Next(e, s, step).loops[l].active)
    ensures s.loops[l].phase == Dispatching && Next(e, s, step).loops[l].active == s.loops[l].active
    ensures step.RunFn? ==> step.l != l
  {
  }

  lemma ActiveStays(e: Edition, s: Sys, step: Step, l: LId, c: CId)
    requires Safe(e, s) && Enabled(e, s, step) && l < |s.loops| && s.loops[l].phase == Dispatching
    requires c in s.loops[l].active && (step.RunFn? ==> step.l != l)
    ensures Registered(Next(e, s, step), c)
  {
    var i :| 0 <= i < |s.loops[l].active| && s.loops[l].active[i] == c;
    assert ActiveRegistered(s, l) && Fits(s, l, s.loops[l]);
    if step.RunFn? {
      assert Fits(s, step.l, s.loops[step.l]);
      HeadPlaced(s, step.l);
    }
    StaysRegistered(e, s, step, c);
  }

  lemma PolledActive(e: Edition, s: Sys, l: LId, ready: seq<CId>)
    requires Safe(e, s) && Enabled(e, s, Poll(l, ready))
    ensures ActiveRegistered(Next(e, s, Poll(l, ready)), l)
  {
    forall i | 0 <= i < |ready|
      ensures Registered(s, ready[i])
    {
      ReportedIsKnown(e, s, l, ready[i]);
    }
  }

  lemma StepActive(e: Edition, s: Sys, step: Step, l: LId)
    requires Safe(e, s) && Enabled(e, s, step) && l < |s.loops| && LoopsGo(e, s, step, Next(e, s, step))
    ensures ActiveRegistered(Next(e, s, step), l)
  {
    var s' := Next(e, s, step);
    if step.Poll? && step.l == l {
      PolledActive(e, s, l, step.ready);
    } else if s'.loops[l].phase == Dispatching {
      WalkGoesOn(e, s, step, l);
      forall i | 0 <= i < |s'.loops[l].active|
        ensures Registered(s', s'.loops[l].active[i])
      {
        ActiveStays(e, s, step, l, s'.loops[l].active[i]);
      }
    }
  }

  /** Every step keeps it but an orphaning send. */
  lemma StepKeepsSafe(e: Edition, s: Sys, step: Step)
    requires Safe(e, s) && Enabled(e, s, step) && !Has(e, s, step, Orphaning)
    ensures Safe(e, Next(e, s, step))
  {
    var s' := Next(e, s, step);
    StepKeepsSane(e, s, step);
    StepAgrees(e, s, step);
    forall c | c in s'.recs
      ensures Attached(s', c)
    {
      if Concerns(e, s, step, c) {
        StepAttached(e, s, step, c);
      } else {
        ApartAttached(e, s, step, c);
      }
    }
    StepGoes(e, s, step);
    forall l | 0 <= l < |s'.loops|
      ensures ActiveRegistered(s', l)
    {
      StepActive(e, s, step, l);
    }
  }
}
