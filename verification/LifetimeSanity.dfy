/** What every step keeps, whatever has gone wrong before it: functors are where they
    have to run, every channel agrees with the kernel's set, and a freed connection has
    no owner. */
module LifetimeSanity {
  import opened Registry
  import opened Lifetime
  import C = ConnectionSpec

  function Tokens(l: Loop, f: Fn): nat {
    multiset(Unrun(l))[f]
  }

  function Stage(s: Sys, c: CId): nat
    requires c in s.recs
  {
    |s.recs[c].history|
  }

  function If(b: bool): nat {
    if b then 1 else 0
  }

  // ---------------------------------------------------------------- loops

  predicate Shape(l: Loop) {
    && l.walked <= |l.active|
    && (l.phase != Running ==> l.ran == [] && l.batch == [])
    && (l.frame.Creating? || l.frame.Closing? ==> l.phase == Dispatching)
    && (l.phase == AtPoll ==> l.frame == Idle)
  }

  /** The milestones that have passed when a functor is queued. */
  function LeastStage(f: Fn): nat {
    match f
    case EstablishFn(_) => 0
    case UnlistFn(_) => 2
    case DestroyFn(_) => 3
    case _ => 1
  }

  predicate Placed(s: Sys, l: LId, f: Fn) {
    f.c in s.recs && Stage(s, f.c) >= LeastStage(f) && l == if f.UnlistFn? then 0 else s.recs[f.c].loop
  }

  predicate AllPlaced(s: Sys, l: LId, q: seq<Fn>) {
    forall i :: 0 <= i < |q| ==> Placed(s, l, q[i])
  }

  predicate FramePlaced(s: Sys, l: LId, frame: Frame) {
    match frame
    case Idle => true
    case Creating(c) => l == 0 && c in s.recs
    case Closing(c) => c in s.recs && l == s.recs[c].loop && Stage(s, c) >= 2
    case Erased(c) => l == 0 && c in s.recs && Stage(s, c) >= 3
  }

  predicate ActivePlaced(s: Sys, l: LId, loop: Loop) {
    loop.phase == Dispatching ==>
      forall i :: 0 <= i < |loop.active| ==>
        loop.active[i] in s.recs && s.recs[loop.active[i]].loop == l && Stage(s, loop.active[i]) >= 1
  }

  predicate Fits(s: Sys, l: LId, loop: Loop) {
    && Shape(loop) && FramePlaced(s, l, loop.frame) && ActivePlaced(s, l, loop)
    && AllPlaced(s, l, loop.ran) && AllPlaced(s, l, loop.batch) && AllPlaced(s, l, loop.pending)
  }

  /** Connections only move on. */
  predicate Grows(s: Sys, s': Sys) {
    forall c :: c in s.recs ==>
      && c in s'.recs && s'.recs[c].loop == s.recs[c].loop && s'.recs[c].fd == s.recs[c].fd
      && Stage(s', c) >= Stage(s, c)
  }

  lemma PlacedGrows(s: Sys, s': Sys, l: LId, q: seq<Fn>)
    requires Grows(s, s') && AllPlaced(s, l, q)
    ensures AllPlaced(s', l, q)
  {
    forall i | 0 <= i < |q|
      ensures Placed(s', l, q[i])
    {
      assert Placed(s, l, q[i]);
    }
  }

  lemma FitsGrows(s: Sys, s': Sys, l: LId, loop: Loop)
    requires Grows(s, s') && Fits(s, l, loop)
    ensures Fits(s', l, loop)
  {
    PlacedGrows(s, s', l, loop.ran);
    PlacedGrows(s, s', l, loop.batch);
    PlacedGrows(s, s', l, loop.pending);
  }

  // ---------------------------------------------------------------- the invariant

  /** One functor, or one thread, is to establish a connection, as long as it is not. */
  predicate EstablishOk(s: Sys, c: CId)
    requires c in s.recs && 0 < |s.loops|
  {
    && (forall l :: 0 <= l < |s.loops| ==>
          Tokens(s.loops[l], EstablishFn(c))
          == If(Stage(s, c) == 0 && l == s.recs[c].loop && s.loops[0].frame != Creating(c)))
    && (s.loops[0].frame == Creating(c) ==> Stage(s, c) == 0)
  }

  predicate RecBase(s: Sys, c: CId)
    requires c in s.recs
  {
    && s.recs[c].loop < |s.loops| && s.recs[c].loop < |s.regs|
    && (c in s.listed <==> Unlisted !in s.recs[c].history)
    && (Unlisted in s.recs[c].history ==> Stage(s, c) >= 3)
    && (s.recs[c].state == C.Connected ==> s.recs[c].history == [Established])
    && (c in s.users || Calling(s, c) ==> Stage(s, c) >= 1)
    && (c in s.freed <==> !Known(s, c))
    && (c !in s.freed ==> ChanOf(s, c).fd == s.recs[c].fd)
    && (c !in s.freed && Stage(s, c) == 0 ==> ChanOf(s, c).index == New && ChanOf(s, c).events == NONE_EVENT)
  }

  predicate RecOk(s: Sys, c: CId)
    requires c in s.recs
  {
    RecBase(s, c) && EstablishOk(s, c)
  }

  ghost predicate RegFits(s: Sys, l: LId, r: Reg<CId>) {
    && r.InSync() && r.Clean()
    && (forall c :: c in r.chans ==> c in s.recs && s.recs[c].loop == l)
  }

  ghost predicate SetsOk(e: Edition, s: Sys) {
    && (forall c :: c in s.listed || c in s.users || Calling(s, c) || c in s.freed ==> c in s.recs)
    && (forall c :: c in s.freed ==> !Owned(e, s, c))
  }

  /** Everything but the records. */
  ghost predicate Housed(e: Edition, s: Sys) {
    && 0 < |s.loops| == |s.regs|
    && (forall l :: 0 <= l < |s.loops| ==> Fits(s, l, s.loops[l]))
    && (forall l :: 0 <= l < |s.regs| ==> RegFits(s, l, s.regs[l]))
    && SetsOk(e, s)
  }

  ghost predicate Sane(e: Edition, s: Sys) {
    Housed(e, s) && forall c :: c in s.recs ==> RecOk(s, c)
  }

  // ---------------------------------------------------------------- queues

  lemma TokensPost(l: Loop, f: Fn)
    ensures forall g :: Tokens(Posted(l, f), g) == Tokens(l, g) + If(g == f)
  {
    assert Unrun(Posted(l, f)) == Unrun(l) + [f];
  }

  lemma TokensPop(l: Loop)
    requires l.batch != []
    ensures forall g :: Tokens(l, g) == Tokens(Popped(l), g) + If(g == l.batch[0])
    ensures Unrun(l) == [l.batch[0]] + Unrun(Popped(l))
  {
    assert Unrun(l) == [l.batch[0]] + Unrun(Popped(l));
  }

  lemma UnrunSwap(l: Loop)
    requires l.batch == []
    ensures Unrun(Swapped(l)) == Unrun(l)
  {
  }

  lemma TokenInQueue(l: Loop, f: Fn)
    ensures f in Unrun(l) <==> Tokens(l, f) > 0
    ensures f in Unrun(l) <==> f in l.batch || f in l.pending
  {
  }

  lemma HeldAppend(e: Edition, q: seq<Fn>, f: Fn, c: CId)
    ensures HeldIn(e, q + [f], c) <==> HeldIn(e, q, c) || HeldIn(e, [f], c)
    ensures HeldIn(e, [f], c) ==> f.c == c
  {
  }

  // ---------------------------------------------------------------- what a step leaves alone

  /** A loop's change leaves a connection alone. */
  predicate LoopApart(e: Edition, l: Loop, l': Loop, d: CId) {
    && Tokens(l', EstablishFn(d)) == Tokens(l, EstablishFn(d))
    && Tokens(l', UnlistFn(d)) == Tokens(l, UnlistFn(d))
    && Tokens(l', DestroyFn(d)) == Tokens(l, DestroyFn(d))
    && (l'.frame == l.frame || (!About(l.frame, d) && !About(l'.frame, d)))
    && (HeldBy(e, l', d) ==> HeldBy(e, l, d))
  }

  /** A step leaves a connection alone. */
  predicate Apart(e: Edition, s: Sys, s': Sys, d: CId) {
    && d in s.recs && d in s'.recs && s'.recs[d] == s.recs[d]
    && (d in s'.listed <==> d in s.listed) && (d in s'.freed <==> d in s.freed)
    && (d in s'.users <==> d in s.users) && (Calling(s', d) <==> Calling(s, d))
    && (Known(s', d) <==> Known(s, d)) && (Known(s, d) && Known(s', d) ==> ChanOf(s', d) == ChanOf(s, d))
    && |s'.loops| == |s.loops| && |s'.regs| == |s.regs|
    && forall l :: 0 <= l < |s.loops| ==> LoopApart(e, s.loops[l], s'.loops[l], d)
  }

  lemma ApartTrans(e: Edition, s: Sys, t: Sys, u: Sys, d: CId)
    requires Apart(e, s, t, d) && Apart(e, t, u, d)
    ensures Apart(e, s, u, d)
  {
    forall l | 0 <= l < |s.loops|
      ensures LoopApart(e, s.loops[l], u.loops[l], d)
    {
      assert LoopApart(e, s.loops[l], t.loops[l], d) && LoopApart(e, t.loops[l], u.loops[l], d);
    }
  }

  lemma ApartKeepsRec(e: Edition, s: Sys, s': Sys, d: CId)
    requires Apart(e, s, s', d) && 0 < |s.loops| && RecOk(s, d)
    ensures RecOk(s', d)
  {
    assert LoopApart(e, s.loops[0], s'.loops[0], d);
    forall l | 0 <= l < |s'.loops|
      ensures Tokens(s'.loops[l], EstablishFn(d))
              == If(Stage(s', d) == 0 && l == s'.recs[d].loop && s'.loops[0].frame != Creating(d))
    {
      assert LoopApart(e, s.loops[l], s'.loops[l], d);
    }
  }

  lemma ApartQueues(e: Edition, s: Sys, s': Sys, d: CId)
    requires Apart(e, s, s', d)
    ensures ToQueue(s', d) <==> ToQueue(s, d)
    ensures ToRun(s', d) <==> ToRun(s, d)
    ensures Owned(e, s', d) ==> Owned(e, s, d)
  {
    forall l | 0 <= l < |s.loops|
      ensures UnlistFn(d) in Unrun(s'.loops[l]) <==> UnlistFn(d) in Unrun(s.loops[l])
      ensures DestroyFn(d) in Unrun(s'.loops[l]) <==> DestroyFn(d) in Unrun(s.loops[l])
      ensures About(s'.loops[l].frame, d) <==> About(s.loops[l].frame, d)
      ensures HeldBy(e, s'.loops[l], d) ==> HeldBy(e, s.loops[l], d)
    {
      assert LoopApart(e, s.loops[l], s'.loops[l], d);
      TokenInQueue(s.loops[l], UnlistFn(d));
      TokenInQueue(s'.loops[l], UnlistFn(d));
      TokenInQueue(s.loops[l], DestroyFn(d));
      TokenInQueue(s'.loops[l], DestroyFn(d));
    }
  }

  // Changes of one loop.

  lemma WalkApart(e: Edition, l: Loop, ready: seq<CId>, d: CId)
    ensures LoopApart(e, l, Polled(l, ready), d) && LoopApart(e, l, Advanced(l), d)
  {
    assert Unrun(Polled(l, ready)) == Unrun(l) && Unrun(Advanced(l)) == Unrun(l);
  }

  lemma SwapApart(e: Edition, l: Loop, d: CId)
    requires l.batch == []
    ensures LoopApart(e, l, Swapped(l), d)
  {
    UnrunSwap(l);
  }

  lemma EndApart(e: Edition, l: Loop, d: CId)
    ensures LoopApart(e, l, Ended(l), d)
  {
    assert Unrun(Ended(l)) == Unrun(l);
  }

  lemma PopApart(e: Edition, l: Loop, d: CId)
    requires l.batch != [] && d != l.batch[0].c
    ensures LoopApart(e, l, Popped(l), d)
  {
    TokensPop(l);
    HeldAppend(e, l.ran, l.batch[0], d);
    assert HeldIn(e, Popped(l).batch, d) ==> HeldIn(e, l.batch, d);
  }

  lemma PostApart(e: Edition, l: Loop, f: Fn, d: CId)
    requires d != f.c
    ensures LoopApart(e, l, Posted(l, f), d)
  {
    TokensPost(l, f);
    HeldAppend(e, l.pending, f, d);
  }

  lemma FrameApart(e: Edition, l: Loop, frame: Frame, d: CId)
    requires !About(l.frame, d) && !About(frame, d)
    ensures LoopApart(e, l, Framed(l, frame), d)
  {
    assert Unrun(Framed(l, frame)) == Unrun(l);
  }

  // Changes of the server.

  lemma PutLoopApart(e: Edition, s: Sys, l: LId, loop: Loop, d: CId)
    requires l < |s.loops| && d in s.recs && LoopApart(e, s.loops[l], loop, d)
    ensures Apart(e, s, PutLoop(s, l, loop), d)
  {
  }

  lemma PostsApart(e: Edition, s: Sys, l: LId, f: Fn, d: CId)
    requires l < |s.loops| && d in s.recs && d != f.c
    ensures Apart(e, s, Post(s, l, f), d)
  {
    PostApart(e, s.loops[l], f, d);
    PutLoopApart(e, s, l, Posted(s.loops[l], f), d);
  }

  lemma FramesApart(e: Edition, s: Sys, l: LId, frame: Frame, d: CId)
    requires l < |s.loops| && d in s.recs && !About(s.loops[l].frame, d) && !About(frame, d)
    ensures Apart(e, s, SetFrame(s, l, frame), d)
  {
    FrameApart(e, s.loops[l], frame, d);
    PutLoopApart(e, s, l, Framed(s.loops[l], frame), d);
  }

  lemma RecordApart(e: Edition, s: Sys, c: CId, rec: Rec, listed: set<CId>, d: CId)
    requires d in s.recs && d != c && (d in listed <==> d in s.listed)
    ensures Apart(e, s, s.(recs := s.recs[c := rec], listed := listed), d)
  {
  }

  lemma RegApart(e: Edition, s: Sys, l: LId, r: Reg<CId>, d: CId)
    requires l < |s.regs| && d in s.recs
    requires d in r.chans <==> d in s.regs[l].chans
    requires d in r.chans ==> r.chans[d] == s.regs[l].chans[d]
    ensures Apart(e, s, PutReg(s, l, r), d)
  {
  }

  lemma MaskApart(e: Edition, s: Sys, c: CId, mask: Mask, d: CId)
    requires d in s.recs && d != c
    ensures Apart(e, s, SetMask(s, c, mask), d)
    ensures Apart(e, s, AddInterest(s, c, mask), d)
    ensures Apart(e, s, Unregister(s, c), d)
  {
    if Known(s, c) {
      var r := s.regs[s.recs[c].loop];
      ChansEffect(r, c, mask);
      ChansEffect(r, c, r.chans[c].events + mask);
      RegApart(e, s, s.recs[c].loop, r.SetEvents(c, mask), d);
      RegApart(e, s, s.recs[c].loop, r.SetEvents(c, r.chans[c].events + mask), d);
      RegApart(e, s, s.recs[c].loop, r.RemoveChannel(c), d);
    }
  }

  lemma StateApart(e: Edition, s: Sys, c: CId, state: C.StateE, d: CId)
    requires c in s.recs && d in s.recs && d != c
    ensures Apart(e, s, SetState(s, c, state), d)
  {
  }

  lemma MarkApart(e: Edition, s: Sys, c: CId, milestone: Milestone, d: CId)
    requires c in s.recs && d in s.recs && d != c
    ensures Apart(e, s, Mark(s, c, milestone), d)
  {
  }

  lemma HandlersApart(e: Edition, s: Sys, c: CId, watch: bool, d: CId)
    requires c in s.recs && d in s.recs && d != c
    ensures Apart(e, s, DoEstablish(s, c), d)
    ensures Apart(e, s, DoClose(s, c), d)
    ensures Apart(e, s, Unlist(s, c), d)
    ensures Apart(e, s, DoSend(e, s, c, watch), d)
  {
    EstablishApart(e, s, c, d);
    CloseApart(e, s, c, d);
    RecordApart(e, s, c, s.recs[c].(history := s.recs[c].history + [Unlisted]), s.listed - {c}, d);
    SendApart(e, s, c, watch, d);
  }

  lemma EstablishApart(e: Edition, s: Sys, c: CId, d: CId)
    requires c in s.recs && d in s.recs && d != c
    ensures Apart(e, s, DoEstablish(s, c), d)
  {
    var t := SetState(s, c, C.Connected);
    var u := AddInterest(t, c, READ_EVENT);
    StateApart(e, s, c, C.Connected, d);
    MaskApart(e, t, c, READ_EVENT, d);
    MarkApart(e, u, c, Established, d);
    ApartTrans(e, s, t, u, d);
    ApartTrans(e, s, u, Mark(u, c, Established), d);
  }

  lemma CloseApart(e: Edition, s: Sys, c: CId, d: CId)
    requires c in s.recs && d in s.recs && d != c
    ensures Apart(e, s, DoClose(s, c), d)
  {
    var t := SetState(s, c, C.Disconnected);
    var u := SetMask(t, c, NONE_EVENT);
    StateApart(e, s, c, C.Disconnected, d);
    MaskApart(e, t, c, NONE_EVENT, d);
    MarkApart(e, u, c, Closed, d);
    ApartTrans(e, s, t, u, d);
    ApartTrans(e, s, u, Mark(u, c, Closed), d);
  }

  lemma SendApart(e: Edition, s: Sys, c: CId, watch: bool, d: CId)
    requires c in s.recs && d in s.recs && d != c
    ensures Apart(e, s, DoSend(e, s, c, watch), d)
  {
    var t := if e == C.AsWritten then SetState(s, c, C.Disconnected) else s;
    StateApart(e, s, c, C.Disconnected, d);
    MaskApart(e, t, c, WRITE_EVENT, d);
    assert Apart(e, s, t, d);
    if watch {
      ApartTrans(e, s, t, AddInterest(t, c, WRITE_EVENT), d);
    }
  }

  lemma DestroyApart(e: Edition, s: Sys, c: CId, d: CId)
    requires c in s.recs && d in s.recs && d != c
    ensures Apart(e, s, DoDestroy(s, c), d)
  {
    var t := SetState(s, c, C.Disconnected);
    var u := Quieted(s, c);
    var v := Unregister(u, c);
    StateApart(e, s, c, C.Disconnected, d);
    MaskApart(e, t, c, NONE_EVENT, d);
    ApartTrans(e, s, t, SetMask(t, c, NONE_EVENT), d);
    assert Apart(e, s, u, d);
    MaskApart(e, u, c, NONE_EVENT, d);
    ApartTrans(e, s, u, v, d);
    MarkApart(e, v, c, Destroyed, d);
    ApartTrans(e, s, v, Mark(v, c, Destroyed), d);
  }

  // ---------------------------------------------------------------- every step leaves the others alone

  /** The connection a step is about. */
  predicate Concerns(e: Edition, s: Sys, step: Step, c: CId)
    requires Enabled(e, s, step)
  {
    match step
    case Poll(_, _) => false
    case Advance(_) => false
    case EndDispatch(_) => false
    case EndBatch(_) => false
    case HandOver => c == s.loops[0].frame.c
    case QueueDestroy => c == s.loops[0].frame.c
    case CloseCallback(l) => c == s.loops[l].frame.c
    case StopWriting(l) => c == Current(s, l)
    case Close(l) => c == Current(s, l)
    case RunFn(l, _) => c == Head(s, l).c
    case _ => c == step.c
  }

  predicate LoopStep(step: Step) {
    step.Poll? || step.Advance? || step.EndDispatch? || step.EndBatch?
  }

  lemma LoopStepApart(e: Edition, s: Sys, step: Step, d: CId)
    requires Enabled(e, s, step) && LoopStep(step) && d in s.recs
    requires forall l :: 0 <= l < |s.loops| ==> Shape(s.loops[l])
    ensures Apart(e, s, Next(e, s, step), d)
  {
    var loop := s.loops[step.l];
    match step {
      case Poll(l, ready) => WalkApart(e, loop, ready, d);
      case Advance(l) => WalkApart(e, loop, [], d);
      case EndDispatch(l) => SwapApart(e, loop, d);
      case EndBatch(l) => EndApart(e, loop, d);
    }
    PutLoopApart(e, s, step.l, Next(e, s, step).loops[step.l], d);
  }

  predicate FrameStep(step: Step) {
    step.Accept? || step.HandOver? || step.CloseCallback? || step.QueueDestroy? || step.Close?
  }

  lemma UnlistApart(e: Edition, s: Sys, c: CId, d: CId)
    requires c in s.recs && d in s.recs && d != c && 0 < |s.loops| && !About(s.loops[0].frame, d)
    ensures Apart(e, s, DoUnlist(s, c), d)
  {
    HandlersApart(e, s, c, false, d);
    FramesApart(e, Unlist(s, c), 0, Erased(c), d);
    ApartTrans(e, s, Unlist(s, c), DoUnlist(s, c), d);
  }

  lemma CreatedApart(e: Edition, s: Sys, c: CId, io: LId, fd: int, d: CId)
    requires d in s.recs && d != c && io < |s.regs|
    ensures Apart(e, s, Created(s, c, io, fd), d)
  {
    var t := s.(recs := s.recs[c := Rec(io, fd, C.Connecting, [])], listed := s.listed + {c});
    RecordApart(e, s, c, Rec(io, fd, C.Connecting, []), s.listed + {c}, d);
    RegApart(e, t, io, Created(s, c, io, fd).regs[io], d);
    ApartTrans(e, s, t, Created(s, c, io, fd), d);
  }

  lemma FrameStepApart(e: Edition, s: Sys, step: Step, d: CId)
    requires Enabled(e, s, step) && FrameStep(step) && d in s.recs && !Concerns(e, s, step, d)
    ensures Apart(e, s, Next(e, s, step), d)
  {
    match step {
      case Accept(c, io, fd) =>
        CreatedApart(e, s, c, io, fd, d);
        FramesApart(e, Created(s, c, io, fd), 0, Creating(c), d);
        ApartTrans(e, s, Created(s, c, io, fd), Next(e, s, step), d);
      case HandOver =>
        var c := s.loops[0].frame.c;
        var t := SetFrame(s, 0, Idle);
        FramesApart(e, s, 0, Idle, d);
        HandlersApart(e, t, c, false, d);
        PostsApart(e, t, s.recs[c].loop, EstablishFn(c), d);
        ApartTrans(e, s, t, Next(e, s, step), d);
      case CloseCallback(l) =>
        var c := s.loops[l].frame.c;
        var t := SetFrame(s, l, Idle);
        FramesApart(e, s, l, Idle, d);
        if l == 0 {
          UnlistApart(e, t, c, d);
        } else {
          PostsApart(e, t, 0, UnlistFn(c), d);
        }
        ApartTrans(e, s, t, Next(e, s, step), d);
      case QueueDestroy =>
        var c := s.loops[0].frame.c;
        var t := SetFrame(s, 0, Idle);
        FramesApart(e, s, 0, Idle, d);
        PostsApart(e, t, s.recs[c].loop, DestroyFn(c), d);
        ApartTrans(e, s, t, Next(e, s, step), d);
      case Close(l) => CloseStepApart(e, s, l, d);
    }
  }

  lemma CloseStepApart(e: Edition, s: Sys, l: LId, d: CId)
    requires Enabled(e, s, Close(l)) && d in s.recs && d != Current(s, l)
    ensures Apart(e, s, Next(e, s, Close(l)), d)
  {
    var c := Current(s, l);
    var t := PutLoop(s, l, Advanced(s.loops[l]));
    WalkApart(e, s.loops[l], [], d);
    PutLoopApart(e, s, l, Advanced(s.loops[l]), d);
    CloseApart(e, t, c, d);
    ApartTrans(e, s, t, DoClose(t, c), d);
    FramesApart(e, DoClose(t, c), l, Closing(c), d);
    ApartTrans(e, s, DoClose(t, c), Next(e, s, Close(l)), d);
  }

  lemma ExecuteApart(e: Edition, s: Sys, f: Fn, watch: bool, d: CId)
    requires f.c in s.recs && d in s.recs && d != f.c && 0 < |s.loops|
    requires f.UnlistFn? ==> !About(s.loops[0].frame, d)
    ensures Apart(e, s, Execute(e, s, f, watch), d)
  {
    match f {
      case EstablishFn(c) => EstablishApart(e, s, c, d);
      case UnlistFn(c) => UnlistApart(e, s, c, d);
      case DestroyFn(c) => DestroyApart(e, s, c, d);
      case SendFn(c) => SendApart(e, s, c, watch, d);
      case _ =>
    }
  }

  lemma RunFnApart(e: Edition, s: Sys, l: LId, watch: bool, d: CId)
    requires Enabled(e, s, RunFn(l, watch)) && d in s.recs && d != Head(s, l).c
    requires Head(s, l).UnlistFn? ==> l == 0
    ensures Apart(e, s, Next(e, s, RunFn(l, watch)), d)
  {
    var t := PutLoop(s, l, Popped(s.loops[l]));
    PopApart(e, s.loops[l], d);
    PutLoopApart(e, s, l, Popped(s.loops[l]), d);
    ExecuteApart(e, t, Head(s, l), watch, d);
    ApartTrans(e, s, t, Next(e, s, RunFn(l, watch)), d);
  }

  /** Handlers and user code on a loop's own thread, and the destructors. */
  predicate OwnStep(step: Step) {
    step.StopWriting? || step.DirectSend? || step.DirectShutdown? || step.PushNotify? || step.Free?
  }

  lemma OwnStepApart(e: Edition, s: Sys, step: Step, d: CId)
    requires Enabled(e, s, step) && OwnStep(step) && d in s.recs && !Concerns(e, s, step, d)
    ensures Apart(e, s, Next(e, s, step), d)
  {
    match step {
      case StopWriting(l) =>
        MaskApart(e, s, Current(s, l), ChanOf(s, Current(s, l)).events - WRITE_EVENT, d);
      case DirectSend(l, c, watch) => SendApart(e, s, c, watch, d);
      case DirectShutdown(l, c) => StateApart(e, s, c, C.Disconnecting, d);
      case PushNotify(c) => PostsApart(e, s, s.recs[c].loop, NotifyFn(c), d);
      case Free(c) =>
    }
  }

  /** Calls of other threads. */
  predicate CallStep(step: Step) {
    || step.Acquire? || step.Drop? || step.BeginSend? || step.PushSend?
    || step.BeginShutdown? || step.StoreShutdown? || step.PushShutdown?
  }

  lemma CallStepApart(e: Edition, s: Sys, step: Step, d: CId)
    requires Enabled(e, s, step) && CallStep(step) && d in s.recs && !Concerns(e, s, step, d)
    ensures Apart(e, s, Next(e, s, step), d)
  {
    if step.PushSend? {
      PushApart(e, s, s.calls - multiset{Sending(step.c)}, SendFn(step.c), d);
    } else if step.PushShutdown? {
      PushApart(e, s, s.calls - multiset{Stopped(step.c)}, ShutdownFn(step.c), d);
    } else if step.StoreShutdown? {
      StoreApart(e, s, step.c, d);
    } else {
      SetsApart(e, s, Next(e, s, step), d);
    }
  }

  lemma StoreApart(e: Edition, s: Sys, c: CId, d: CId)
    requires Enabled(e, s, StoreShutdown(c)) && d in s.recs && d != c
    ensures Apart(e, s, Next(e, s, StoreShutdown(c)), d)
  {
    var t := SetState(s, c, C.Disconnecting);
    StateApart(e, s, c, C.Disconnecting, d);
    SetsApart(e, t, Next(e, s, StoreShutdown(c)), d);
    ApartTrans(e, s, t, Next(e, s, StoreShutdown(c)), d);
  }

  lemma SetsApart(e: Edition, s: Sys, s': Sys, d: CId)
    requires d in s.recs && s' == s.(users := s'.users, calls := s'.calls)
    requires (d in s'.users <==> d in s.users) && (Calling(s', d) <==> Calling(s, d))
    ensures Apart(e, s, s', d)
  {
  }

  lemma PushApart(e: Edition, s: Sys, calls: multiset<Call>, f: Fn, d: CId)
    requires Known(s, f.c) && d in s.recs && d != f.c && (Calling(PutCalls(s, calls), d) <==> Calling(s, d))
    ensures Apart(e, s, Post(PutCalls(s, calls), s.recs[f.c].loop, f), d)
  {
    var t := PutCalls(s, calls);
    assert Apart(e, s, t, d);
    PostsApart(e, t, s.recs[f.c].loop, f, d);
    ApartTrans(e, s, t, Post(t, s.recs[f.c].loop, f), d);
  }

  /** A step leaves every connection alone that it is not about. */
  lemma StepApart(e: Edition, s: Sys, step: Step, d: CId)
    requires Housed(e, s) && Enabled(e, s, step) && d in s.recs && !Concerns(e, s, step, d)
    ensures Apart(e, s, Next(e, s, step), d)
  {
    if LoopStep(step) {
      LoopStepApart(e, s, step, d);
    } else if FrameStep(step) {
      FrameStepApart(e, s, step, d);
    } else if step.RunFn? {
      HeadPlaced(s, step.l);
      RunFnApart(e, s, step.l, step.watch, d);
    } else if OwnStep(step) {
      OwnStepApart(e, s, step, d);
    } else {
      CallStepApart(e, s, step, d);
    }
  }

  lemma HeadPlaced(s: Sys, l: LId)
    requires CanRun(s, l) && Fits(s, l, s.loops[l])
    ensures Placed(s, l, Head(s, l))
  {
    assert s.loops[l].batch[0] == Head(s, l);
  }

  // ---------------------------------------------------------------- loops, pollers and sets

  lemma PlacedAppend(s: Sys, l: LId, q: seq<Fn>, f: Fn)
    requires AllPlaced(s, l, q) && Placed(s, l, f)
    ensures AllPlaced(s, l, q + [f])
  {
  }

  /** One loop changes and holds no freed connection it did not hold before. */
  lemma PutLoopHoused(e: Edition, s: Sys, l: LId, loop: Loop)
    requires Housed(e, s) && l < |s.loops| && Fits(s, l, loop)
    requires forall d :: d in s.freed && HeldBy(e, loop, d) ==> HeldBy(e, s.loops[l], d)
    ensures Housed(e, PutLoop(s, l, loop))
  {
    var s' := PutLoop(s, l, loop);
    forall k | 0 <= k < |s'.loops|
      ensures Fits(s', k, s'.loops[k])
    {
      FitsGrows(s, s', k, s'.loops[k]);
    }
    forall k | 0 <= k < |s'.regs|
      ensures RegFits(s', k, s'.regs[k])
    {
      assert RegFits(s, k, s.regs[k]);
    }
    forall d | d in s'.freed
      ensures !Owned(e, s', d)
    {
      PutLoopOwners(e, s, l, loop, d);
    }
  }

  lemma PutLoopOwners(e: Edition, s: Sys, l: LId, loop: Loop, d: CId)
    requires l < |s.loops| && (HeldBy(e, loop, d) ==> HeldBy(e, s.loops[l], d))
    ensures Owned(e, PutLoop(s, l, loop), d) ==> Owned(e, s, d)
  {
    var s' := PutLoop(s, l, loop);
    if k :| 0 <= k < |s'.loops| && HeldBy(e, s'.loops[k], d) {
      assert HeldBy(e, s.loops[k], d);
    }
  }

  lemma PostHoused(e: Edition, s: Sys, l: LId, f: Fn)
    requires Housed(e, s) && l < |s.loops| && Placed(s, l, f) && f.c !in s.freed
    ensures Housed(e, Post(s, l, f))
  {
    assert Fits(s, l, s.loops[l]);
    PlacedAppend(s, l, s.loops[l].pending, f);
    forall d | d in s.freed && HeldBy(e, Posted(s.loops[l], f), d)
      ensures HeldBy(e, s.loops[l], d)
    {
      HeldAppend(e, s.loops[l].pending, f, d);
    }
    PutLoopHoused(e, s, l, Posted(s.loops[l], f));
  }

  lemma FrameHoused(e: Edition, s: Sys, l: LId, frame: Frame)
    requires Housed(e, s) && l < |s.loops| && FramePlaced(s, l, frame) && Shape(Framed(s.loops[l], frame))
    requires frame == Idle || frame.c !in s.freed
    ensures Housed(e, SetFrame(s, l, frame))
  {
    assert Fits(s, l, s.loops[l]);
    PutLoopHoused(e, s, l, Framed(s.loops[l], frame));
  }

  lemma PopHoused(e: Edition, s: Sys, l: LId)
    requires Housed(e, s) && l < |s.loops| && s.loops[l].batch != []
    ensures Housed(e, PutLoop(s, l, Popped(s.loops[l])))
  {
    var loop := s.loops[l];
    assert Fits(s, l, loop);
    assert Placed(s, l, loop.batch[0]);
    PlacedAppend(s, l, loop.ran, loop.batch[0]);
    forall d | HeldBy(e, Popped(loop), d)
      ensures HeldBy(e, loop, d)
    {
      HeldAppend(e, loop.ran, loop.batch[0], d);
      assert loop.batch == [loop.batch[0]] + loop.batch[1..];
    }
    PutLoopHoused(e, s, l, Popped(loop));
  }

  /** Records change, and no set of connections grows. */
  lemma RecsHoused(e: Edition, s: Sys, s': Sys)
    requires Housed(e, s) && Grows(s, s') && s' == s.(recs := s'.recs, listed := s'.listed) && s'.listed <= s.listed
    ensures Housed(e, s')
  {
    forall k | 0 <= k < |s'.loops|
      ensures Fits(s', k, s'.loops[k])
    {
      FitsGrows(s, s', k, s'.loops[k]);
    }
    forall k | 0 <= k < |s'.regs|
      ensures RegFits(s', k, s'.regs[k])
    {
      assert RegFits(s, k, s.regs[k]);
    }
    assert forall d :: Owned(e, s', d) ==> Owned(e, s, d);
  }

  lemma RegHoused(e: Edition, s: Sys, l: LId, r: Reg<CId>)
    requires Housed(e, s) && l < |s.regs| && RegFits(s, l, r)
    ensures Housed(e, PutReg(s, l, r))
  {
    var s' := PutReg(s, l, r);
    forall k | 0 <= k < |s'.loops|
      ensures Fits(s', k, s'.loops[k])
    {
      FitsGrows(s, s', k, s'.loops[k]);
    }
    forall k | 0 <= k < |s'.regs|
      ensures RegFits(s', k, s'.regs[k])
    {
      assert RegFits(s, k, s.regs[k]);
    }
    assert forall d :: Owned(e, s', d) ==> Owned(e, s, d);
  }

  lemma MaskHoused(e: Edition, s: Sys, c: CId, mask: Mask)
    requires Housed(e, s)
    ensures Housed(e, SetMask(s, c, mask)) && Housed(e, AddInterest(s, c, mask)) && Housed(e, Unregister(s, c))
  {
    if Known(s, c) {
      var io := s.recs[c].loop;
      var r := s.regs[io];
      var more := r.chans[c].events + mask;
      assert RegFits(s, io, r);
      SetEventsInSync(r, c, mask);
      SetEventsInSync(r, c, more);
      RemoveChannelInSync(r, c);
      ChansEffect(r, c, mask);
      ChansEffect(r, c, more);
      RegHoused(e, s, io, r.SetEvents(c, mask));
      RegHoused(e, s, io, r.SetEvents(c, more));
      RegHoused(e, s, io, r.RemoveChannel(c));
    }
  }

  lemma StateHoused(e: Edition, s: Sys, c: CId, state: C.StateE)
    requires Housed(e, s) && c in s.recs
    ensures Housed(e, SetState(s, c, state))
  {
    RecsHoused(e, s, SetState(s, c, state));
  }

  lemma MarkHoused(e: Edition, s: Sys, c: CId, milestone: Milestone)
    requires Housed(e, s) && c in s.recs
    ensures Housed(e, Mark(s, c, milestone))
  {
    RecsHoused(e, s, Mark(s, c, milestone));
  }

  lemma EstablishHoused(e: Edition, s: Sys, c: CId)
    requires Housed(e, s) && c in s.recs
    ensures Housed(e, DoEstablish(s, c))
  {
    StateHoused(e, s, c, C.Connected);
    MaskHoused(e, SetState(s, c, C.Connected), c, READ_EVENT);
    MarkHoused(e, AddInterest(SetState(s, c, C.Connected), c, READ_EVENT), c, Established);
  }

  lemma CloseHoused(e: Edition, s: Sys, c: CId)
    requires Housed(e, s) && c in s.recs
    ensures Housed(e, DoClose(s, c))
  {
    StateHoused(e, s, c, C.Disconnected);
    MaskHoused(e, SetState(s, c, C.Disconnected), c, NONE_EVENT);
    MarkHoused(e, SetMask(SetState(s, c, C.Disconnected), c, NONE_EVENT), c, Closed);
  }

  lemma UnlistHoused(e: Edition, s: Sys, c: CId)
    requires Housed(e, s) && c in s.recs && Stage(s, c) >= 2 && c !in s.freed
    requires s.loops[0].phase != AtPoll && s.loops[0].frame == Idle
    ensures Housed(e, DoUnlist(s, c))
  {
    RecsHoused(e, s, Unlist(s, c));
    assert Fits(s, 0, s.loops[0]);
    FrameHoused(e, Unlist(s, c), 0, Erased(c));
  }

  lemma DestroyHoused(e: Edition, s: Sys, c: CId)
    requires Housed(e, s) && c in s.recs
    ensures Housed(e, DoDestroy(s, c))
  {
    StateHoused(e, s, c, C.Disconnected);
    MaskHoused(e, SetState(s, c, C.Disconnected), c, NONE_EVENT);
    MaskHoused(e, Quieted(s, c), c, NONE_EVENT);
    MarkHoused(e, Unregister(Quieted(s, c), c), c, Destroyed);
  }

  lemma SendHoused(e: Edition, s: Sys, c: CId, watch: bool)
    requires Housed(e, s) && c in s.recs
    ensures Housed(e, DoSend(e, s, c, watch))
  {
    StateHoused(e, s, c, C.Disconnected);
    MaskHoused(e, SetState(s, c, C.Disconnected), c, WRITE_EVENT);
    MaskHoused(e, s, c, WRITE_EVENT);
  }

  /** Users and calls change, and take up no freed connection. */
  lemma SetsHoused(e: Edition, s: Sys, s': Sys)
    requires Housed(e, s) && s' == s.(users := s'.users, calls := s'.calls)
    requires forall d :: d in s'.users || Calling(s', d) ==>
               d in s.users || Calling(s, d) || (d in s.recs && d !in s.freed)
    ensures Housed(e, s')
  {
    forall k | 0 <= k < |s'.loops|
      ensures Fits(s', k, s'.loops[k])
    {
      FitsGrows(s, s', k, s'.loops[k]);
    }
    forall k | 0 <= k < |s'.regs|
      ensures RegFits(s', k, s'.regs[k])
    {
      assert RegFits(s, k, s.regs[k]);
    }
    forall d | d in s'.freed
      ensures !Owned(e, s', d)
    {
      assert !Owned(e, s, d);
    }
  }

  lemma CreatedHoused(e: Edition, s: Sys, c: CId, io: LId, fd: int)
    requires Housed(e, s) && c !in s.recs && io < |s.loops|
    requires forall d :: d in s.regs[io].chans ==> s.regs[io].chans[d].fd != fd
    ensures Housed(e, Created(s, c, io, fd))
  {
    var s' := Created(s, c, io, fd);
    assert Grows(s, s');
    forall k | 0 <= k < |s'.loops|
      ensures Fits(s', k, s'.loops[k])
    {
      FitsGrows(s, s', k, s'.loops[k]);
    }
    forall k | 0 <= k < |s'.regs|
      ensures RegFits(s', k, s'.regs[k])
    {
      CreatedReg(s, c, io, fd, k);
    }
    forall d | d in s'.freed
      ensures !Owned(e, s', d)
    {
      assert !Owned(e, s, d);
    }
  }

  lemma CreatedReg(s: Sys, c: CId, io: LId, fd: int, k: LId)
    requires c !in s.recs && io < |s.regs| && k < |s.regs| && RegFits(s, io, s.regs[io]) && RegFits(s, k, s.regs[k])
    requires forall d :: d in s.regs[io].chans ==> s.regs[io].chans[d].fd != fd
    ensures RegFits(Created(s, c, io, fd), k, Created(s, c, io, fd).regs[k])
  {
    if k == io {
      CreateInSync(s.regs[io], c, fd);
    }
  }

  /** The fd of a new connection is on none of its poller's channels. */
  lemma FdIsNew(s: Sys, io: LId, fd: int)
    requires io < |s.regs| && RegFits(s, io, s.regs[io]) && forall d :: d in s.recs ==> RecOk(s, d)
    requires forall d :: d in s.recs && d !in s.freed ==> s.recs[d].fd != fd
    ensures forall d :: d in s.regs[io].chans ==> s.regs[io].chans[d].fd != fd
  {
    forall d | d in s.regs[io].chans
      ensures s.regs[io].chans[d].fd != fd
    {
      assert RecOk(s, d);
      assert Known(s, d);
    }
  }

  lemma ReleasedHoused(e: Edition, s: Sys, c: CId)
    requires Housed(e, s) && Known(s, c) && RecOk(s, c) && !Owned(e, s, c)
    ensures Housed(e, Released(s, c))
  {
    var s' := Released(s, c);
    var io := s.recs[c].loop;
    forall k | 0 <= k < |s'.loops|
      ensures Fits(s', k, s'.loops[k])
    {
      FitsGrows(s, s', k, s'.loops[k]);
    }
    forall k | 0 <= k < |s'.regs|
      ensures RegFits(s', k, s'.regs[k])
    {
      assert RegFits(s, k, s.regs[k]);
    }
    assert forall d :: Owned(e, s', d) ==> Owned(e, s, d);
  }

  // ---------------------------------------------------------------- what the handlers do

  lemma HandlersKeepLoops(e: Edition, s: Sys, c: CId, watch: bool)
    requires c in s.recs
    ensures DoEstablish(s, c).loops == s.loops && |DoEstablish(s, c).regs| == |s.regs|
    ensures DoClose(s, c).loops == s.loops && |DoClose(s, c).regs| == |s.regs|
    ensures DoSend(e, s, c, watch).loops == s.loops && |DoSend(e, s, c, watch).regs| == |s.regs|
  {
  }

  lemma DestroyKeepsLoops(s: Sys, c: CId)
    requires c in s.recs
    ensures DoDestroy(s, c).loops == s.loops && |DoDestroy(s, c).regs| == |s.regs|
  {
  }

  lemma ExecuteLoops(e: Edition, s: Sys, f: Fn, watch: bool)
    requires f.c in s.recs && 0 < |s.loops|
    ensures Execute(e, s, f, watch).loops
            == if f.UnlistFn? && f.c !in s.freed then s.loops[0 := Framed(s.loops[0], Erased(f.c))] else s.loops
    ensures |Execute(e, s, f, watch).regs| == |s.regs|
  {
    HandlersKeepLoops(e, s, f.c, watch);
    DestroyKeepsLoops(s, f.c);
  }

  /** What a step makes of the loop it is a step of. */
  function LoopAfter(e: Edition, s: Sys, step: Step): Loop
    requires Enabled(e, s, step) && (LoopStep(step) || step.RunFn? || step.Close?)
  {
    var loop := s.loops[step.l];
    match step
    case Poll(_, ready) => Polled(loop, ready)
    case Advance(_) => Advanced(loop)
    case EndDispatch(_) => Swapped(loop)
    case EndBatch(_) => Ended(loop)
    case Close(_) => Framed(Advanced(loop), Closing(Current(s, step.l)))
    case RunFn(_, _) => Popped(loop)
  }

  /** Loops change in their frames and queues only, but for their own steps. */
  predicate SamePhase(l: Loop, l': Loop) {
    l'.phase == l.phase && l'.active == l.active && l'.walked == l.walked && l'.ran == l.ran && l'.batch == l.batch
    && l.pending <= l'.pending
  }

  /** The loops after a step. */
  predicate LoopsGo(e: Edition, s: Sys, step: Step, s': Sys)
    requires Enabled(e, s, step)
  {
    && |s'.loops| == |s.loops| && |s'.regs| == |s.regs|
    && forall k :: 0 <= k < |s.loops| ==>
         SamePhase(if (LoopStep(step) || step.RunFn? || step.Close?) && k == step.l then LoopAfter(e, s, step)
                   else s.loops[k], s'.loops[k])
  }

  lemma RunFnGoes(e: Edition, s: Sys, l: LId, watch: bool)
    requires Enabled(e, s, RunFn(l, watch))
    ensures LoopsGo(e, s, RunFn(l, watch), Next(e, s, RunFn(l, watch)))
  {
    ExecuteLoops(e, PutLoop(s, l, Popped(s.loops[l])), Head(s, l), watch);
  }

  lemma CloseGoes(e: Edition, s: Sys, l: LId)
    requires Enabled(e, s, Close(l))
    ensures LoopsGo(e, s, Close(l), Next(e, s, Close(l)))
  {
    HandlersKeepLoops(e, PutLoop(s, l, Advanced(s.loops[l])), Current(s, l), false);
  }

  lemma HandOverGoes(e: Edition, s: Sys)
    requires Enabled(e, s, HandOver)
    ensures LoopsGo(e, s, HandOver, Next(e, s, HandOver))
  {
    HandlersKeepLoops(e, SetFrame(s, 0, Idle), s.loops[0].frame.c, false);
  }

  lemma FrameStepGoes(e: Edition, s: Sys, step: Step)
    requires Enabled(e, s, step) && FrameStep(step)
    ensures LoopsGo(e, s, step, Next(e, s, step))
  {
    match step {
      case Close(l) => CloseGoes(e, s, l);
      case HandOver => HandOverGoes(e, s);
      case _ => QuietFrameGoes(e, s, step);
    }
  }

  lemma QuietFrameGoes(e: Edition, s: Sys, step: Step)
    requires Enabled(e, s, step) && (step.Accept? || step.CloseCallback? || step.QueueDestroy?)
    ensures LoopsGo(e, s, step, Next(e, s, step))
  {
  }

  lemma OwnStepGoes(e: Edition, s: Sys, step: Step)
    requires Enabled(e, s, step) && OwnStep(step)
    ensures LoopsGo(e, s, step, Next(e, s, step))
  {
    if step.DirectSend? {
      HandlersKeepLoops(e, s, step.c, step.watch);
    }
  }

  lemma PushGoes(e: Edition, s: Sys, step: Step)
    requires Enabled(e, s, step) && (step.PushSend? || step.PushShutdown?)
    ensures LoopsGo(e, s, step, Next(e, s, step))
  {
  }

  lemma HoldGoes(e: Edition, s: Sys, step: Step)
    requires Enabled(e, s, step)
    requires step.Acquire? || step.Drop? || step.BeginSend? || step.BeginShutdown? || step.StoreShutdown?
    ensures LoopsGo(e, s, step, Next(e, s, step))
  {
  }

  lemma CallStepGoes(e: Edition, s: Sys, step: Step)
    requires Enabled(e, s, step) && CallStep(step)
    ensures LoopsGo(e, s, step, Next(e, s, step))
  {
    if step.PushSend? || step.PushShutdown? {
      PushGoes(e, s, step);
    } else {
      HoldGoes(e, s, step);
    }
  }

  lemma StepGoes(e: Edition, s: Sys, step: Step)
    requires Enabled(e, s, step)
    ensures LoopsGo(e, s, step, Next(e, s, step))
  {
    if FrameStep(step) {
      FrameStepGoes(e, s, step);
    } else if OwnStep(step) {
      OwnStepGoes(e, s, step);
    } else if CallStep(step) {
      CallStepGoes(e, s, step);
    } else if step.RunFn? {
      RunFnGoes(e, s, step.l, step.watch);
    }
  }

  /** The loop a step leaves behind, before anything was queued on it. */
  function Base(e: Edition, s: Sys, step: Step, l: LId): Loop
    requires Enabled(e, s, step) && l < |s.loops|
  {
    if (LoopStep(step) || step.RunFn? || step.Close?) && l == step.l then LoopAfter(e, s, step) else s.loops[l]
  }

  lemma LoopGoes(e: Edition, s: Sys, step: Step, l: LId)
    requires Enabled(e, s, step) && l < |s.loops|
    ensures |Next(e, s, step).loops| == |s.loops| && SamePhase(Base(e, s, step, l), Next(e, s, step).loops[l])
  {
    StepGoes(e, s, step);
  }

  /** One connection changes, in its record and its channel. */
  predicate Moved(s: Sys, s': Sys, c: CId, rec: Rec, chan: Chan)
    requires Known(s, c)
  {
    var io := s.recs[c].loop;
    && s' == s.(recs := s.recs[c := rec], regs := s'.regs) && rec.loop == io && rec.fd == s.recs[c].fd
    && |s'.regs| == |s.regs| && s'.regs[io].chans == s.regs[io].chans[c := chan]
    && forall k :: 0 <= k < |s.regs| && k != io ==> s'.regs[k] == s.regs[k]
  }

  lemma MaskEffect(s: Sys, c: CId, mask: Mask)
    requires Known(s, c)
    ensures Moved(s, SetMask(s, c, mask), c, s.recs[c], Touched(ChanOf(s, c), mask))
    ensures Moved(s, Unregister(s, c), c, s.recs[c], ChanOf(s, c).(index := New))
  {
    ChansEffect(s.regs[s.recs[c].loop], c, mask);
  }

  lemma EstablishEffect(s: Sys, c: CId)
    requires Known(s, c)
    ensures Moved(s, DoEstablish(s, c), c,
                  s.recs[c].(state := C.Connected, history := s.recs[c].history + [Established]),
                  Touched(ChanOf(s, c), ChanOf(s, c).events + READ_EVENT))
  {
    MaskEffect(SetState(s, c, C.Connected), c, ChanOf(s, c).events + READ_EVENT);
  }

  lemma CloseEffect(s: Sys, c: CId)
    requires Known(s, c)
    ensures Moved(s, DoClose(s, c), c,
                  s.recs[c].(state := C.Disconnected, history := s.recs[c].history + [Closed]),
                  Touched(ChanOf(s, c), NONE_EVENT))
  {
    MaskEffect(SetState(s, c, C.Disconnected), c, NONE_EVENT);
  }

  lemma SendEffect(e: Edition, s: Sys, c: CId, watch: bool)
    requires Known(s, c) && !Refused(e, s, c)
    ensures Moved(s, DoSend(e, s, c, watch), c,
                  s.recs[c].(state := if e == C.AsWritten then C.Disconnected else s.recs[c].state),
                  if watch then Touched(ChanOf(s, c), ChanOf(s, c).events + WRITE_EVENT) else ChanOf(s, c))
  {
    var t := if e == C.AsWritten then SetState(s, c, C.Disconnected) else s;
    MaskEffect(t, c, ChanOf(s, c).events + WRITE_EVENT);
  }

  lemma DestroyEffect(s: Sys, c: CId)
    requires Known(s, c)
    ensures var quiet := s.recs[c].state == C.Connected;
            Moved(s, DoDestroy(s, c), c,
                  s.recs[c].(state := if quiet then C.Disconnected else s.recs[c].state,
                             history := s.recs[c].history + [Destroyed]),
                  ChanOf(s, c).(index := New, events := if quiet then NONE_EVENT else ChanOf(s, c).events))
  {
    MaskEffect(SetState(s, c, C.Disconnected), c, NONE_EVENT);
    MaskEffect(Quieted(s, c), c, NONE_EVENT);
  }

  // ---------------------------------------------------------------- steps, loop by loop

  /** The kernel reports living, established connections of its own loop. */
  lemma ReportedIsKnown(e: Edition, s: Sys, l: LId, c: CId)
    requires Sane(e, s) && l < |s.regs| && Reported(s.regs[l], c)
    ensures Known(s, c) && s.recs[c].loop == l && c !in s.freed
    ensures ChanOf(s, c).index == Added && Stage(s, c) >= 1
  {
    assert RegFits(s, l, s.regs[l]);
    ReportedInSync(s.regs[l], c);
    assert RecOk(s, c);
  }

  lemma PolledFits(e: Edition, s: Sys, l: LId, ready: seq<CId>)
    requires Sane(e, s) && Enabled(e, s, Poll(l, ready))
    ensures Fits(s, l, Polled(s.loops[l], ready))
  {
    assert Fits(s, l, s.loops[l]);
    forall i | 0 <= i < |ready|
      ensures ready[i] in s.recs && s.recs[ready[i]].loop == l && Stage(s, ready[i]) >= 1
    {
      ReportedIsKnown(e, s, l, ready[i]);
    }
  }

  lemma LoopStepHoused(e: Edition, s: Sys, step: Step)
    requires Sane(e, s) && Enabled(e, s, step) && LoopStep(step)
    ensures Housed(e, Next(e, s, step))
  {
    var loop := s.loops[step.l];
    assert Fits(s, step.l, loop);
    if step.Poll? {
      PolledFits(e, s, step.l, step.ready);
    }
    PutLoopHoused(e, s, step.l, Next(e, s, step).loops[step.l]);
  }

  lemma AcceptHoused(e: Edition, s: Sys, c: CId, io: LId, fd: int)
    requires Sane(e, s) && Enabled(e, s, Accept(c, io, fd))
    ensures Housed(e, Next(e, s, Accept(c, io, fd)))
  {
    FdIsNew(s, io, fd);
    CreatedHoused(e, s, c, io, fd);
    assert Fits(s, 0, s.loops[0]);
    FrameHoused(e, Created(s, c, io, fd), 0, Creating(c));
  }

  lemma HandOverHoused(e: Edition, s: Sys)
    requires Sane(e, s) && Enabled(e, s, HandOver)
    ensures Housed(e, Next(e, s, HandOver))
  {
    var c := s.loops[0].frame.c;
    assert Fits(s, 0, s.loops[0]) && RecOk(s, c);
    FrameHoused(e, s, 0, Idle);
    if s.recs[c].loop == 0 {
      EstablishHoused(e, SetFrame(s, 0, Idle), c);
    } else {
      PostHoused(e, SetFrame(s, 0, Idle), s.recs[c].loop, EstablishFn(c));
    }
  }

  lemma CloseStepHoused(e: Edition, s: Sys, l: LId)
    requires Sane(e, s) && Enabled(e, s, Close(l))
    ensures Housed(e, Next(e, s, Close(l)))
  {
    var c := Current(s, l);
    var t := PutLoop(s, l, Advanced(s.loops[l]));
    assert Fits(s, l, s.loops[l]) && RecOk(s, c);
    PutLoopHoused(e, s, l, Advanced(s.loops[l]));
    CloseHoused(e, t, c);
    CloseEffect(t, c);
    FrameHoused(e, DoClose(t, c), l, Closing(c));
  }

  lemma CloseCallbackHoused(e: Edition, s: Sys, l: LId)
    requires Sane(e, s) && Enabled(e, s, CloseCallback(l))
    ensures Housed(e, Next(e, s, CloseCallback(l)))
  {
    var c := s.loops[l].frame.c;
    assert Fits(s, l, s.loops[l]) && RecOk(s, c);
    FrameHoused(e, s, l, Idle);
    if l == 0 {
      UnlistHoused(e, SetFrame(s, 0, Idle), c);
    } else {
      PostHoused(e, SetFrame(s, l, Idle), 0, UnlistFn(c));
    }
  }

  lemma QueueDestroyHoused(e: Edition, s: Sys)
    requires Sane(e, s) && Enabled(e, s, QueueDestroy)
    ensures Housed(e, Next(e, s, QueueDestroy))
  {
    var c := s.loops[0].frame.c;
    assert Fits(s, 0, s.loops[0]) && RecOk(s, c);
    FrameHoused(e, s, 0, Idle);
    PostHoused(e, SetFrame(s, 0, Idle), s.recs[c].loop, DestroyFn(c));
  }

  lemma RunFnHoused(e: Edition, s: Sys, l: LId, watch: bool)
    requires Sane(e, s) && Enabled(e, s, RunFn(l, watch))
    ensures Housed(e, Next(e, s, RunFn(l, watch)))
  {
    var f := Head(s, l);
    var t := PutLoop(s, l, Popped(s.loops[l]));
    assert Fits(s, l, s.loops[l]);
    HeadPlaced(s, l);
    PopHoused(e, s, l);
    if f.c !in s.freed {
      match f {
        case EstablishFn(c) => EstablishHoused(e, t, c);
        case UnlistFn(c) => UnlistHoused(e, t, c);
        case DestroyFn(c) => DestroyHoused(e, t, c);
        case SendFn(c) => SendHoused(e, t, c, watch);
        case _ =>
      }
    }
  }

  lemma OwnStepHoused(e: Edition, s: Sys, step: Step)
    requires Sane(e, s) && Enabled(e, s, step) && OwnStep(step)
    ensures Housed(e, Next(e, s, step))
  {
    match step {
      case StopWriting(l) => MaskHoused(e, s, Current(s, l), ChanOf(s, Current(s, l)).events - WRITE_EVENT);
      case DirectSend(l, c, watch) => SendHoused(e, s, c, watch);
      case DirectShutdown(l, c) => StateHoused(e, s, c, C.Disconnecting);
      case PushNotify(c) =>
        assert RecOk(s, c);
        PostHoused(e, s, s.recs[c].loop, NotifyFn(c));
      case Free(c) =>
        assert RecOk(s, c);
        ReleasedHoused(e, s, c);
    }
  }

  lemma FewerCalls(s: Sys, calls: multiset<Call>)
    requires calls <= s.calls
    ensures forall d :: Calling(PutCalls(s, calls), d) ==> Calling(s, d)
  {
  }

  lemma PushHoused(e: Edition, s: Sys, calls: multiset<Call>, f: Fn)
    requires Sane(e, s) && Known(s, f.c) && Calling(s, f.c) && (f.SendFn? || f.ShutdownFn?)
    requires calls <= s.calls
    ensures Housed(e, Post(PutCalls(s, calls), s.recs[f.c].loop, f))
  {
    assert RecOk(s, f.c);
    FewerCalls(s, calls);
    SetsHoused(e, s, PutCalls(s, calls));
    PostHoused(e, PutCalls(s, calls), s.recs[f.c].loop, f);
  }

  lemma PushSendHoused(e: Edition, s: Sys, c: CId)
    requires Sane(e, s) && Enabled(e, s, PushSend(c))
    ensures Housed(e, Next(e, s, PushSend(c)))
  {
    assert Calling(s, c);
    PushHoused(e, s, s.calls - multiset{Sending(c)}, SendFn(c));
  }

  lemma PushShutdownHoused(e: Edition, s: Sys, c: CId)
    requires Sane(e, s) && Enabled(e, s, PushShutdown(c))
    ensures Housed(e, Next(e, s, PushShutdown(c)))
  {
    assert Calling(s, c);
    PushHoused(e, s, s.calls - multiset{Stopped(c)}, ShutdownFn(c));
  }

  lemma CallStepHoused(e: Edition, s: Sys, step: Step)
    requires Sane(e, s) && Enabled(e, s, step) && CallStep(step)
    ensures Housed(e, Next(e, s, step))
  {
    match step {
      case PushSend(c) => PushSendHoused(e, s, c);
      case PushShutdown(c) => PushShutdownHoused(e, s, c);
      case StoreShutdown(c) => StoreHoused(e, s, c);
      case Acquire(c) =>
        assert RecOk(s, c);
        UserHoused(e, s, s.users + {c}, c);
      case Drop(c) => UserHoused(e, s, s.users - {c}, c);
      case BeginSend(c) =>
        UserIsAlive(e, s, c);
        BeginHoused(e, s, Sending(c));
      case BeginShutdown(c) =>
        UserIsAlive(e, s, c);
        BeginHoused(e, s, Stopping(c));
    }
  }

  lemma StoreHoused(e: Edition, s: Sys, c: CId)
    requires Housed(e, s) && Enabled(e, s, StoreShutdown(c))
    ensures Housed(e, Next(e, s, StoreShutdown(c)))
  {
    var t := SetState(s, c, C.Disconnecting);
    var calls := s.calls - multiset{Stopping(c)} + multiset{Stopped(c)};
    StateHoused(e, s, c, C.Disconnecting);
    assert Calling(s, c);
    SetsHoused(e, t, PutCalls(t, calls));
  }

  lemma UserHoused(e: Edition, s: Sys, users: set<CId>, c: CId)
    requires Housed(e, s) && users <= s.users + {c}
    requires c in users ==> c in s.recs && c !in s.freed
    ensures Housed(e, s.(users := users))
  {
    SetsHoused(e, s, s.(users := users));
  }

  lemma BeginHoused(e: Edition, s: Sys, call: Call)
    requires Housed(e, s) && call.c in s.recs && call.c !in s.freed
    ensures Housed(e, PutCalls(s, s.calls + multiset{call}))
  {
    SetsHoused(e, s, PutCalls(s, s.calls + multiset{call}));
  }

  lemma UserIsAlive(e: Edition, s: Sys, c: CId)
    requires Sane(e, s) && (c in s.users || Calling(s, c))
    ensures c in s.recs && c !in s.freed && Known(s, c) && Stage(s, c) >= 1
  {
    assert Owned(e, s, c);
    assert RecOk(s, c);
  }

  lemma StepHoused(e: Edition, s: Sys, step: Step)
    requires Sane(e, s) && Enabled(e, s, step)
    ensures Housed(e, Next(e, s, step))
  {
    if LoopStep(step) {
      LoopStepHoused(e, s, step);
    } else if OwnStep(step) {
      OwnStepHoused(e, s, step);
    } else if CallStep(step) {
      CallStepHoused(e, s, step);
    } else {
      match step {
        case Accept(c, io, fd) => AcceptHoused(e, s, c, io, fd);
        case HandOver => HandOverHoused(e, s);
        case Close(l) => CloseStepHoused(e, s, l);
        case CloseCallback(l) => CloseCallbackHoused(e, s, l);
        case QueueDestroy => QueueDestroyHoused(e, s);
        case RunFn(l, watch) => RunFnHoused(e, s, l, watch);
      }
    }
  }

  // ---------------------------------------------------------------- steps, for the connection they are about

  /** Nothing has happened to the functor that establishes a connection. */
  predicate SameEstablish(s: Sys, s': Sys, c: CId) {
    && |s'.loops| == |s.loops| > 0
    && (forall l :: 0 <= l < |s.loops| ==> Tokens(s'.loops[l], EstablishFn(c)) == Tokens(s.loops[l], EstablishFn(c)))
    && (s'.loops[0].frame == Creating(c) <==> s.loops[0].frame == Creating(c))
  }

  lemma SameEstablishOk(s: Sys, s': Sys, c: CId)
    requires SameEstablish(s, s', c) && c in s.recs && c in s'.recs && s'.recs[c].loop == s.recs[c].loop
    requires EstablishOk(s, c) && (Stage(s', c) == 0 <==> Stage(s, c) == 0)
    ensures EstablishOk(s', c)
  {
    forall l | 0 <= l < |s'.loops|
      ensures Tokens(s'.loops[l], EstablishFn(c))
              == If(Stage(s', c) == 0 && l == s'.recs[c].loop && s'.loops[0].frame != Creating(c))
    {
      assert Tokens(s'.loops[l], EstablishFn(c)) == Tokens(s.loops[l], EstablishFn(c));
    }
  }

  lemma PutSameEstablish(s: Sys, l: LId, loop: Loop, c: CId)
    requires l < |s.loops| && Tokens(loop, EstablishFn(c)) == Tokens(s.loops[l], EstablishFn(c))
    requires loop.frame == Creating(c) <==> s.loops[l].frame == Creating(c)
    ensures SameEstablish(s, PutLoop(s, l, loop), c)
  {
  }

  /** What the record of the connection in hand has to say after it moved. */
  lemma MovedBase(s: Sys, s': Sys, c: CId, rec: Rec, chan: Chan)
    requires Known(s, c) && RecBase(s, c) && Moved(s, s', c, rec, chan) && chan.fd == rec.fd
    requires |rec.history| > 0 && s.recs[c].history <= rec.history
    requires Unlisted in rec.history <==> Unlisted in s.recs[c].history
    requires rec.state == C.Connected ==> rec.history == [Established]
    ensures RecBase(s', c)
  {
  }

  /** Records do not look into loops. */
  lemma LoopsKeepBase(s: Sys, l: LId, loop: Loop, c: CId)
    requires l < |s.loops| && c in s.recs && RecBase(s, c)
    ensures RecBase(PutLoop(s, l, loop), c)
  {
  }

  lemma EstablishRec(s: Sys, c: CId)
    requires Known(s, c) && RecBase(s, c) && Stage(s, c) == 0
    ensures RecBase(DoEstablish(s, c), c) && Stage(DoEstablish(s, c), c) == 1
  {
    EstablishEffect(s, c);
    var s' := DoEstablish(s, c);
    assert s.recs[c].history == [];
    assert s'.recs[c].history == [Established];
    MovedBase(s, s', c, s'.recs[c], ChanOf(s', c));
  }

  lemma CloseRec(s: Sys, c: CId)
    requires Known(s, c) && RecBase(s, c)
    ensures RecBase(DoClose(s, c), c)
  {
    CloseEffect(s, c);
    var s' := DoClose(s, c);
    MovedBase(s, s', c, s'.recs[c], ChanOf(s', c));
  }

  lemma UnlistRec(s: Sys, c: CId)
    requires Known(s, c) && RecBase(s, c) && Stage(s, c) >= 2 && 0 < |s.loops|
    ensures RecBase(DoUnlist(s, c), c)
  {
  }

  lemma DestroyRec(s: Sys, c: CId)
    requires Known(s, c) && RecBase(s, c) && Stage(s, c) >= 1
    ensures RecBase(DoDestroy(s, c), c)
  {
    DestroyEffect(s, c);
    var s' := DoDestroy(s, c);
    MovedBase(s, s', c, s'.recs[c], ChanOf(s', c));
  }

  lemma SendRec(e: Edition, s: Sys, c: CId, watch: bool)
    requires Known(s, c) && RecBase(s, c) && Stage(s, c) >= 1
    ensures RecBase(DoSend(e, s, c, watch), c)
  {
    if !Refused(e, s, c) {
      SendEffect(e, s, c, watch);
      var s' := DoSend(e, s, c, watch);
      MovedBase(s, s', c, s'.recs[c], ChanOf(s', c));
    }
  }

  lemma SettersKeepEstablish(e: Edition, s: Sys, c: CId, watch: bool)
    requires Known(s, c) && EstablishOk(s, c) && Stage(s, c) >= 1
    ensures EstablishOk(DoClose(s, c), c) && EstablishOk(DoDestroy(s, c), c) && EstablishOk(DoSend(e, s, c, watch), c)
  {
    CloseEffect(s, c);
    DestroyEffect(s, c);
    if !Refused(e, s, c) {
      SendEffect(e, s, c, watch);
    }
  }

  // The queues of one step, for the functor that establishes.

  lemma PostKeepsEstablish(s: Sys, l: LId, f: Fn, c: CId)
    requires l < |s.loops| && c in s.recs && EstablishOk(s, c) && f != EstablishFn(c)
    ensures EstablishOk(Post(s, l, f), c)
  {
    TokensPost(s.loops[l], f);
    PutSameEstablish(s, l, Posted(s.loops[l], f), c);
    SameEstablishOk(s, Post(s, l, f), c);
  }

  lemma FrameKeepsEstablish(s: Sys, l: LId, frame: Frame, c: CId)
    requires l < |s.loops| && c in s.recs && EstablishOk(s, c)
    requires !s.loops[l].frame.Creating? && !frame.Creating?
    ensures EstablishOk(SetFrame(s, l, frame), c)
  {
    FrameTokens(s.loops[l], frame);
    PutSameEstablish(s, l, Framed(s.loops[l], frame), c);
    SameEstablishOk(s, SetFrame(s, l, frame), c);
  }

  lemma FrameTokens(l: Loop, frame: Frame)
    ensures forall g :: Tokens(Framed(l, frame), g) == Tokens(l, g)
    ensures Unrun(Framed(l, frame)) == Unrun(l)
  {
    assert Unrun(Framed(l, frame)) == Unrun(l);
  }

  lemma PopKeepsEstablish(s: Sys, l: LId, c: CId)
    requires l < |s.loops| && s.loops[l].batch != [] && s.loops[l].batch[0] != EstablishFn(c)
    requires c in s.recs && EstablishOk(s, c)
    ensures EstablishOk(PutLoop(s, l, Popped(s.loops[l])), c)
  {
    TokensPop(s.loops[l]);
    PutSameEstablish(s, l, Popped(s.loops[l]), c);
    SameEstablishOk(s, PutLoop(s, l, Popped(s.loops[l])), c);
  }

  lemma UnlistKeepsEstablish(s: Sys, c: CId)
    requires c in s.recs && 0 < |s.loops| && EstablishOk(s, c) && Stage(s, c) >= 1 && !s.loops[0].frame.Creating?
    ensures EstablishOk(DoUnlist(s, c), c)
  {
    SameEstablishOk(s, Unlist(s, c), c);
    FrameKeepsEstablish(Unlist(s, c), 0, Erased(c), c);
  }

  /** The one that establishes has been taken, and the connection is established. */
  lemma EstablishedOk(s: Sys, s': Sys, c: CId)
    requires c in s.recs && c in s'.recs && |s'.loops| > 0 && Stage(s', c) == 1
    requires forall l :: 0 <= l < |s'.loops| ==> Tokens(s'.loops[l], EstablishFn(c)) == 0
    requires s'.loops[0].frame != Creating(c)
    ensures EstablishOk(s', c)
  {
  }

  /** Nobody speaks of a connection that does not exist. */
  lemma UnknownHasNoTokens(s: Sys, l: LId, c: CId)
    requires c !in s.recs && l < |s.loops| && Fits(s, l, s.loops[l])
    ensures forall f :: f in Unrun(s.loops[l]) ==> f.c != c
    ensures Tokens(s.loops[l], EstablishFn(c)) == 0 && !About(s.loops[l].frame, c)
  {
    forall f | f in Unrun(s.loops[l])
      ensures f.c != c
    {
      var k :| 0 <= k < |Unrun(s.loops[l])| && Unrun(s.loops[l])[k] == f;
      var n := |s.loops[l].batch|;
      assert Placed(s, l, if k < n then s.loops[l].batch[k] else s.loops[l].pending[k - n]);
    }
  }

  lemma AcceptRec(e: Edition, s: Sys, c: CId, io: LId, fd: int)
    requires Sane(e, s) && Enabled(e, s, Accept(c, io, fd))
    ensures var s' := Next(e, s, Accept(c, io, fd));
            c in s'.recs && RecOk(s', c)
  {
    var s' := Next(e, s, Accept(c, io, fd));
    assert !Calling(s, c) && c !in s.users && c !in s.freed;
    FrameTokens(s.loops[0], Creating(c));
    forall l | 0 <= l < |s'.loops|
      ensures Tokens(s'.loops[l], EstablishFn(c)) == 0
    {
      UnknownHasNoTokens(s, l, c);
    }
  }

  /** A frame that holds the one that establishes gives it up. */
  lemma CreatingGone(s: Sys, c: CId)
    requires 0 < |s.loops| && s.loops[0].frame == Creating(c) && c in s.recs && RecOk(s, c)
    ensures var t := SetFrame(s, 0, Idle);
            && (forall l :: 0 <= l < |t.loops| ==> Tokens(t.loops[l], EstablishFn(c)) == 0)
            && RecBase(t, c) && Stage(t, c) == 0 && t.loops[0].frame == Idle
  {
    var t := SetFrame(s, 0, Idle);
    FrameTokens(s.loops[0], Idle);
    LoopsKeepBase(s, 0, Framed(s.loops[0], Idle), c);
    forall l | 0 <= l < |t.loops|
      ensures Tokens(t.loops[l], EstablishFn(c)) == 0
    {
      assert Tokens(s.loops[l], EstablishFn(c)) == 0;
    }
  }

  lemma EstablishNow(s: Sys, c: CId)
    requires Known(s, c) && RecBase(s, c) && Stage(s, c) == 0 && s.loops[0].frame != Creating(c)
    requires forall l :: 0 <= l < |s.loops| ==> Tokens(s.loops[l], EstablishFn(c)) == 0
    ensures RecOk(DoEstablish(s, c), c)
  {
    EstablishRec(s, c);
    EstablishEffect(s, c);
    EstablishedOk(s, DoEstablish(s, c), c);
  }

  lemma EstablishLater(s: Sys, c: CId)
    requires Known(s, c) && RecBase(s, c) && Stage(s, c) == 0 && s.loops[0].frame == Idle
    requires forall l :: 0 <= l < |s.loops| ==> Tokens(s.loops[l], EstablishFn(c)) == 0
    ensures RecOk(Post(s, s.recs[c].loop, EstablishFn(c)), c)
  {
    var io := s.recs[c].loop;
    TokensPost(s.loops[io], EstablishFn(c));
    LoopsKeepBase(s, io, Posted(s.loops[io], EstablishFn(c)), c);
  }

  lemma HandOverRec(e: Edition, s: Sys)
    requires Sane(e, s) && Enabled(e, s, HandOver)
    ensures var c := s.loops[0].frame.c;
            var s' := Next(e, s, HandOver);
            c in s'.recs && RecOk(s', c)
  {
    var c := s.loops[0].frame.c;
    assert RecOk(s, c);
    CreatingGone(s, c);
    if s.recs[c].loop == 0 {
      EstablishNow(SetFrame(s, 0, Idle), c);
    } else {
      EstablishLater(SetFrame(s, 0, Idle), c);
    }
  }

  lemma CloseStepRec(e: Edition, s: Sys, l: LId)
    requires Sane(e, s) && Enabled(e, s, Close(l))
    ensures var c := Current(s, l);
            var s' := Next(e, s, Close(l));
            c in s'.recs && RecOk(s', c)
  {
    var c := Current(s, l);
    assert Fits(s, l, s.loops[l]) && RecOk(s, c);
    AdvancedRec(s, l, c);
    var t := PutLoop(s, l, Advanced(s.loops[l]));
    CloseRec(t, c);
    SettersKeepEstablish(e, t, c, false);
    CloseEffect(t, c);
    LoopsKeepBase(DoClose(t, c), l, Framed(t.loops[l], Closing(c)), c);
    FrameKeepsEstablish(DoClose(t, c), l, Closing(c), c);
  }

  lemma AdvancedRec(s: Sys, l: LId, c: CId)
    requires l < |s.loops| && c in s.recs && RecOk(s, c)
    ensures RecOk(PutLoop(s, l, Advanced(s.loops[l])), c)
  {
    assert Unrun(Advanced(s.loops[l])) == Unrun(s.loops[l]);
    LoopsKeepBase(s, l, Advanced(s.loops[l]), c);
    PutSameEstablish(s, l, Advanced(s.loops[l]), c);
    SameEstablishOk(s, PutLoop(s, l, Advanced(s.loops[l])), c);
  }

  lemma CallbackRec(s: Sys, l: LId, c: CId)
    requires l < |s.loops| && s.loops[l].frame == Closing(c) && Known(s, c) && RecOk(s, c) && Stage(s, c) >= 2
    ensures l == 0 ==> c in DoUnlist(SetFrame(s, 0, Idle), c).recs && RecOk(DoUnlist(SetFrame(s, 0, Idle), c), c)
    ensures RecOk(Post(SetFrame(s, l, Idle), 0, UnlistFn(c)), c)
  {
    var t := SetFrame(s, l, Idle);
    LoopsKeepBase(s, l, Framed(s.loops[l], Idle), c);
    FrameKeepsEstablish(s, l, Idle, c);
    if l == 0 {
      UnlistRec(t, c);
      UnlistKeepsEstablish(t, c);
    }
    LoopsKeepBase(t, 0, Posted(t.loops[0], UnlistFn(c)), c);
    PostKeepsEstablish(t, 0, UnlistFn(c), c);
  }

  lemma CloseCallbackRec(e: Edition, s: Sys, l: LId)
    requires Sane(e, s) && Enabled(e, s, CloseCallback(l))
    ensures var c := s.loops[l].frame.c;
            var s' := Next(e, s, CloseCallback(l));
            c in s'.recs && RecOk(s', c)
  {
    assert Fits(s, l, s.loops[l]) && RecOk(s, s.loops[l].frame.c);
    CallbackRec(s, l, s.loops[l].frame.c);
  }

  lemma QueueDestroyRec(e: Edition, s: Sys)
    requires Sane(e, s) && Enabled(e, s, QueueDestroy)
    ensures var c := s.loops[0].frame.c;
            var s' := Next(e, s, QueueDestroy);
            c in s'.recs && RecOk(s', c)
  {
    var c := s.loops[0].frame.c;
    assert RecOk(s, c);
    FrameKeepsEstablish(s, 0, Idle, c);
    PostKeepsEstablish(SetFrame(s, 0, Idle), s.recs[c].loop, DestroyFn(c), c);
  }

  lemma RunEstablishRec(e: Edition, s: Sys, l: LId)
    requires Sane(e, s) && Enabled(e, s, RunFn(l, false)) && Head(s, l).EstablishFn?
    ensures var c := Head(s, l).c;
            var s' := Next(e, s, RunFn(l, false));
            && c in s'.recs && RecOk(s', c) && c !in s.freed && Known(s, c) && Stage(s, c) == 0 && s.recs[c].loop == l
            && s.loops[0].frame != Creating(c)
  {
    var c := Head(s, l).c;
    var t := PutLoop(s, l, Popped(s.loops[l]));
    assert RecOk(s, c);
    HeadIsHeld(e, s, l);
    TokensPop(s.loops[l]);
    assert Tokens(s.loops[l], EstablishFn(c)) > 0;
    forall k | 0 <= k < |t.loops|
      ensures Tokens(t.loops[k], EstablishFn(c)) == 0
    {
      assert Tokens(s.loops[k], EstablishFn(c)) == If(k == l);
    }
    LoopsKeepBase(s, l, Popped(s.loops[l]), c);
    EstablishNow(t, c);
  }

  lemma HeadIsHeld(e: Edition, s: Sys, l: LId)
    requires CanRun(s, l) && HeldIn(e, [Head(s, l)], Head(s, l).c)
    ensures Owned(e, s, Head(s, l).c)
  {
    assert s.loops[l].batch[0] == Head(s, l);
    assert HeldBy(e, s.loops[l], Head(s, l).c);
  }

  lemma ExecuteRec(e: Edition, s: Sys, f: Fn, watch: bool)
    requires f.c in s.recs && RecOk(s, f.c) && !f.EstablishFn? && Stage(s, f.c) >= LeastStage(f)
    requires 0 < |s.loops| && (f.UnlistFn? ==> !s.loops[0].frame.Creating?)
    ensures f.c in Execute(e, s, f, watch).recs && RecOk(Execute(e, s, f, watch), f.c)
  {
    if f.c !in s.freed {
      match f {
        case UnlistFn(c) =>
          UnlistRec(s, c);
          UnlistKeepsEstablish(s, c);
        case DestroyFn(c) =>
          DestroyRec(s, c);
          SettersKeepEstablish(e, s, c, watch);
        case SendFn(c) => DirectSendRec(e, s, c, watch);
        case _ =>
      }
    }
  }

  lemma RunFnRec(e: Edition, s: Sys, l: LId, watch: bool)
    requires Sane(e, s) && Enabled(e, s, RunFn(l, watch)) && !Head(s, l).EstablishFn?
    ensures var c := Head(s, l).c;
            var s' := Next(e, s, RunFn(l, watch));
            c in s'.recs && RecOk(s', c)
  {
    var f := Head(s, l);
    assert RecOk(s, f.c) && Fits(s, l, s.loops[l]);
    HeadPlaced(s, l);
    PopKeepsEstablish(s, l, f.c);
    LoopsKeepBase(s, l, Popped(s.loops[l]), f.c);
    ExecuteRec(e, PutLoop(s, l, Popped(s.loops[l])), f, watch);
  }

  /** The record's state, its channel's mask or the other sets change, but no loop. */
  lemma RestRec(s: Sys, s': Sys, c: CId)
    requires c in s.recs && RecOk(s, c) && c in s'.recs && s'.loops == s.loops && RecBase(s', c)
    requires s'.recs[c].loop == s.recs[c].loop && (Stage(s', c) == 0 <==> Stage(s, c) == 0)
    ensures RecOk(s', c)
  {
    SameEstablishOk(s, s', c);
  }

  lemma StopWritingRec(e: Edition, s: Sys, l: LId)
    requires Sane(e, s) && Enabled(e, s, StopWriting(l))
    ensures RecOk(Next(e, s, StopWriting(l)), Current(s, l))
  {
    var c := Current(s, l);
    var mask := ChanOf(s, c).events - WRITE_EVENT;
    assert Fits(s, l, s.loops[l]) && RecOk(s, c);
    MaskEffect(s, c, mask);
    MovedBase(s, SetMask(s, c, mask), c, s.recs[c], Touched(ChanOf(s, c), mask));
    RestRec(s, SetMask(s, c, mask), c);
  }

  lemma StateRec(s: Sys, c: CId, state: C.StateE)
    requires c in s.recs && RecOk(s, c) && state != C.Connected
    ensures RecOk(SetState(s, c, state), c)
  {
    RestRec(s, SetState(s, c, state), c);
  }

  lemma SetsRec(s: Sys, s': Sys, c: CId)
    requires c in s.recs && RecOk(s, c) && Stage(s, c) >= 1 && s' == s.(users := s'.users, calls := s'.calls)
    ensures RecOk(s', c)
  {
    RestRec(s, s', c);
  }

  lemma ReleasedRec(s: Sys, c: CId)
    requires Known(s, c) && RecOk(s, c)
    ensures RecOk(Released(s, c), c)
  {
    RestRec(s, Released(s, c), c);
  }

  lemma DirectSendRec(e: Edition, s: Sys, c: CId, watch: bool)
    requires Known(s, c) && RecOk(s, c) && Stage(s, c) >= 1
    ensures c in DoSend(e, s, c, watch).recs && RecOk(DoSend(e, s, c, watch), c)
  {
    SendRec(e, s, c, watch);
    SettersKeepEstablish(e, s, c, watch);
  }

  lemma PostRec(s: Sys, l: LId, f: Fn)
    requires l < |s.loops| && f.c in s.recs && RecOk(s, f.c) && !f.EstablishFn?
    ensures RecOk(Post(s, l, f), f.c)
  {
    LoopsKeepBase(s, l, Posted(s.loops[l], f), f.c);
    PostKeepsEstablish(s, l, f, f.c);
  }

  lemma DirectShutdownRec(e: Edition, s: Sys, l: LId, c: CId)
    requires Sane(e, s) && Enabled(e, s, DirectShutdown(l, c))
    ensures RecOk(Next(e, s, DirectShutdown(l, c)), c)
  {
    assert RecOk(s, c);
    StateRec(s, c, C.Disconnecting);
  }

  lemma DirectSendStepRec(e: Edition, s: Sys, l: LId, c: CId, watch: bool)
    requires Sane(e, s) && Enabled(e, s, DirectSend(l, c, watch))
    ensures c in Next(e, s, DirectSend(l, c, watch)).recs && RecOk(Next(e, s, DirectSend(l, c, watch)), c)
  {
    assert RecOk(s, c);
    ConnectedIsOpen(s, c);
    DirectSendRec(e, s, c, watch);
  }

  lemma ConnectedIsOpen(s: Sys, c: CId)
    requires c in s.recs && RecBase(s, c) && s.recs[c].state == C.Connected
    ensures Stage(s, c) == 1 && c in s.listed
  {
  }

  lemma PushNotifyRec(e: Edition, s: Sys, c: CId)
    requires Sane(e, s) && Enabled(e, s, PushNotify(c))
    ensures RecOk(Next(e, s, PushNotify(c)), c)
  {
    assert RecOk(s, c);
    PostRec(s, s.recs[c].loop, NotifyFn(c));
  }

  lemma FreeRec(e: Edition, s: Sys, c: CId)
    requires Sane(e, s) && Enabled(e, s, Free(c))
    ensures RecOk(Next(e, s, Free(c)), c)
  {
    assert RecOk(s, c);
    ReleasedRec(s, c);
  }

  lemma OwnStepRec(e: Edition, s: Sys, step: Step, c: CId)
    requires Sane(e, s) && Enabled(e, s, step) && OwnStep(step) && Concerns(e, s, step, c)
    ensures c in Next(e, s, step).recs && RecOk(Next(e, s, step), c)
  {
    match step {
      case StopWriting(l) => StopWritingRec(e, s, l);
      case DirectSend(l, _, watch) => DirectSendStepRec(e, s, l, c, watch);
      case DirectShutdown(l, _) => DirectShutdownRec(e, s, l, c);
      case PushNotify(_) => PushNotifyRec(e, s, c);
      case Free(_) => FreeRec(e, s, c);
    }
  }

  lemma PushRec(e: Edition, s: Sys, calls: multiset<Call>, f: Fn)
    requires Known(s, f.c) && RecOk(s, f.c) && Stage(s, f.c) >= 1 && !f.EstablishFn?
    ensures RecOk(Post(PutCalls(s, calls), s.recs[f.c].loop, f), f.c)
  {
    var t := PutCalls(s, calls);
    SetsRec(s, t, f.c);
    PostRec(t, s.recs[f.c].loop, f);
  }

  lemma CallStepRec(e: Edition, s: Sys, step: Step)
    requires Sane(e, s) && Enabled(e, s, step) && CallStep(step)
    ensures step.c in Next(e, s, step).recs && RecOk(Next(e, s, step), step.c)
  {
    var c := step.c;
    if !step.Acquire? {
      UserIsAlive(e, s, c);
    }
    assert RecOk(s, c) && Stage(s, c) >= 1;
    match step {
      case PushSend(_) => PushRec(e, s, s.calls - multiset{Sending(c)}, SendFn(c));
      case PushShutdown(_) => PushRec(e, s, s.calls - multiset{Stopped(c)}, ShutdownFn(c));
      case StoreShutdown(_) =>
        StateRec(s, c, C.Disconnecting);
        SetsRec(SetState(s, c, C.Disconnecting), Next(e, s, step), c);
      case Acquire(_) => SetsRec(s, Next(e, s, step), c);
      case Drop(_) => SetsRec(s, Next(e, s, step), c);
      case BeginSend(_) => SetsRec(s, Next(e, s, step), c);
      case BeginShutdown(_) => SetsRec(s, Next(e, s, step), c);
    }
  }

  lemma FrameStepRec(e: Edition, s: Sys, step: Step, c: CId)
    requires Sane(e, s) && Enabled(e, s, step) && FrameStep(step) && Concerns(e, s, step, c)
    ensures c in Next(e, s, step).recs && RecOk(Next(e, s, step), c)
  {
    match step {
      case Accept(_, io, fd) => AcceptRec(e, s, c, io, fd);
      case HandOver => HandOverRec(e, s);
      case Close(l) => CloseStepRec(e, s, l);
      case CloseCallback(l) => CloseCallbackRec(e, s, l);
      case QueueDestroy => QueueDestroyRec(e, s);
    }
  }

  lemma ThreadStepRec(e: Edition, s: Sys, step: Step, c: CId)
    requires Sane(e, s) && Enabled(e, s, step) && (OwnStep(step) || CallStep(step)) && Concerns(e, s, step, c)
    ensures c in Next(e, s, step).recs && RecOk(Next(e, s, step), c)
  {
    if OwnStep(step) {
      OwnStepRec(e, s, step, c);
    } else {
      CallStepRec(e, s, step);
    }
  }

  lemma StepRec(e: Edition, s: Sys, step: Step, c: CId)
    requires Sane(e, s) && Enabled(e, s, step) && Concerns(e, s, step, c)
    ensures c in Next(e, s, step).recs && RecOk(Next(e, s, step), c)
  {
    if OwnStep(step) || CallStep(step) {
      ThreadStepRec(e, s, step, c);
    } else if FrameStep(step) {
      FrameStepRec(e, s, step, c);
    } else {
      assert step.RunFn?;
      RunStepRec(e, s, step.l, step.watch);
    }
  }

  lemma RunStepRec(e: Edition, s: Sys, l: LId, watch: bool)
    requires Sane(e, s) && Enabled(e, s, RunFn(l, watch))
    ensures Head(s, l).c in Next(e, s, RunFn(l, watch)).recs && RecOk(Next(e, s, RunFn(l, watch)), Head(s, l).c)
  {
    if Head(s, l).EstablishFn? {
      assert !watch;
      RunEstablishRec(e, s, l);
    } else {
      RunFnRec(e, s, l, watch);
    }
  }

  /** Every step keeps it, faulty or not. */
  lemma StepKeepsSane(e: Edition, s: Sys, step: Step)
    requires Sane(e, s) && Enabled(e, s, step)
    ensures Sane(e, Next(e, s, step))
  {
    var s' := Next(e, s, step);
    StepHoused(e, s, step);
    forall d | d in s'.recs
      ensures RecOk(s', d)
    {
      if Concerns(e, s, step, d) {
        StepRec(e, s, step, d);
      } else {
        NothingElseIsBorn(e, s, step, d);
        StepApart(e, s, step, d);
        ApartKeepsRec(e, s, s', d);
      }
    }
  }

  lemma HandlersAddNone(e: Edition, s: Sys, c: CId, watch: bool)
    requires c in s.recs
    ensures DoEstablish(s, c).recs.Keys == s.recs.Keys
    ensures DoClose(s, c).recs.Keys == s.recs.Keys
    ensures DoSend(e, s, c, watch).recs.Keys == s.recs.Keys
  {
  }

  lemma DestroyAddsNone(s: Sys, c: CId)
    requires c in s.recs
    ensures DoDestroy(s, c).recs.Keys == s.recs.Keys
  {
  }

  lemma ExecuteAddsNone(e: Edition, s: Sys, f: Fn, watch: bool)
    requires f.c in s.recs && 0 < |s.loops|
    ensures Execute(e, s, f, watch).recs.Keys == s.recs.Keys
  {
    HandlersAddNone(e, s, f.c, watch);
    DestroyAddsNone(s, f.c);
  }

  /** Only an accept adds a connection. */
  lemma NothingElseIsBorn(e: Edition, s: Sys, step: Step, d: CId)
    requires Enabled(e, s, step) && d in Next(e, s, step).recs && !Concerns(e, s, step, d)
    ensures d in s.recs
  {
    if step.RunFn? {
      ExecuteAddsNone(e, PutLoop(s, step.l, Popped(s.loops[step.l])), Head(s, step.l), step.watch);
    } else if step.HandOver? {
      HandlersAddNone(e, SetFrame(s, 0, Idle), s.loops[0].frame.c, false);
    } else if step.Close? {
      HandlersAddNone(e, PutLoop(s, step.l, Advanced(s.loops[step.l])), Current(s, step.l), false);
    } else if step.DirectSend? {
      HandlersAddNone(e, s, step.c, step.watch);
    }
  }

  // ---------------------------------------------------------------- owners do not come back

  lemma HeadOwnsNothingNew(e: Edition, l: Loop, c: CId)
    requires l.batch != []
    ensures HeldBy(e, Popped(l), c) ==> HeldBy(e, l, c)
  {
    HeldAppend(e, l.ran, l.batch[0], c);
    assert l.batch == [l.batch[0]] + l.batch[1..];
  }

  /** A functor with a plain pointer makes no owner. */
  lemma PlainRunNoOwner(e: Edition, s: Sys, l: LId, watch: bool)
    requires Enabled(e, s, RunFn(l, watch)) && (Head(s, l).ShutdownFn? || (e == C.AsWritten && Head(s, l).SendFn?))
    ensures Owned(e, Next(e, s, RunFn(l, watch)), Head(s, l).c) ==> Owned(e, s, Head(s, l).c)
  {
    var c := Head(s, l).c;
    var t := PutLoop(s, l, Popped(s.loops[l]));
    HeadOwnsNothingNew(e, s.loops[l], c);
    PutLoopOwners(e, s, l, Popped(s.loops[l]), c);
    HandlersKeepLoops(e, t, c, watch);
    SendKeepsOwners(e, t, c, watch);
  }

  lemma SendKeepsOwners(e: Edition, s: Sys, c: CId, watch: bool)
    requires c in s.recs
    ensures var t := DoSend(e, s, c, watch);
            t.listed == s.listed && t.users == s.users && t.calls == s.calls
  {
  }

  /** No step gives a connection an owner that has none. */
  lemma NoNewOwners(e: Edition, s: Sys, step: Step, c: CId)
    requires Sane(e, s) && Enabled(e, s, step) && c in s.recs && !Owned(e, s, c)
    ensures !Owned(e, Next(e, s, step), c)
  {
    if !Concerns(e, s, step, c) {
      StepApart(e, s, step, c);
      ApartQueues(e, s, Next(e, s, step), c);
    } else if step.RunFn? {
      PlainHead(e, s, step.l);
      PlainRunNoOwner(e, s, step.l, step.watch);
    } else {
      UnownedStep(e, s, step, c);
    }
  }

  lemma PlainHead(e: Edition, s: Sys, l: LId)
    requires CanRun(s, l) && !Owned(e, s, Head(s, l).c)
    ensures Head(s, l).ShutdownFn? || (e == C.AsWritten && Head(s, l).SendFn?)
  {
    if HeldIn(e, [Head(s, l)], Head(s, l).c) {
      HeadIsHeld(e, s, l);
    }
  }

  /** Only its own end concerns a connection nobody owns. */
  lemma UnownedStep(e: Edition, s: Sys, step: Step, c: CId)
    requires Enabled(e, s, step) && Concerns(e, s, step, c) && c in s.recs && !Owned(e, s, c) && !step.RunFn?
    ensures step == Free(c) && !Owned(e, Next(e, s, step), c)
  {
    assert forall l :: 0 <= l < |s.loops| ==> !HeldBy(e, s.loops[l], c);
  }
}
