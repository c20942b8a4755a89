/** Plain pointers: when a functor that does not own its connection still finds it, and
    when a registered channel outlives every owner. */
module LifetimePointers {
  import opened Lifetime
  import opened LifetimeSanity
  import opened LifetimeDrain
  import C = ConnectionSpec

  // ---------------------------------------------------------------- what guards a functor

  /** The functor at place k of a loop's queue, batch first. */
  predicate At(s: Sys, l: LId, k: nat) {
    l < |s.loops| && k < |Unrun(s.loops[l])|
  }

  function FnAt(s: Sys, l: LId, k: nat): Fn
    requires At(s, l, k)
  {
    Unrun(s.loops[l])[k]
  }

  /** Something keeps the connection until the functor has run: its destruction is
      still to be queued, hence behind the functor; a send that owns it is about to be;
      or a functor that owns it waits in the queue behind the batch, or is in the same
      batch, run or not, since a batch goes as a whole. */
  predicate Guarded(e: Edition, s: Sys, l: LId, k: nat)
    requires At(s, l, k)
  {
    var loop, c := s.loops[l], FnAt(s, l, k).c;
    || ToQueue(s, c)
    || (e == C.AsMeant && Sending(c) in s.calls)
    || HeldIn(e, loop.pending, c)
    || (k < |loop.batch| && (HeldIn(e, loop.ran, c) || HeldIn(e, loop.batch, c)))
  }

  /** The connection is alive until the functor has run, whatever happens from here. */
  ghost predicate AliveUntilRun(e: Edition, s: Sys, l: LId, k: nat)
    requires At(s, l, k)
  {
    forall steps: seq<Step> | LegalRun(e, s, steps) && Pops(steps, l) <= k ::
      FnAt(s, l, k).c !in After(e, s, steps).freed
  }

  lemma GuardedIsOwned(e: Edition, s: Sys, l: LId, k: nat)
    requires At(s, l, k) && Guarded(e, s, l, k)
    ensures Owned(e, s, FnAt(s, l, k).c)
  {
    var c := FnAt(s, l, k).c;
    if !HeldBy(e, s.loops[l], c) && c !in s.listed && !Calling(s, c) {
      var m :| 0 <= m < |s.loops| && (UnlistFn(c) in Unrun(s.loops[m]) || About(s.loops[m].frame, c));
      TokenInQueue(s.loops[m], UnlistFn(c));
      assert HeldBy(e, s.loops[m], c);
    }
  }

  // ---------------------------------------------------------------- a guard stays

  /** The place of the functor after a step that does not run it. */
  function PlaceAfter(step: Step, l: LId, k: nat): nat
    requires step.RunFn? && step.l == l ==> k > 0
  {
    if step.RunFn? && step.l == l then k - 1 else k
  }

  lemma BaseQueue(e: Edition, s: Sys, step: Step, l: LId)
    requires Enabled(e, s, step) && l < |s.loops| && Shape(s.loops[l])
    ensures Unrun(Base(e, s, step, l))
            == if step.RunFn? && step.l == l then Unrun(s.loops[l])[1..] else Unrun(s.loops[l])
  {
    if step.RunFn? && step.l == l {
      TokensPop(s.loops[l]);
    }
  }

  lemma GrownQueue(l: Loop, l': Loop)
    requires SamePhase(l, l')
    ensures Unrun(l) <= Unrun(l')
  {
  }

  /** Queues lose at their head and grow at their end. */
  lemma QueueMoves(e: Edition, s: Sys, step: Step, l: LId, k: nat)
    requires Sane(e, s) && Enabled(e, s, step) && At(s, l, k) && (step.RunFn? && step.l == l ==> k > 0)
    ensures At(Next(e, s, step), l, PlaceAfter(step, l, k))
    ensures FnAt(Next(e, s, step), l, PlaceAfter(step, l, k)) == FnAt(s, l, k)
  {
    LoopGoes(e, s, step, l);
    assert Fits(s, l, s.loops[l]);
    BaseQueue(e, s, step, l);
    GrownQueue(Base(e, s, step, l), Next(e, s, step).loops[l]);
    PlaceMoves(Unrun(s.loops[l]), Unrun(Base(e, s, step, l)), Unrun(Next(e, s, step).loops[l]), step, l, k);
  }

  lemma PlaceMoves(q: seq<Fn>, base: seq<Fn>, q': seq<Fn>, step: Step, l: LId, k: nat)
    requires k < |q| && (step.RunFn? && step.l == l ==> k > 0) && base <= q'
    requires base == if step.RunFn? && step.l == l then q[1..] else q
    ensures PlaceAfter(step, l, k) < |q'| && q'[PlaceAfter(step, l, k)] == q[k]
  {
    assert q'[PlaceAfter(step, l, k)] == base[PlaceAfter(step, l, k)];
  }

  /** The destruction is queued by one step only, behind everything that waits. */
  lemma ToQueueStays(e: Edition, s: Sys, step: Step, c: CId)
    requires Sane(e, s) && Enabled(e, s, step) && ToQueue(s, c) && c in s.recs
    ensures ToQueue(Next(e, s, step), c)
            || (s.recs[c].loop < |s.loops| && |Next(e, s, step).loops| == |s.loops|
                && DestroyFn(c) in Next(e, s, step).loops[s.recs[c].loop].pending)
  {
    if !Concerns(e, s, step, c) {
      StepApart(e, s, step, c);
      ApartQueues(e, s, Next(e, s, step), c);
    } else if FrameStep(step) {
      FrameKeepsToQueue(e, s, step, c);
    } else if step.RunFn? {
      RunKeepsToQueue(e, s, step.l, step.watch);
    } else if OwnStep(step) {
      OwnKeepsToQueue(e, s, step, c);
    } else {
      CallKeepsToQueue(e, s, step);
    }
  }

  lemma PutLoopKeepsToQueue(s: Sys, l: LId, loop: Loop, c: CId)
    requires l < |s.loops| && ToQueue(s, c)
    requires UnlistFn(c) in Unrun(s.loops[l]) ==> UnlistFn(c) in Unrun(loop)
    requires About(s.loops[l].frame, c) ==> About(loop.frame, c)
    ensures ToQueue(PutLoop(s, l, loop), c)
  {
    var s' := PutLoop(s, l, loop);
    if c !in s.listed {
      var k :| 0 <= k < |s.loops| && (UnlistFn(c) in Unrun(s.loops[k]) || About(s.loops[k].frame, c));
      assert UnlistFn(c) in Unrun(s'.loops[k]) || About(s'.loops[k].frame, c);
    }
  }

  lemma PostKeepsToQueue(s: Sys, l: LId, f: Fn, c: CId)
    requires l < |s.loops| && ToQueue(s, c)
    ensures ToQueue(Post(s, l, f), c)
  {
    assert Unrun(Posted(s.loops[l], f)) == Unrun(s.loops[l]) + [f];
    PutLoopKeepsToQueue(s, l, Posted(s.loops[l], f), c);
  }

  lemma SameToQueue(s: Sys, s': Sys, c: CId)
    requires s'.loops == s.loops && s'.listed == s.listed
    ensures ToQueue(s', c) == ToQueue(s, c)
  {
  }

  lemma FramedToQueue(s: Sys, l: LId, c: CId)
    requires l < |s.loops| && About(s.loops[l].frame, c)
    ensures ToQueue(s, c)
  {
  }

  lemma HandOverKeepsToQueue(e: Edition, s: Sys)
    requires Sane(e, s) && Enabled(e, s, HandOver)
    ensures s.loops[0].frame.c in Next(e, s, HandOver).listed
  {
    var c := s.loops[0].frame.c;
    assert RecOk(s, c);
    assert s.recs[c].history == [];
    EstablishEffect(SetFrame(s, 0, Idle), c);
  }

  lemma CloseIsToQueue(e: Edition, s: Sys, l: LId)
    requires Enabled(e, s, Close(l))
    ensures ToQueue(Next(e, s, Close(l)), Current(s, l))
  {
    HandlersKeepLoops(e, PutLoop(s, l, Advanced(s.loops[l])), Current(s, l), false);
    FramedToQueue(Next(e, s, Close(l)), l, Current(s, l));
  }

  lemma CallbackIsToQueue(e: Edition, s: Sys, l: LId)
    requires Enabled(e, s, CloseCallback(l))
    ensures ToQueue(Next(e, s, CloseCallback(l)), s.loops[l].frame.c)
  {
    var c := s.loops[l].frame.c;
    if l == 0 {
      FramedToQueue(Next(e, s, CloseCallback(l)), 0, c);
    } else {
      assert UnlistFn(c) in Unrun(Next(e, s, CloseCallback(l)).loops[0]);
    }
  }

  lemma DestroyIsQueued(e: Edition, s: Sys)
    requires Enabled(e, s, QueueDestroy)
    ensures var c := s.loops[0].frame.c;
            var s' := Next(e, s, QueueDestroy);
            |s'.loops| == |s.loops| && DestroyFn(c) in s'.loops[s.recs[c].loop].pending
  {
  }

  lemma FrameKeepsToQueue(e: Edition, s: Sys, step: Step, c: CId)
    requires Sane(e, s) && Enabled(e, s, step) && FrameStep(step) && Concerns(e, s, step, c) && c in s.recs
    ensures ToQueue(Next(e, s, step), c)
            || (s.recs[c].loop < |s.loops| && |Next(e, s, step).loops| == |s.loops|
                && DestroyFn(c) in Next(e, s, step).loops[s.recs[c].loop].pending)
  {
    match step {
      case Accept(_, _, _) =>
      case HandOver => HandOverKeepsToQueue(e, s);
      case Close(l) => CloseIsToQueue(e, s, l);
      case CloseCallback(l) => CallbackIsToQueue(e, s, l);
      case QueueDestroy => DestroyIsQueued(e, s);
    }
  }

  lemma RunKeepsToQueue(e: Edition, s: Sys, l: LId, watch: bool)
    requires Sane(e, s) && Enabled(e, s, RunFn(l, watch)) && ToQueue(s, Head(s, l).c)
    ensures ToQueue(Next(e, s, RunFn(l, watch)), Head(s, l).c)
  {
    var f := Head(s, l);
    var t := PutLoop(s, l, Popped(s.loops[l]));
    var s' := Next(e, s, RunFn(l, watch));
    ExecuteLoops(e, t, f, watch);
    if f.UnlistFn? {
      HeadIsHeld(e, s, l);
      FramedToQueue(s', 0, f.c);
    } else {
      TokensPop(s.loops[l]);
      PutLoopKeepsToQueue(s, l, Popped(s.loops[l]), f.c);
      ExecuteKeepsListed(e, t, f, watch);
      SameToQueue(t, s', f.c);
    }
  }

  lemma ExecuteKeepsListed(e: Edition, s: Sys, f: Fn, watch: bool)
    requires f.c in s.recs && 0 < |s.loops| && !f.UnlistFn?
    ensures Execute(e, s, f, watch).listed == s.listed
  {
  }

  lemma OwnKeepsToQueue(e: Edition, s: Sys, step: Step, c: CId)
    requires Enabled(e, s, step) && OwnStep(step) && ToQueue(s, c)
    ensures ToQueue(Next(e, s, step), c)
  {
    if step.PushNotify? {
      PostKeepsToQueue(s, s.recs[step.c].loop, NotifyFn(step.c), c);
    } else {
      if step.DirectSend? {
        HandlersKeepLoops(e, s, step.c, step.watch);
      }
      SameToQueue(s, Next(e, s, step), c);
    }
  }

  lemma CallKeepsToQueue(e: Edition, s: Sys, step: Step)
    requires Enabled(e, s, step) && CallStep(step) && ToQueue(s, step.c)
    ensures ToQueue(Next(e, s, step), step.c)
  {
    if step.PushSend? {
      PostKeepsToQueue(PutCalls(s, s.calls - multiset{Sending(step.c)}), s.recs[step.c].loop, SendFn(step.c), step.c);
    } else if step.PushShutdown? {
      var t := PutCalls(s, s.calls - multiset{Stopped(step.c)});
      PostKeepsToQueue(t, s.recs[step.c].loop, ShutdownFn(step.c), step.c);
    } else {
      SameToQueue(s, Next(e, s, step), step.c);
    }
  }

  /** A send in the making ends in the queue of the connection's loop. */
  lemma SendingStays(e: Edition, s: Sys, step: Step, c: CId)
    requires Sane(e, s) && Enabled(e, s, step) && Sending(c) in s.calls && c in s.recs
    ensures Sending(c) in Next(e, s, step).calls
            || (s.recs[c].loop < |s.loops| && |Next(e, s, step).loops| == |s.loops|
                && SendFn(c) in Next(e, s, step).loops[s.recs[c].loop].pending)
  {
    if step.RunFn? {
      ExecuteKeepsCalls(e, PutLoop(s, step.l, Popped(s.loops[step.l])), Head(s, step.l), step.watch);
    } else if FrameStep(step) {
      FrameKeepsCalls(e, s, step);
    } else if step == PushSend(c) {
    } else {
      OtherKeepsSending(e, s, step, c);
    }
  }

  lemma ExecuteKeepsCalls(e: Edition, s: Sys, f: Fn, watch: bool)
    requires f.c in s.recs && 0 < |s.loops|
    ensures Execute(e, s, f, watch).calls == s.calls
  {
  }

  lemma FrameKeepsCalls(e: Edition, s: Sys, step: Step)
    requires Enabled(e, s, step) && FrameStep(step)
    ensures Next(e, s, step).calls == s.calls
  {
  }

  lemma OtherKeepsSending(e: Edition, s: Sys, step: Step, c: CId)
    requires Enabled(e, s, step) && !step.RunFn? && !FrameStep(step) && step != PushSend(c) && Sending(c) in s.calls
    ensures Sending(c) in Next(e, s, step).calls
  {
  }

  /** No step takes the guard away before the functor has run. */
  lemma GuardStays(e: Edition, s: Sys, step: Step, l: LId, k: nat)
    requires Sane(e, s) && Enabled(e, s, step) && At(s, l, k) && Guarded(e, s, l, k)
    requires step.RunFn? && step.l == l ==> k > 0
    ensures At(Next(e, s, step), l, PlaceAfter(step, l, k))
    ensures Guarded(e, Next(e, s, step), l, PlaceAfter(step, l, k))
  {
    var f := FnAt(s, l, k);
    QueueMoves(e, s, step, l, k);
    FnIsPlaced(e, s, l, k);
    if f.UnlistFn? {
      FnAtInQueue(Next(e, s, step), l, PlaceAfter(step, l, k));
    } else if ToQueue(s, f.c) {
      ToQueueStays(e, s, step, f.c);
    } else if e == C.AsMeant && Sending(f.c) in s.calls {
      SendingStays(e, s, step, f.c);
    } else {
      HeldStays(e, s, step, l, k);
    }
  }

  lemma FnIsPlaced(e: Edition, s: Sys, l: LId, k: nat)
    requires Sane(e, s) && At(s, l, k)
    ensures Placed(s, l, FnAt(s, l, k))
  {
    var loop := s.loops[l];
    assert Fits(s, l, loop);
    if k < |loop.batch| {
      assert Placed(s, l, loop.batch[k]);
    } else {
      assert Placed(s, l, loop.pending[k - |loop.batch|]);
    }
  }

  lemma FnAtInQueue(s: Sys, l: LId, k: nat)
    requires At(s, l, k) && FnAt(s, l, k).UnlistFn?
    ensures ToQueue(s, FnAt(s, l, k).c)
  {
    assert FnAt(s, l, k) in Unrun(s.loops[l]);
  }

  lemma HeldPrefix(e: Edition, q: seq<Fn>, q': seq<Fn>, c: CId)
    requires q <= q' && HeldIn(e, q, c)
    ensures HeldIn(e, q', c)
  {
    assert forall f :: f in q ==> f in q';
  }

  /** A functor that owns the connection stays beside the one it guards. */
  lemma HeldStays(e: Edition, s: Sys, step: Step, l: LId, k: nat)
    requires Sane(e, s) && Enabled(e, s, step) && At(s, l, k) && (step.RunFn? && step.l == l ==> k > 0)
    requires var loop, c := s.loops[l], FnAt(s, l, k).c;
             HeldIn(e, loop.pending, c) || (k < |loop.batch| && (HeldIn(e, loop.ran, c) || HeldIn(e, loop.batch, c)))
    requires At(Next(e, s, step), l, PlaceAfter(step, l, k))
    requires FnAt(Next(e, s, step), l, PlaceAfter(step, l, k)) == FnAt(s, l, k)
    ensures Guarded(e, Next(e, s, step), l, PlaceAfter(step, l, k))
  {
    LoopGoes(e, s, step, l);
    var c, loop, loop' := FnAt(s, l, k).c, s.loops[l], Next(e, s, step).loops[l];
    var base := Base(e, s, step, l);
    assert Fits(s, l, loop);
    if step.RunFn? && step.l == l {
      PopKeepsHeld(e, loop, c);
    }
    if HeldIn(e, base.pending, c) {
      HeldPrefix(e, base.pending, loop'.pending, c);
    }
  }

  lemma PopKeepsHeld(e: Edition, l: Loop, c: CId)
    requires l.batch != []
    ensures HeldIn(e, l.ran, c) || HeldIn(e, l.batch, c)
            ==> HeldIn(e, Popped(l).ran, c) || HeldIn(e, Popped(l).batch, c)
  {
    HeldAppend(e, l.ran, l.batch[0], c);
    HeldCons(e, l.batch, c);
  }

  lemma HeldCons(e: Edition, q: seq<Fn>, c: CId)
    requires q != []
    ensures HeldIn(e, q, c) <==> HeldIn(e, [q[0]], c) || HeldIn(e, q[1..], c)
  {
    assert q == [q[0]] + q[1..];
  }

  lemma {:induction false} GuardLasts(e: Edition, s: Sys, l: LId, k: nat, steps: seq<Step>)
    requires Sane(e, s) && At(s, l, k) && Guarded(e, s, l, k) && LegalRun(e, s, steps) && Pops(steps, l) <= k
    ensures FnAt(s, l, k).c !in After(e, s, steps).freed
    decreases |steps|
  {
    if steps == [] {
      GuardedIsOwned(e, s, l, k);
    } else {
      GuardStays(e, s, steps[0], l, k);
      QueueMoves(e, s, steps[0], l, k);
      StepKeepsSane(e, s, steps[0]);
      GuardLasts(e, Next(e, s, steps[0]), l, PlaceAfter(steps[0], l, k), steps[1..]);
    }
  }

  // ---------------------------------------------------------------- without a guard

  /** A run goes on without the connection, on the loop io: it stays loose and nobody
      takes it up. */
  predicate Onward(s: Sys, t: Sys, io: LId, c: CId) {
    && |t.loops| == |s.loops| && OnLoop(s, io, c) && OnLoop(t, io, c)
    && (c in t.freed <==> c in s.freed) && !ToQueue(t, c)
    && (!ToRun(s, c) ==> !ToRun(t, c) && SameChan(s, t, c))
    && (LetGoOf(s, c) ==> LetGoOf(t, c))
  }

  predicate OnLoop(s: Sys, io: LId, c: CId) {
    c in s.recs && s.recs[c].loop == io < |s.loops|
  }

  /** Neither user code nor a call of another thread holds the connection. */
  predicate LetGoOf(s: Sys, c: CId) {
    c !in s.users && !Calling(s, c)
  }

  lemma OnwardTrans(s: Sys, t: Sys, u: Sys, io: LId, c: CId)
    requires Onward(s, t, io, c) && Onward(t, u, io, c)
    ensures Onward(s, u, io, c)
  {
  }

  lemma QuieterIsOnward(e: Edition, s: Sys, t: Sys, l: LId, io: LId, c: CId)
    requires Quieter(e, s, t, l, c) && OnLoop(s, io, c)
    ensures Onward(s, t, io, c)
    ensures HeldIn(e, t.loops[io].pending, c) ==> HeldIn(e, s.loops[io].pending, c)
    ensures l != io ==> t.loops[io].ran == s.loops[io].ran && t.loops[io].batch == s.loops[io].batch
    ensures l != io ==> t.loops[io].phase == s.loops[io].phase
  {
    assert QuietLoop(e, s.loops[io], t.loops[io], io == l, c);
  }

  /** No functor of its own loop owns the connection, in the batch or behind it. */
  predicate Clear(e: Edition, l: Loop, c: CId) {
    !HeldIn(e, l.ran, c) && !HeldIn(e, l.batch, c) && !HeldIn(e, l.pending, c)
  }

  /** No functor that owns the connection is in the way of the one at place k, nor
      runs in one batch with it. */
  predicate Bare(e: Edition, l: Loop, c: CId, k: nat) {
    !HeldIn(e, l.pending, c) && (k < |l.batch| ==> Clear(e, l, c))
  }

  /** The calls of other threads and the pointers of user code are gone. */
  lemma Unhand(e: Edition, s: Sys, io: LId, c: CId, plain: bool) returns (t: Sys)
    requires Sane(e, s) && OnLoop(s, io, c) && !ToQueue(s, c)
    requires plain ==> e == C.AsWritten || Sending(c) !in s.calls
    ensures Sane(e, t) && Onward(s, t, io, c) && LetGoOf(t, c) && Reaches(e, s, t, io, 0)
    ensures t.loops[io].batch == s.loops[io].batch && t.loops[io].phase == s.loops[io].phase
    ensures plain ==> forall k: nat :: Bare(e, s.loops[io], c, k) ==> Bare(e, t.loops[io], c, k)
  {
    t := LetGo(e, s, c, plain, io);
    assert GrownLoop(e, s.loops[io], t.loops[io], plain, c);
  }

  /** The base loop, when it is another, finishes its batch, and nobody is left. */
  lemma ReleaseAll(e: Edition, s: Sys, io: LId, c: CId) returns (t: Sys)
    requires Sane(e, s) && OnLoop(s, io, c) && !ToQueue(s, c) && LetGoOf(s, c) && Clear(e, s.loops[io], c)
    ensures Sane(e, t) && Reaches(e, s, t, io, 0) && Onward(s, t, io, c) && !Owned(e, t, c)
    ensures t.loops[io].phase == s.loops[io].phase
  {
    if io == 0 {
      t := s;
      ReachesSelf(e, s, io);
      QuieterSelf(e, s, 0, c);
    } else {
      t := DrainBase(e, s, c, io);
    }
    QuieterIsOnward(e, s, t, 0, io, c);
    NobodyLeft(e, t, c);
  }

  /** A loop that does not run has no batch. */
  lemma NoBatch(e: Edition, s: Sys, io: LId, c: CId)
    requires Sane(e, s) && OnLoop(s, io, c) && !ToQueue(s, c) && s.loops[io].phase != Running
    ensures s.loops[io].ran == [] && s.loops[io].batch == []
    ensures Onward(s, s, io, c) && Reaches(e, s, s, io, 0)
  {
    RanOnlyWhileRunning(e, s, io);
    ReachesSelf(e, s, io);
  }

  /** A loop that runs finishes its batch. */
  lemma DrainOwn(e: Edition, s: Sys, io: LId, c: CId) returns (t: Sys)
    requires Sane(e, s) && OnLoop(s, io, c) && !ToQueue(s, c)
    ensures Sane(e, t) && Onward(s, t, io, c) && Reaches(e, s, t, io, |s.loops[io].batch|)
    ensures !HeldIn(e, s.loops[io].pending, c) ==> Clear(e, t.loops[io], c)
    ensures s.loops[io].phase == Running ==> AtRest(t.loops[io])
  {
    if s.loops[io].phase == Running {
      t := DrainBatch(e, s, io, c, io);
      QuieterIsOnward(e, s, t, io, io, c);
    } else {
      t := s;
      NoBatch(e, s, io, c);
    }
    if !HeldIn(e, s.loops[io].pending, c) {
      NothingHolds(e, t.loops[io], c);
    }
  }

  lemma NothingHolds(e: Edition, l: Loop, c: CId)
    requires l.ran == [] && l.batch == [] && !HeldIn(e, l.pending, c)
    ensures Clear(e, l, c)
  {
  }

  /** The batch in front of the functor is finished when it stands behind it. */
  lemma ClearTheWay(e: Edition, s: Sys, io: LId, c: CId, k: nat) returns (t: Sys, n: nat)
    requires Sane(e, s) && OnLoop(s, io, c) && !ToQueue(s, c)
    requires Bare(e, s.loops[io], c, k)
    ensures Sane(e, t) && Onward(s, t, io, c) && Reaches(e, s, t, io, n) && n <= k && Clear(e, t.loops[io], c)
  {
    if k < |s.loops[io].batch| {
      t, n := s, 0;
      ReachesSelf(e, s, io);
    } else {
      n := |s.loops[io].batch|;
      t := DrainOwn(e, s, io, c);
    }
  }

  lemma ClearAndRelease(e: Edition, s: Sys, io: LId, c: CId, k: nat) returns (t: Sys, n: nat)
    requires Sane(e, s) && OnLoop(s, io, c) && !ToQueue(s, c) && LetGoOf(s, c)
    requires Bare(e, s.loops[io], c, k)
    ensures Sane(e, t) && Onward(s, t, io, c) && Reaches(e, s, t, io, n) && n <= k && !Owned(e, t, c)
  {
    var u;
    u, n := ClearTheWay(e, s, io, c, k);
    t := ReleaseAll(e, u, io, c);
    OnwardTrans(s, u, t, io, c);
    ReachesBefore(e, s, u, t, io, n);
  }

  /** Everybody lets a loose connection go that no functor in the way owns. */
  lemma LoseOwners(e: Edition, s: Sys, io: LId, c: CId, k: nat) returns (t: Sys, n: nat)
    requires Sane(e, s) && OnLoop(s, io, c) && !ToQueue(s, c) && (e == C.AsWritten || Sending(c) !in s.calls)
    requires Bare(e, s.loops[io], c, k)
    ensures Sane(e, t) && Onward(s, t, io, c) && Reaches(e, s, t, io, n) && n <= k && !Owned(e, t, c)
  {
    var u := Unhand(e, s, io, c, true);
    t, n := ClearAndRelease(e, u, io, c, k);
    OnwardTrans(s, u, t, io, c);
    ReachesAfter(e, s, u, t, io, n);
  }

  lemma FreeIt(e: Edition, s: Sys, c: CId, q: LId) returns (t: Sys)
    requires Sane(e, s) && c in s.recs && c !in s.freed && !Owned(e, s, c)
    ensures Reaches(e, s, t, q, 0) && c in t.freed
  {
    assert RecOk(s, c);
    t := TakeStep(e, s, Free(c), q);
  }

  /** Without a guard, a run frees the connection before the functor has run. */
  lemma UnguardedIsFreed(e: Edition, s: Sys, l: LId, k: nat) returns (t: Sys, n: nat)
    requires Sane(e, s) && At(s, l, k) && !Guarded(e, s, l, k) && FnAt(s, l, k).c !in s.freed
    ensures Reaches(e, s, t, l, n) && n <= k && FnAt(s, l, k).c in t.freed
  {
    var c := FnAt(s, l, k).c;
    UnguardedIsOwn(e, s, l, k);
    t, n := LoseAndFree(e, s, l, c, k);
  }

  lemma LoseAndFree(e: Edition, s: Sys, io: LId, c: CId, k: nat) returns (t: Sys, n: nat)
    requires Sane(e, s) && OnLoop(s, io, c) && !ToQueue(s, c) && (e == C.AsWritten || Sending(c) !in s.calls)
    requires Bare(e, s.loops[io], c, k) && c !in s.freed
    ensures Reaches(e, s, t, io, n) && n <= k && c in t.freed
  {
    var u;
    u, n := LoseOwners(e, s, io, c, k);
    t := FreeIt(e, u, c, io);
    ReachesBefore(e, s, u, t, io, n);
  }

  lemma UnguardedIsOwn(e: Edition, s: Sys, l: LId, k: nat)
    requires Sane(e, s) && At(s, l, k) && !Guarded(e, s, l, k)
    ensures OnLoop(s, l, FnAt(s, l, k).c) && !ToQueue(s, FnAt(s, l, k).c) && Bare(e, s.loops[l], FnAt(s, l, k).c, k)
  {
    FnIsPlaced(e, s, l, k);
    if FnAt(s, l, k).UnlistFn? {
      FnAtInQueue(s, l, k);
    }
  }

  /** When a functor finds its connection, exactly: it is alive until the functor has
      run, under every continuation, if and only if the functor is guarded. */
  lemma AliveIffGuarded(e: Edition, s: Sys, l: LId, k: nat)
    requires Sane(e, s) && At(s, l, k) && FnAt(s, l, k).c !in s.freed
    ensures AliveUntilRun(e, s, l, k) <==> Guarded(e, s, l, k)
  {
    if Guarded(e, s, l, k) {
      forall steps: seq<Step> | LegalRun(e, s, steps) && Pops(steps, l) <= k
        ensures FnAt(s, l, k).c !in After(e, s, steps).freed
      {
        GuardLasts(e, s, l, k, steps);
      }
    } else {
      var t, n := UnguardedIsFreed(e, s, l, k);
      var steps: seq<Step> :| Leads(e, s, steps, t, {}) && Calm(steps) && Pops(steps, l) == n;
      LeadsThere(e, s, steps, t, {});
      assert FnAt(s, l, k).c in After(e, s, steps).freed;
    }
  }

  // ---------------------------------------------------------------- a channel that outlives its owners

  lemma PollNothing(e: Edition, s: Sys, io: LId, c: CId) returns (t: Sys)
    requires Sane(e, s) && OnLoop(s, io, c) && AtRest(s.loops[io]) && !ToRun(s, c)
    ensures Sane(e, t) && Onward(s, t, io, c) && Reaches(e, s, t, io, 0)
    ensures t.loops[io] == Polled(s.loops[io], [])
  {
    t := TakeStep(e, s, Poll(io, []), io);
    PolledOn(s, io, c);
  }

  lemma TakeQueue(e: Edition, s: Sys, io: LId, c: CId) returns (t: Sys)
    requires Sane(e, s) && OnLoop(s, io, c) && !ToRun(s, c)
    requires s.loops[io].phase == Dispatching && s.loops[io].frame == Idle
    requires s.loops[io].active == [] && s.loops[io].batch == []
    ensures Sane(e, t) && Onward(s, t, io, c) && Reaches(e, s, t, io, 0)
    ensures t.loops[io].phase == Running && !HeldIn(e, t.loops[io].pending, c)
  {
    CanEndDispatch(e, s, io);
    t := TakeStep(e, s, EndDispatch(io), io);
    SwappedOn(s, io, c);
    assert t.loops[io] == Swapped(s.loops[io]);
  }

  lemma CanEndDispatch(e: Edition, s: Sys, io: LId)
    requires Sane(e, s) && io < |s.loops| && s.loops[io].phase == Dispatching
    requires s.loops[io].frame == Idle && s.loops[io].active == []
    ensures Enabled(e, s, EndDispatch(io)) && Next(e, s, EndDispatch(io)) == PutLoop(s, io, Swapped(s.loops[io]))
  {
    assert Fits(s, io, s.loops[io]);
  }

  /** A loop that rests takes its queue. */
  lemma NextBatch(e: Edition, s: Sys, io: LId, c: CId) returns (t: Sys)
    requires Sane(e, s) && OnLoop(s, io, c) && AtRest(s.loops[io]) && !ToRun(s, c)
    ensures Sane(e, t) && Onward(s, t, io, c) && Reaches(e, s, t, io, 0)
    ensures t.loops[io].phase == Running && !HeldIn(e, t.loops[io].pending, c)
  {
    var u := PollNothing(e, s, io, c);
    t := TakeQueue(e, u, io, c);
    OnwardTrans(s, u, t, io, c);
    ReachesBefore(e, s, u, t, io, 0);
  }

  lemma SameQueueOn(s: Sys, io: LId, loop: Loop, c: CId)
    requires OnLoop(s, io, c) && Unrun(loop) == Unrun(s.loops[io]) && loop.frame == s.loops[io].frame && !ToRun(s, c)
    ensures Onward(s, PutLoop(s, io, loop), io, c)
  {
    var t := PutLoop(s, io, loop);
    forall k | 0 <= k < |t.loops|
      ensures UnlistFn(c) !in Unrun(t.loops[k]) && DestroyFn(c) !in Unrun(t.loops[k]) && !About(t.loops[k].frame, c)
    {
      LooseLoop(s, c, k);
    }
  }

  lemma PolledOn(s: Sys, io: LId, c: CId)
    requires OnLoop(s, io, c) && !ToRun(s, c)
    ensures Onward(s, PutLoop(s, io, Polled(s.loops[io], [])), io, c)
  {
    SameQueueOn(s, io, Polled(s.loops[io], []), c);
  }

  lemma SwappedOn(s: Sys, io: LId, c: CId)
    requires OnLoop(s, io, c) && !ToRun(s, c) && s.loops[io].batch == []
    ensures Onward(s, PutLoop(s, io, Swapped(s.loops[io])), io, c)
  {
    UnrunSwap(s.loops[io]);
    SameQueueOn(s, io, Swapped(s.loops[io]), c);
  }

  lemma RunQueue(e: Edition, s: Sys, io: LId, c: CId) returns (t: Sys, n: nat)
    requires Sane(e, s) && OnLoop(s, io, c) && AtRest(s.loops[io]) && !ToRun(s, c)
    ensures Sane(e, t) && Onward(s, t, io, c) && Reaches(e, s, t, io, n) && Clear(e, t.loops[io], c)
    ensures t.loops[io].phase == AtPoll
  {
    var u := NextBatch(e, s, io, c);
    t := DrainOwn(e, u, io, c);
    n := |u.loops[io].batch|;
    OnwardTrans(s, u, t, io, c);
    ReachesAfter(e, s, u, t, io, n);
  }

  /** A running loop finishes its batch, takes its queue and runs that. */
  lemma TwoBatches(e: Edition, s: Sys, io: LId, c: CId) returns (t: Sys, n: nat)
    requires Sane(e, s) && OnLoop(s, io, c) && !ToRun(s, c) && s.loops[io].phase == Running
    ensures Sane(e, t) && Onward(s, t, io, c) && Reaches(e, s, t, io, n) && Clear(e, t.loops[io], c)
    ensures t.loops[io].phase == AtPoll
  {
    var u := DrainOwn(e, s, io, c);
    var m;
    t, m := RunQueue(e, u, io, c);
    n := |s.loops[io].batch| + m;
    OnwardTrans(s, u, t, io, c);
    ReachesOn(e, s, u, t, io, |s.loops[io].batch|, m);
  }

  lemma TwoBatchesAndRelease(e: Edition, s: Sys, io: LId, c: CId) returns (t: Sys, n: nat)
    requires Sane(e, s) && OnLoop(s, io, c) && !ToRun(s, c) && LetGoOf(s, c) && s.loops[io].phase == Running
    ensures Sane(e, t) && Onward(s, t, io, c) && Reaches(e, s, t, io, n) && !Owned(e, t, c)
    ensures t.loops[io].phase == AtPoll
  {
    var u;
    u, n := TwoBatches(e, s, io, c);
    t := ReleaseAll(e, u, io, c);
    OnwardTrans(s, u, t, io, c);
    ReachesBefore(e, s, u, t, io, n);
  }

  /** Once nothing is left that would take a registered channel out of its poller, a
      run takes all its owners away. */
  lemma OrphanIsLost(e: Edition, s: Sys, io: LId, c: CId) returns (t: Sys, n: nat)
    requires Sane(e, s) && OnLoop(s, io, c) && !ToRun(s, c) && s.loops[io].phase == Running
    ensures Sane(e, t) && Reaches(e, s, t, io, n) && !Owned(e, t, c) && SameChan(s, t, c)
    ensures OnLoop(t, io, c) && t.loops[io].phase == AtPoll
  {
    var u := Unhand(e, s, io, c, false);
    t, n := TwoBatchesAndRelease(e, u, io, c);
    OnwardTrans(s, u, t, io, c);
    ReachesAfter(e, s, u, t, io, n);
  }
}
