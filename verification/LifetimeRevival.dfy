/** What a channel that is back in its poller can lead to: its connection is closed a
    second time while somebody owns it, or freed under the loop that walks it when
    nobody does. */
module LifetimeRevival {
  import opened Registry
  import opened Lifetime
  import opened LifetimeSanity
  import opened LifetimeOrder
  import opened LifetimeDrain
  import opened LifetimePointers
  import C = ConnectionSpec

  // ---------------------------------------------------------------- closed again

  /** User code holds a closed connection whose channel the kernel reports. */
  predicate Revived(s: Sys, io: LId, c: CId) {
    && OnLoop(s, io, c) && c in s.users && IsClosed(s, c)
    && Known(s, c) && ChanOf(s, c).index == Added
  }

  /** Its destruction is not in the batch that runs. */
  predicate NotInBatch(s: Sys, io: LId, c: CId) {
    io < |s.loops| && DestroyFn(c) !in s.loops[io].batch
  }

  /** Nothing in the poller changes for the connection, and no milestone is lost. */
  lemma StaysRevived(s: Sys, t: Sys, io: LId, c: CId)
    requires Revived(s, io, c) && |t.loops| == |s.loops| && t.regs == s.regs && t.users == s.users
    requires c in t.recs && t.recs[c].loop == io && Stage(t, c) >= Stage(s, c)
    ensures Revived(t, io, c)
  {
  }

  lemma ApartRevived(e: Edition, s: Sys, t: Sys, io: LId, c: CId)
    requires Revived(s, io, c) && Apart(e, s, t, c)
    ensures Revived(t, io, c)
  {
  }

  /** A functor of a closed connection that is not its destruction. */
  lemma RunOwnRevived(e: Edition, s: Sys, io: LId, c: CId)
    requires Sane(e, s) && Enabled(e, s, RunFn(io, false)) && Head(s, io).c == c
    requires Revived(s, io, c) && NotInBatch(s, io, c)
    ensures Revived(Next(e, s, RunFn(io, false)), io, c)
  {
    var f := Head(s, io);
    var p := PutLoop(s, io, Popped(s.loops[io]));
    var t := Next(e, s, RunFn(io, false));
    assert s.loops[io].batch[0] == f;
    if f.EstablishFn? {
      RunEstablishRec(e, s, io);
    } else if f.SendFn? {
      SendIsQuiet(e, p, c);
      StaysRevived(s, t, io, c);
    } else {
      assert !f.DestroyFn?;
      StaysRevived(s, t, io, c);
    }
  }

  lemma RunRevived(e: Edition, s: Sys, io: LId, c: CId)
    requires Sane(e, s) && Enabled(e, s, RunFn(io, false)) && Revived(s, io, c) && NotInBatch(s, io, c)
    ensures var t := Next(e, s, RunFn(io, false));
            Revived(t, io, c) && NotInBatch(t, io, c)
  {
    var t := Next(e, s, RunFn(io, false));
    if Head(s, io).c == c {
      RunOwnRevived(e, s, io, c);
    } else {
      StepApart(e, s, RunFn(io, false), c);
      ApartRevived(e, s, t, io, c);
    }
    RunFnGoes(e, s, io, false);
    assert SamePhase(Popped(s.loops[io]), t.loops[io]);
    assert forall f :: f in s.loops[io].batch[1..] ==> f in s.loops[io].batch;
  }

  lemma QueueDestroyRevived(e: Edition, s: Sys, io: LId, c: CId)
    requires Enabled(e, s, QueueDestroy) && Revived(s, io, c) && NotInBatch(s, io, c)
    ensures var t := Next(e, s, QueueDestroy);
            Revived(t, io, c) && NotInBatch(t, io, c)
  {
    StaysRevived(s, Next(e, s, QueueDestroy), io, c);
  }

  lemma EndBatchRevived(e: Edition, s: Sys, io: LId, c: CId)
    requires Enabled(e, s, EndBatch(io)) && Revived(s, io, c)
    ensures Revived(Next(e, s, EndBatch(io)), io, c)
  {
    StaysRevived(s, Next(e, s, EndBatch(io)), io, c);
  }

  /** Its loop finishes the batch. */
  lemma {:induction false} BatchRevived(e: Edition, s: Sys, io: LId, c: CId) returns (t: Sys, n: nat)
    requires Sane(e, s) && Revived(s, io, c) && NotInBatch(s, io, c) && s.loops[io].phase == Running
    ensures Sane(e, t) && Revived(t, io, c) && t.loops[io].phase == AtPoll && Reaches(e, s, t, io, n)
    decreases |s.loops[io].batch|, if s.loops[io].frame != Idle then 1 else 0, 1
  {
    if s.loops[io].frame != Idle {
      t, n := FrameRevived(e, s, io, c);
    } else if s.loops[io].batch == [] {
      EndBatchRevived(e, s, io, c);
      t := TakeStep(e, s, EndBatch(io), io);
      n := 0;
    } else {
      t, n := HeadRevived(e, s, io, c);
    }
  }

  lemma {:induction false} FrameRevived(e: Edition, s: Sys, io: LId, c: CId) returns (t: Sys, n: nat)
    requires Sane(e, s) && Revived(s, io, c) && NotInBatch(s, io, c) && s.loops[io].phase == Running
    requires s.loops[io].frame != Idle
    ensures Sane(e, t) && Revived(t, io, c) && t.loops[io].phase == AtPoll && Reaches(e, s, t, io, n)
    decreases |s.loops[io].batch|, 1, 0
  {
    FrameInBatch(e, s, io);
    QueueDestroyRevived(e, s, io, c);
    FrameGone(e, s);
    var u := TakeStep(e, s, QueueDestroy, io);
    t, n := BatchRevived(e, u, io, c);
    ReachesAfter(e, s, u, t, io, n);
  }

  lemma {:induction false} HeadRevived(e: Edition, s: Sys, io: LId, c: CId) returns (t: Sys, n: nat)
    requires Sane(e, s) && Revived(s, io, c) && NotInBatch(s, io, c) && s.loops[io].phase == Running
    requires s.loops[io].frame == Idle && s.loops[io].batch != []
    ensures Sane(e, t) && Revived(t, io, c) && t.loops[io].phase == AtPoll && Reaches(e, s, t, io, n)
    decreases |s.loops[io].batch|, 0, 0
  {
    HeadCanRun(e, s, io);
    RunRevived(e, s, io, c);
    StepKeepsSane(e, s, RunFn(io, false));
    RunFnGoes(e, s, io, false);
    ReachesNext(e, s, RunFn(io, false), io);
    var u := Next(e, s, RunFn(io, false));
    assert SamePhase(Popped(s.loops[io]), u.loops[io]);
    var m;
    t, m := BatchRevived(e, u, io, c);
    n := 1 + m;
    ReachesOn(e, s, u, t, io, 1, m);
  }

  /** User code gets hold of the connection while it has an owner. */
  lemma TakeHold(e: Edition, s: Sys, io: LId, c: CId) returns (t: Sys)
    requires Sane(e, s) && OnLoop(s, io, c) && IsClosed(s, c) && Known(s, c) && ChanOf(s, c).index == Added
    requires Owned(e, s, c)
    ensures Sane(e, t) && Revived(t, io, c) && t.loops == s.loops && Reaches(e, s, t, io, 0)
  {
    t := TakeStep(e, s, Acquire(c), io);
  }

  lemma AddedIsReported(e: Edition, s: Sys, c: CId)
    requires Sane(e, s) && Known(s, c) && ChanOf(s, c).index == Added
    ensures Reported(s.regs[s.recs[c].loop], c)
  {
    var r := s.regs[s.recs[c].loop];
    assert RegFits(s, s.recs[c].loop, r);
    assert r.chans[c].fd in r.kernel;
  }

  /** The loop is told of one channel, and is about to handle it. */
  lemma PollOne(e: Edition, s: Sys, io: LId, c: CId) returns (t: Sys)
    requires Sane(e, s) && OnLoop(s, io, c) && Known(s, c) && ChanOf(s, c).index == Added && s.loops[io].phase == AtPoll
    ensures Sane(e, t) && Reaches(e, s, t, io, 0) && Walking(t, io) && Current(t, io) == c
    ensures t == PutLoop(s, io, Polled(s.loops[io], [c]))
  {
    AddedIsReported(e, s, c);
    assert Fits(s, io, s.loops[io]);
    t := TakeStep(e, s, Poll(io, [c]), io);
  }

  /** The milestones of a connection are out of order. */
  predicate Disordered(s: Sys, c: CId) {
    c in s.recs && !(s.recs[c].history <= MILESTONES)
  }

  lemma ClosedAgainIsDisorder(history: seq<Milestone>)
    requires |history| >= 2
    ensures !(history + [Closed] <= MILESTONES)
  {
    assert (history + [Closed])[|history|] == Closed;
    assert |history| < |MILESTONES| ==> MILESTONES[|history|] != Closed;
  }

  lemma CloseAgain(e: Edition, s: Sys, io: LId, c: CId) returns (t: Sys)
    requires Sane(e, s) && Revived(s, io, c) && Walking(s, io) && Current(s, io) == c
    ensures Reaches(e, s, t, io, 0) && Disordered(t, c)
  {
    t := TakeStep(e, s, Close(io), io);
    CloseEffect(PutLoop(s, io, Advanced(s.loops[io])), c);
    ClosedAgainIsDisorder(s.recs[c].history);
  }

  lemma PollAndClose(e: Edition, s: Sys, io: LId, c: CId) returns (t: Sys)
    requires Sane(e, s) && Revived(s, io, c) && s.loops[io].phase == AtPoll
    ensures Reaches(e, s, t, io, 0) && Disordered(t, c)
  {
    var u := PollOne(e, s, io, c);
    StaysRevived(s, u, io, c);
    t := CloseAgain(e, u, io, c);
    ReachesAfter(e, s, u, t, io, 0);
  }

  lemma BatchAndClose(e: Edition, s: Sys, io: LId, c: CId) returns (t: Sys, n: nat)
    requires Sane(e, s) && Revived(s, io, c) && NotInBatch(s, io, c) && s.loops[io].phase == Running
    ensures Reaches(e, s, t, io, n) && Disordered(t, c)
  {
    var u;
    u, n := BatchRevived(e, s, io, c);
    t := PollAndClose(e, u, io, c);
    ReachesBefore(e, s, u, t, io, n);
  }

  /** A closed connection whose channel is back, which somebody owns and whose
      destruction the running batch does not bring, can be closed once more. */
  lemma RevivalDisorders(e: Edition, s: Sys, io: LId, c: CId) returns (t: Sys, n: nat)
    requires Sane(e, s) && OnLoop(s, io, c) && IsClosed(s, c) && Known(s, c) && ChanOf(s, c).index == Added
    requires Owned(e, s, c) && NotInBatch(s, io, c) && s.loops[io].phase == Running
    ensures Reaches(e, s, t, io, n) && Disordered(t, c)
  {
    var u := TakeHold(e, s, io, c);
    t, n := BatchAndClose(e, u, io, c);
    ReachesAfter(e, s, u, t, io, n);
  }

  // ---------------------------------------------------------------- freed while walked

  /** A loop is about to handle the channel of a freed connection. */
  predicate WalksFreed(s: Sys, l: LId) {
    Walking(s, l) && Current(s, l) in s.freed
  }

  lemma FreeWalked(e: Edition, s: Sys, io: LId, c: CId) returns (t: Sys)
    requires Sane(e, s) && Known(s, c) && Walking(s, io) && Current(s, io) == c && !Owned(e, s, c)
    ensures Reaches(e, s, t, io, 0) && WalksFreed(t, io)
  {
    assert RecOk(s, c);
    t := TakeStep(e, s, Free(c), io);
  }

  lemma PollAndFree(e: Edition, s: Sys, io: LId, c: CId) returns (t: Sys)
    requires Sane(e, s) && OnLoop(s, io, c) && Known(s, c) && ChanOf(s, c).index == Added
    requires s.loops[io].phase == AtPoll && !Owned(e, s, c)
    ensures Reaches(e, s, t, io, 0) && WalksFreed(t, io)
  {
    var u := PollOne(e, s, io, c);
    WalkApart(e, s.loops[io], [c], c);
    PutLoopApart(e, s, io, Polled(s.loops[io], [c]), c);
    ApartQueues(e, s, u, c);
    t := FreeWalked(e, u, io, c);
    ReachesAfter(e, s, u, t, io, 0);
  }

  /** A registered channel with nothing left that would take it out can be freed under
      the loop that walks it. */
  lemma OrphanIsWalked(e: Edition, s: Sys, io: LId, c: CId) returns (t: Sys, n: nat)
    requires Sane(e, s) && OnLoop(s, io, c) && Known(s, c) && ChanOf(s, c).index == Added
    requires !ToRun(s, c) && s.loops[io].phase == Running
    ensures Reaches(e, s, t, io, n) && WalksFreed(t, io)
  {
    var u;
    u, n := OrphanIsLost(e, s, io, c);
    t := PollAndFree(e, u, io, c);
    ReachesBefore(e, s, u, t, io, n);
  }
}
