/** What holds over every run of a server, its loops and its users, and exactly when
    the rest does. */
module LifetimeTheorems {
  import opened Registry
  import opened Lifetime
  import opened LifetimeSanity
  import opened LifetimeSafety
  import opened LifetimeOrder
  import opened LifetimeDrain
  import opened LifetimePointers
  import opened LifetimeRevival
  import C = ConnectionSpec

  lemma StartIsSane(e: Edition, n: nat)
    requires n > 0
    ensures Sane(e, Start(n)) && Safe(e, Start(n)) && Ordered(e, Start(n)) && Strict(Start(n))
  {
    var s := Start(n);
    forall l | 0 <= l < n
      ensures Fits(s, l, s.loops[l]) && RegFits(s, l, s.regs[l]) && s.regs[l].Agrees()
    {
      assert s.regs[l] == Empty<CId>();
    }
  }

  lemma {:induction false} RunKeepsSafe(e: Edition, s: Sys, steps: seq<Step>)
    requires Safe(e, s) && LegalRun(e, s, steps) && Never(e, s, steps, Orphaning)
    ensures Safe(e, After(e, s, steps))
    decreases |steps|
  {
    if steps != [] {
      StepKeepsSafe(e, s, steps[0]);
      RunKeepsSafe(e, Next(e, s, steps[0]), steps[1..]);
    }
  }

  lemma {:induction false} RunKeepsOrdered(e: Edition, s: Sys, steps: seq<Step>)
    requires Ordered(e, s) && LegalRun(e, s, steps) && Never(e, s, steps, Reviving)
    ensures Ordered(e, After(e, s, steps))
    decreases |steps|
  {
    if steps != [] {
      StepKeepsOrdered(e, s, steps[0]);
      RunKeepsOrdered(e, Next(e, s, steps[0]), steps[1..]);
    }
  }

  /** A run of a server with n loops, up to the first use of a freed connection. */
  predicate ServerRun(e: Edition, n: nat, steps: seq<Step>) {
    n > 0 && LegalRun(e, Start(n), steps) && Never(e, Start(n), steps, Dangling)
  }

  lemma RunIsSane(e: Edition, n: nat, steps: seq<Step>)
    requires n > 0 && LegalRun(e, Start(n), steps)
    ensures Sane(e, After(e, Start(n), steps))
  {
    StartIsSane(e, n);
    RunKeepsSane(e, Start(n), steps);
  }

  // ---------------------------------------------------------------- on every run

  /** No epoll_ctl call of the whole server is refused, late sends or not, with fds
      reused as soon as the connection that had them is freed. */
  lemma NoCtlRefused(e: Edition, n: nat, steps: seq<Step>, l: LId)
    requires ServerRun(e, n, steps)
    ensures var s := After(e, Start(n), steps);
            l < |s.regs| ==> s.regs[l].Clean() && s.regs[l].InSync()
  {
    RunIsSane(e, n, steps);
    assert l < |After(e, Start(n), steps).regs| ==>
             RegFits(After(e, Start(n), steps), l, After(e, Start(n), steps).regs[l]);
  }

  /** A connection that is freed has no owner, and the kernel does not report it. */
  lemma FreedIsUnowned(e: Edition, n: nat, steps: seq<Step>, c: CId, l: LId)
    requires ServerRun(e, n, steps)
    ensures var s := After(e, Start(n), steps);
            c in s.freed ==> !Owned(e, s, c) && (l < |s.regs| ==> !Reported(s.regs[l], c))
  {
    RunIsSane(e, n, steps);
    var s := After(e, Start(n), steps);
    if c in s.freed && l < |s.regs| && Reported(s.regs[l], c) {
      ReportedIsKnown(e, s, l, c);
    }
  }

  /** A queued functor that owns its connection refers to a living one: all of them but
      shutdownInLoop, and as written sendInLoop. */
  lemma OwningFunctorsAreAlive(e: Edition, n: nat, steps: seq<Step>, l: LId, f: Fn)
    requires ServerRun(e, n, steps) && !f.ShutdownFn? && (e == C.AsWritten ==> !f.SendFn?)
    ensures var s := After(e, Start(n), steps);
            l < |s.loops| && f in Unrun(s.loops[l]) ==> f.c !in s.freed
  {
    RunIsSane(e, n, steps);
    var s := After(e, Start(n), steps);
    if l < |s.loops| && f in Unrun(s.loops[l]) {
      QueuedIsOwned(e, s, l, f);
    }
  }

  lemma QueuedIsOwned(e: Edition, s: Sys, l: LId, f: Fn)
    requires l < |s.loops| && f in Unrun(s.loops[l]) && !f.ShutdownFn? && (e == C.AsWritten ==> !f.SendFn?)
    ensures Owned(e, s, f.c)
  {
    TokenInQueue(s.loops[l], f);
    assert HeldBy(e, s.loops[l], f.c);
  }

  /** A functor finds its connection alive, under every continuation of the run, if and
      only if it is guarded when one looks; so a plain pointer is safe exactly then. */
  lemma FunctorFindsItsConnection(e: Edition, n: nat, steps: seq<Step>, l: LId, k: nat)
    requires ServerRun(e, n, steps)
    ensures var s := After(e, Start(n), steps);
            At(s, l, k) && FnAt(s, l, k).c !in s.freed ==> (AliveUntilRun(e, s, l, k) <==> Guarded(e, s, l, k))
  {
    RunIsSane(e, n, steps);
    var s := After(e, Start(n), steps);
    if At(s, l, k) && FnAt(s, l, k).c !in s.freed {
      AliveIffGuarded(e, s, l, k);
    }
  }

  // ---------------------------------------------------------------- faults among each other

  /** An orphaning send is late, and a reviving one too. */
  lemma FaultsAreLate(e: Edition, s: Sys, step: Step)
    requires Sane(e, s) && Enabled(e, s, step)
    ensures Has(e, s, step, Orphaning) || Has(e, s, step, Reviving) ==> Has(e, s, step, Late)
  {
    if Has(e, s, step, Orphaning) {
      assert RecOk(s, Head(s, step.l).c);
    }
  }

  /** Without late sends there are no orphaning and no reviving ones. */
  lemma {:induction false} NeverLateIsEnough(e: Edition, s: Sys, steps: seq<Step>)
    requires Sane(e, s) && LegalRun(e, s, steps) && Never(e, s, steps, Late)
    ensures Never(e, s, steps, Orphaning) && Never(e, s, steps, Reviving)
    decreases |steps|
  {
    if steps != [] {
      FaultsAreLate(e, s, steps[0]);
      StepKeepsSane(e, s, steps[0]);
      NeverLateIsEnough(e, Next(e, s, steps[0]), steps[1..]);
    }
  }

  /** The faults one at a time: a run that is never late is safe and keeps the order. */
  lemma LateCoversAll(e: Edition, n: nat, steps: seq<Step>)
    requires n > 0 && LegalRun(e, Start(n), steps) && Never(e, Start(n), steps, Late)
    ensures Never(e, Start(n), steps, Orphaning) && Never(e, Start(n), steps, Reviving)
  {
    StartIsSane(e, n);
    NeverLateIsEnough(e, Start(n), steps);
  }

  // ---------------------------------------------------------------- ownership

  /** No trace of a channel: not in the poller's map, not in the kernel's set. */
  predicate Forgotten(r: Reg<CId>, c: CId) {
    && c !in r.chans && !Reported(r, c)
    && forall fd :: fd in r.channels ==> r.channels[fd] != c
  }

  /** A channel its poller knows belongs to a connection with an owner, so a connection
      is freed only with its channel back at kNew, and then no poller has it. Late sends
      do no harm here as long as a destruction comes after them. */
  lemma OwnedWhileRegistered(e: Edition, n: nat, steps: seq<Step>, l: LId, c: CId)
    requires ServerRun(e, n, steps) && Never(e, Start(n), steps, Orphaning)
    ensures var s := After(e, Start(n), steps);
            l < |s.regs| ==>
              && s.regs[l].Agrees()
              && (c in s.regs[l].chans && s.regs[l].chans[c].index != New ==> ToRun(s, c) && Owned(e, s, c))
              && (c in s.freed ==> Forgotten(s.regs[l], c))
  {
    StartIsSane(e, n);
    RunKeepsSafe(e, Start(n), steps);
    var s := After(e, Start(n), steps);
    if l < |s.regs| {
      assert RegFits(s, l, s.regs[l]);
      if c in s.regs[l].chans && s.regs[l].chans[c].index != New {
        assert RecOk(s, c);
        RegisteredIsOwned(e, s, c);
      }
      if c in s.freed {
        assert RecOk(s, c);
        FreedIsForgotten(e, s, l, c);
      }
    }
  }

  lemma FreedIsForgotten(e: Edition, s: Sys, l: LId, c: CId)
    requires Safe(e, s) && l < |s.regs| && c in s.freed
    ensures Forgotten(s.regs[l], c)
  {
    assert RegFits(s, l, s.regs[l]) && RecOk(s, c);
    if Reported(s.regs[l], c) {
      ReportedIsKnown(e, s, l, c);
    }
  }

  /** A calm run leads from here to a channel that its poller knows and nobody owns. */
  ghost predicate CanLose(e: Edition, s: Sys) {
    exists t: Sys, l: LId, n: nat, c: CId :: Reaches(e, s, t, l, n) && Lost(e, t, c)
  }

  predicate Lost(e: Edition, s: Sys, c: CId) {
    Registered(s, c) && !Owned(e, s, c)
  }

  lemma {:induction false} CalmNeverOrphans(e: Edition, s: Sys, steps: seq<Step>)
    requires LegalRun(e, s, steps) && Calm(steps)
    ensures Never(e, s, steps, Orphaning)
    decreases |steps|
  {
    if steps != [] {
      assert !steps[0].RunFn? || !steps[0].watch;
      CalmNeverOrphans(e, Next(e, s, steps[0]), steps[1..]);
    }
  }

  lemma SafeLosesNothing(e: Edition, s: Sys)
    requires Safe(e, s)
    ensures !CanLose(e, s)
  {
    forall t: Sys, l: LId, n: nat, c: CId | Reaches(e, s, t, l, n)
      ensures !Lost(e, t, c)
    {
      var steps: seq<Step> :| Leads(e, s, steps, t, {}) && Calm(steps) && Pops(steps, l) == n;
      LeadsThere(e, s, steps, t, {});
      CalmNeverOrphans(e, s, steps);
      RunKeepsSafe(e, s, steps);
      if Registered(t, c) {
        RegisteredIsOwned(e, t, c);
      }
    }
  }

  lemma OrphaningCanLose(e: Edition, s: Sys, step: Step)
    requires Sane(e, s) && Enabled(e, s, step) && Has(e, s, step, Orphaning)
    ensures CanLose(e, Next(e, s, step))
  {
    var c := Head(s, step.l).c;
    var s' := Next(e, s, step);
    StepKeepsSane(e, s, step);
    WatchedSend(e, s, step.l);
    var t, n := OrphanIsLost(e, s', step.l, c);
    assert Lost(e, t, c);
  }

  /** What a send that asks for EPOLLOUT leaves behind. */
  lemma WatchedSend(e: Edition, s: Sys, l: LId)
    requires Sane(e, s) && Enabled(e, s, RunFn(l, true)) && Watches(e, s, RunFn(l, true))
    ensures var c, s' := Head(s, l).c, Next(e, s, RunFn(l, true));
            && OnLoop(s', l, c) && Registered(s', c) && ChanOf(s', c).index == Added && s'.loops[l].phase == Running
            && (!ToRun(s, c) ==> !ToRun(s', c)) && Stage(s', c) == Stage(s, c)
  {
    var c := Head(s, l).c;
    var p := PutLoop(s, l, Popped(s.loops[l]));
    var s' := Next(e, s, RunFn(l, true));
    SendHead(e, s, l);
    SendEffect(e, p, c, true);
    assert EPOLLOUT in ChanOf(p, c).events + WRITE_EVENT;
    if !ToRun(s, c) {
      TokensPop(s.loops[l]);
      NoRunAfterPop(s, s', l, c);
    }
  }

  lemma SendHead(e: Edition, s: Sys, l: LId)
    requires Sane(e, s) && CanRun(s, l) && Head(s, l).SendFn? && Head(s, l).c !in s.freed
    ensures Known(s, Head(s, l).c) && s.recs[Head(s, l).c].loop == l
  {
    assert RecOk(s, Head(s, l).c) && Fits(s, l, s.loops[l]);
    HeadPlaced(s, l);
  }

  lemma NoRunAfterPop(s: Sys, t: Sys, l: LId, c: CId)
    requires l < |s.loops| && s.loops[l].batch != [] && t.loops == s.loops[l := Popped(s.loops[l])]
    requires t.listed == s.listed && !ToRun(s, c)
    ensures !ToRun(t, c)
  {
    LooseAfterPop(s, t, l, c);
  }

  /** In no state of the run is a channel about to outlive its owners. */
  ghost predicate NothingLost(e: Edition, s: Sys, steps: seq<Step>)
    requires LegalRun(e, s, steps)
    decreases |steps|
  {
    !CanLose(e, s) && (steps == [] || NothingLost(e, Next(e, s, steps[0]), steps[1..]))
  }

  lemma {:induction false} NothingLostFrom(e: Edition, s: Sys, steps: seq<Step>)
    requires Safe(e, s) && LegalRun(e, s, steps)
    ensures NothingLost(e, s, steps) <==> Never(e, s, steps, Orphaning)
    decreases |steps|
  {
    SafeLosesNothing(e, s);
    if steps != [] {
      if Has(e, s, steps[0], Orphaning) {
        OrphaningCanLose(e, s, steps[0]);
      } else {
        StepKeepsSafe(e, s, steps[0]);
        NothingLostFrom(e, Next(e, s, steps[0]), steps[1..]);
      }
    }
  }

  /** Ownership, exactly: from no state of the run can a continuation in which no queued
      send asks for EPOLLOUT come to a registered channel that nobody owns, if and only
      if no send of the run asks for it on a connection that is out of the map, with no
      functor left that would take it out or destroy it. */
  lemma OwnershipIsExact(e: Edition, n: nat, steps: seq<Step>)
    requires ServerRun(e, n, steps)
    ensures NothingLost(e, Start(n), steps) <==> Never(e, Start(n), steps, Orphaning)
  {
    StartIsSane(e, n);
    NothingLostFrom(e, Start(n), steps);
  }

  /** While a loop walks its active channels, none in the list leaves the poller or is
      freed, whichever loop the connection came from. */
  lemma WalkedChannelsStay(e: Edition, n: nat, steps: seq<Step>, l: LId, i: nat)
    requires ServerRun(e, n, steps) && Never(e, Start(n), steps, Orphaning)
    ensures var s := After(e, Start(n), steps);
            l < |s.loops| && s.loops[l].phase == Dispatching && i < |s.loops[l].active| ==>
              var c := s.loops[l].active[i];
              && c !in s.freed && Owned(e, s, c)
              && l < |s.regs| && c in s.regs[l].chans && s.regs[l].HasChannel(c)
  {
    StartIsSane(e, n);
    RunKeepsSafe(e, Start(n), steps);
    var s := After(e, Start(n), steps);
    if l < |s.loops| && s.loops[l].phase == Dispatching && i < |s.loops[l].active| {
      var c := s.loops[l].active[i];
      assert Fits(s, l, s.loops[l]) && ActiveRegistered(s, l);
      assert RecOk(s, c);
      RegisteredIsOwned(e, s, c);
      HasChannelIsNotNew(s.regs[l], c);
    }
  }

  /** A calm run leads from here to a loop that is about to handle a freed channel. */
  ghost predicate CanWalkFreed(e: Edition, s: Sys) {
    exists t: Sys, l: LId, n: nat, k: LId :: Reaches(e, s, t, l, n) && WalksFreed(t, k)
  }

  lemma SafeWalksNoneFreed(e: Edition, s: Sys)
    requires Safe(e, s)
    ensures !CanWalkFreed(e, s)
  {
    forall t: Sys, l: LId, n: nat, k: LId | Reaches(e, s, t, l, n)
      ensures !WalksFreed(t, k)
    {
      var steps: seq<Step> :| Leads(e, s, steps, t, {}) && Calm(steps) && Pops(steps, l) == n;
      LeadsThere(e, s, steps, t, {});
      CalmNeverOrphans(e, s, steps);
      RunKeepsSafe(e, s, steps);
      CurrentIsAlive(e, t, k);
    }
  }

  lemma CurrentIsAlive(e: Edition, s: Sys, l: LId)
    requires Safe(e, s)
    ensures !WalksFreed(s, l)
  {
    if Walking(s, l) {
      assert ActiveRegistered(s, l) && Fits(s, l, s.loops[l]);
      assert Registered(s, Current(s, l));
      assert RecOk(s, Current(s, l));
    }
  }

  lemma OrphaningCanWalkFreed(e: Edition, s: Sys, step: Step)
    requires Sane(e, s) && Enabled(e, s, step) && Has(e, s, step, Orphaning)
    ensures CanWalkFreed(e, Next(e, s, step))
  {
    StepKeepsSane(e, s, step);
    WatchedSend(e, s, step.l);
    var t, n := OrphanIsWalked(e, Next(e, s, step), step.l, Head(s, step.l).c);
  }

  /** In no state of the run is a loop about to come to a freed channel. */
  ghost predicate WalksStay(e: Edition, s: Sys, steps: seq<Step>)
    requires LegalRun(e, s, steps)
    decreases |steps|
  {
    !CanWalkFreed(e, s) && (steps == [] || WalksStay(e, Next(e, s, steps[0]), steps[1..]))
  }

  lemma {:induction false} WalksStayFrom(e: Edition, s: Sys, steps: seq<Step>)
    requires Safe(e, s) && LegalRun(e, s, steps)
    ensures WalksStay(e, s, steps) <==> Never(e, s, steps, Orphaning)
    decreases |steps|
  {
    SafeWalksNoneFreed(e, s);
    if steps != [] {
      if Has(e, s, steps[0], Orphaning) {
        OrphaningCanWalkFreed(e, s, steps[0]);
      } else {
        StepKeepsSafe(e, s, steps[0]);
        WalksStayFrom(e, Next(e, s, steps[0]), steps[1..]);
      }
    }
  }

  /** Walked lists, exactly: from no state of the run can a continuation in which no
      queued send asks for EPOLLOUT come to a loop that is about to handle a freed
      channel, if and only if no send of the run is orphaning. */
  lemma WalksAreExact(e: Edition, n: nat, steps: seq<Step>)
    requires ServerRun(e, n, steps)
    ensures WalksStay(e, Start(n), steps) <==> Never(e, Start(n), steps, Orphaning)
  {
    StartIsSane(e, n);
    WalksStayFrom(e, Start(n), steps);
  }

  // ---------------------------------------------------------------- milestones

  /** Established, closed, removed from the map, destroyed: in this order, each at most
      once. Late sends do no harm here when the destruction follows in the same batch,
      or when nobody is left to own the connection. */
  lemma MilestonesInOrder(e: Edition, n: nat, steps: seq<Step>, c: CId)
    requires ServerRun(e, n, steps) && Never(e, Start(n), steps, Reviving)
    ensures var s := After(e, Start(n), steps);
            c in s.recs ==> s.recs[c].history <= MILESTONES
  {
    StartIsSane(e, n);
    RunKeepsOrdered(e, Start(n), steps);
    var s := After(e, Start(n), steps);
    assert c in s.recs ==> RecOrder(s, c);
  }

  /** A calm run leads from here to milestones that are out of order. */
  ghost predicate CanDisorder(e: Edition, s: Sys) {
    exists t: Sys, l: LId, n: nat, c: CId :: Reaches(e, s, t, l, n) && Disordered(t, c)
  }

  lemma {:induction false} CalmNeverRevives(e: Edition, s: Sys, steps: seq<Step>)
    requires LegalRun(e, s, steps) && Calm(steps)
    ensures Never(e, s, steps, Reviving)
    decreases |steps|
  {
    if steps != [] {
      assert !steps[0].RunFn? || !steps[0].watch;
      CalmNeverRevives(e, Next(e, s, steps[0]), steps[1..]);
    }
  }

  lemma OrderedStaysSo(e: Edition, s: Sys)
    requires Ordered(e, s)
    ensures !CanDisorder(e, s)
  {
    forall t: Sys, l: LId, n: nat, c: CId | Reaches(e, s, t, l, n)
      ensures !Disordered(t, c)
    {
      var steps: seq<Step> :| Leads(e, s, steps, t, {}) && Calm(steps) && Pops(steps, l) == n;
      LeadsThere(e, s, steps, t, {});
      CalmNeverRevives(e, s, steps);
      RunKeepsOrdered(e, s, steps);
      assert c in t.recs ==> RecOrder(t, c);
    }
  }

  lemma RevivingCanDisorder(e: Edition, s: Sys, step: Step)
    requires Sane(e, s) && Enabled(e, s, step) && Has(e, s, step, Reviving)
    ensures CanDisorder(e, Next(e, s, step))
  {
    var c := Head(s, step.l).c;
    var s' := Next(e, s, step);
    StepKeepsSane(e, s, step);
    WatchedSend(e, s, step.l);
    RevivedByStep(e, s, step.l);
    var t, n := RevivalDisorders(e, s', step.l, c);
  }

  /** After a reviving send the connection still has its owner, and no destruction ahead
      in the batch. */
  lemma RevivedByStep(e: Edition, s: Sys, l: LId)
    requires Sane(e, s) && Enabled(e, s, RunFn(l, true)) && Has(e, s, RunFn(l, true), Reviving)
    ensures var c, s' := Head(s, l).c, Next(e, s, RunFn(l, true));
            Owned(e, s', c) && NotInBatch(s', l, c)
  {
    var c := Head(s, l).c;
    var p := PutLoop(s, l, Popped(s.loops[l]));
    HandlersKeepLoops(e, p, c, true);
    SendKeepsOwners(e, p, c, true);
    PoppedKeepsOwner(e, s, l, c);
    assert Next(e, s, RunFn(l, true)).loops == p.loops;
    assert forall f :: f in s.loops[l].batch[1..] ==> f in s.loops[l].batch;
  }

  lemma PoppedKeepsOwner(e: Edition, s: Sys, l: LId, c: CId)
    requires l < |s.loops| && s.loops[l].batch != [] && Owned(e, s, c)
    ensures Owned(e, PutLoop(s, l, Popped(s.loops[l])), c)
  {
    var t := PutLoop(s, l, Popped(s.loops[l]));
    PopKeepsHeld(e, s.loops[l], c);
    if k :| 0 <= k < |s.loops| && HeldBy(e, s.loops[k], c) {
      assert HeldBy(e, t.loops[k], c);
    }
  }

  /** In no state of the run are milestones about to get out of order. */
  ghost predicate KeepsOrder(e: Edition, s: Sys, steps: seq<Step>)
    requires LegalRun(e, s, steps)
    decreases |steps|
  {
    !CanDisorder(e, s) && (steps == [] || KeepsOrder(e, Next(e, s, steps[0]), steps[1..]))
  }

  lemma {:induction false} KeepsOrderFrom(e: Edition, s: Sys, steps: seq<Step>)
    requires Ordered(e, s) && LegalRun(e, s, steps)
    ensures KeepsOrder(e, s, steps) <==> Never(e, s, steps, Reviving)
    decreases |steps|
  {
    OrderedStaysSo(e, s);
    if steps != [] {
      if Has(e, s, steps[0], Reviving) {
        RevivingCanDisorder(e, s, steps[0]);
      } else {
        StepKeepsOrdered(e, s, steps[0]);
        KeepsOrderFrom(e, Next(e, s, steps[0]), steps[1..]);
      }
    }
  }

  /** The order, exactly: from no state of the run can a continuation in which no queued
      send asks for EPOLLOUT bring a connection's milestones out of order, if and only
      if no send of the run is reviving. */
  lemma OrderIsExact(e: Edition, n: nat, steps: seq<Step>)
    requires ServerRun(e, n, steps)
    ensures KeepsOrder(e, Start(n), steps) <==> Never(e, Start(n), steps, Reviving)
  {
    StartIsSane(e, n);
    KeepsOrderFrom(e, Start(n), steps);
  }

  /** On every run, the map has a connection exactly until its removal. */
  lemma ListedUntilRemoved(e: Edition, n: nat, steps: seq<Step>, c: CId)
    requires n > 0 && LegalRun(e, Start(n), steps)
    ensures var s := After(e, Start(n), steps);
            c in s.listed <==> c in s.recs && Unlisted !in s.recs[c].history
  {
    RunIsSane(e, n, steps);
    var s := After(e, Start(n), steps);
    assert c in s.recs ==> RecOk(s, c);
  }

  // ---------------------------------------------------------------- closed for good

  /** No poller's kernel set has a channel of a closed connection. */
  predicate NoClosedReported(s: Sys) {
    forall l, c | 0 <= l < |s.regs| && c in s.recs && IsClosed(s, c) :: !Reported(s.regs[l], c)
  }

  predicate ClosedForGood(e: Edition, s: Sys, steps: seq<Step>)
    requires LegalRun(e, s, steps)
    decreases |steps|
  {
    NoClosedReported(s) && (steps == [] || ClosedForGood(e, Next(e, s, steps[0]), steps[1..]))
  }

  lemma StrictIsQuiet(e: Edition, s: Sys)
    requires Sane(e, s) && Strict(s)
    ensures NoClosedReported(s)
  {
    forall l, c | 0 <= l < |s.regs| && c in s.recs && IsClosed(s, c)
      ensures !Reported(s.regs[l], c)
    {
      if Reported(s.regs[l], c) {
        ReportedIsFirst(e, s, l, c);
      }
    }
  }

  lemma ReportedIsFirst(e: Edition, s: Sys, l: LId, c: CId)
    requires Sane(e, s) && Strict(s) && l < |s.regs| && Reported(s.regs[l], c)
    ensures c in s.recs && Stage(s, c) == 1
  {
    ReportedIsKnown(e, s, l, c);
    assert Follows(s, c);
  }

  /** A late send puts the closed channel back into the kernel's set. */
  lemma LateSendReports(e: Edition, s: Sys, step: Step)
    requires Sane(e, s) && Enabled(e, s, step) && Has(e, s, step, Late)
    ensures !NoClosedReported(Next(e, s, step))
  {
    var c := Head(s, step.l).c;
    var s' := Next(e, s, step);
    StepKeepsSane(e, s, step);
    WatchedSend(e, s, step.l);
    AddedIsReported(e, s', c);
    assert IsClosed(s', c);
  }

  lemma {:induction false} ClosedForGoodFrom(e: Edition, s: Sys, steps: seq<Step>)
    requires Ordered(e, s) && Strict(s) && LegalRun(e, s, steps)
    ensures ClosedForGood(e, s, steps) <==> Never(e, s, steps, Late)
    decreases |steps|
  {
    StrictIsQuiet(e, s);
    if steps != [] {
      if Has(e, s, steps[0], Late) {
        LateSendReports(e, s, steps[0]);
      } else {
        FaultsAreLate(e, s, steps[0]);
        StepKeepsOrdered(e, s, steps[0]);
        StepKeepsStrict(e, s, steps[0]);
        ClosedForGoodFrom(e, Next(e, s, steps[0]), steps[1..]);
      }
    }
  }

  /** A closed channel is reported by no later poll, over a whole run, if and only if
      no send runs on a connection already closed without being refused. */
  lemma ClosedStaysUnreported(e: Edition, n: nat, steps: seq<Step>)
    requires ServerRun(e, n, steps)
    ensures ClosedForGood(e, Start(n), steps) <==> Never(e, Start(n), steps, Late)
  {
    StartIsSane(e, n);
    ClosedForGoodFrom(e, Start(n), steps);
  }

  // ---------------------------------------------------------------- when sends are late

  predicate ClosedIsDisconnected(s: Sys) {
    forall c :: c in s.recs && IsClosed(s, c) ==> s.recs[c].state == C.Disconnected
  }

  predicate ClosedOff(s: Sys, c: CId) {
    c in s.recs && IsClosed(s, c) ==> s.recs[c].state == C.Disconnected
  }

  lemma SendRecs(s: Sys, c: CId, watch: bool)
    requires c in s.recs
    ensures DoSend(C.AsMeant, s, c, watch).recs == s.recs
  {
  }

  lemma RunOff(s: Sys, l: LId, watch: bool)
    requires Sane(C.AsMeant, s) && ClosedIsDisconnected(s) && Enabled(C.AsMeant, s, RunFn(l, watch))
    ensures ClosedOff(Next(C.AsMeant, s, RunFn(l, watch)), Head(s, l).c)
  {
    var f := Head(s, l);
    var t := PutLoop(s, l, Popped(s.loops[l]));
    assert RecOk(s, f.c) && Fits(s, l, s.loops[l]);
    HeadPlaced(s, l);
    if f.c !in s.freed {
      match f {
        case EstablishFn(c) =>
          RunEstablishRec(C.AsMeant, s, l);
          EstablishEffect(t, c);
        case DestroyFn(c) => DestroyEffect(t, c);
        case SendFn(c) => SendRecs(t, c, watch);
        case _ =>
      }
    }
  }

  lemma HandOverOff(s: Sys)
    requires Sane(C.AsMeant, s) && Enabled(C.AsMeant, s, HandOver)
    ensures ClosedOff(Next(C.AsMeant, s, HandOver), s.loops[0].frame.c)
  {
    var c := s.loops[0].frame.c;
    assert RecOk(s, c);
    EstablishEffect(SetFrame(s, 0, Idle), c);
  }

  lemma CloseOff(s: Sys, l: LId)
    requires Enabled(C.AsMeant, s, Close(l))
    ensures ClosedOff(Next(C.AsMeant, s, Close(l)), Current(s, l))
  {
    CloseEffect(PutLoop(s, l, Advanced(s.loops[l])), Current(s, l));
  }

  lemma CallbackOff(s: Sys, l: LId)
    requires Sane(C.AsMeant, s) && ClosedIsDisconnected(s) && Enabled(C.AsMeant, s, CloseCallback(l))
    ensures ClosedOff(Next(C.AsMeant, s, CloseCallback(l)), s.loops[l].frame.c)
  {
    assert Fits(s, l, s.loops[l]);
  }

  lemma FrameOff(s: Sys, step: Step, c: CId)
    requires Sane(C.AsMeant, s) && ClosedIsDisconnected(s) && Enabled(C.AsMeant, s, step)
    requires FrameStep(step) && Concerns(C.AsMeant, s, step, c)
    ensures ClosedOff(Next(C.AsMeant, s, step), c)
  {
    match step {
      case HandOver => HandOverOff(s);
      case Close(l) => CloseOff(s, l);
      case CloseCallback(l) => CallbackOff(s, l);
      case _ =>
    }
  }

  lemma OwnOff(s: Sys, step: Step, c: CId)
    requires ClosedIsDisconnected(s) && Sane(C.AsMeant, s) && Enabled(C.AsMeant, s, step)
    requires OwnStep(step) && Concerns(C.AsMeant, s, step, c)
    ensures ClosedOff(Next(C.AsMeant, s, step), c)
  {
    if step.DirectSend? {
      SendRecs(s, c, step.watch);
    } else if step.DirectShutdown? {
      assert RecOk(s, c);
    }
  }

  lemma CallOff(s: Sys, step: Step)
    requires ClosedIsDisconnected(s) && Enabled(C.AsMeant, s, step) && !Has(C.AsMeant, s, step, Stale) && CallStep(step)
    ensures ClosedOff(Next(C.AsMeant, s, step), step.c)
  {
    if !step.StoreShutdown? {
      assert Next(C.AsMeant, s, step).recs == s.recs;
    }
  }

  lemma StepKeepsDisconnected(s: Sys, step: Step)
    requires Sane(C.AsMeant, s) && ClosedIsDisconnected(s)
    requires Enabled(C.AsMeant, s, step) && !Has(C.AsMeant, s, step, Stale)
    ensures ClosedIsDisconnected(Next(C.AsMeant, s, step))
  {
    var s' := Next(C.AsMeant, s, step);
    forall c | c in s'.recs
      ensures ClosedOff(s', c)
    {
      if !Concerns(C.AsMeant, s, step, c) {
        NothingElseIsBorn(C.AsMeant, s, step, c);
        StepApart(C.AsMeant, s, step, c);
      } else if step.RunFn? {
        RunOff(s, step.l, step.watch);
      } else if FrameStep(step) {
        FrameOff(s, step, c);
      } else if OwnStep(step) {
        OwnOff(s, step, c);
      } else {
        CallOff(s, step);
      }
    }
  }

  lemma {:induction false} MeantIsNeverLate(s: Sys, steps: seq<Step>)
    requires Sane(C.AsMeant, s) && ClosedIsDisconnected(s)
    requires LegalRun(C.AsMeant, s, steps) && Never(C.AsMeant, s, steps, Stale)
    ensures Never(C.AsMeant, s, steps, Late)
    decreases |steps|
  {
    if steps != [] {
      StepKeepsDisconnected(s, steps[0]);
      StepKeepsSane(C.AsMeant, s, steps[0]);
      MeantIsNeverLate(Next(C.AsMeant, s, steps[0]), steps[1..]);
    }
  }

  /** With the guard of sendInLoop as meant, no send is late, orphaning or reviving on
      any run in which no shutdown's store comes after the close that its check did not
      see. */
  lemma MeantRunsAreNeverLate(n: nat, steps: seq<Step>)
    requires n > 0 && LegalRun(C.AsMeant, Start(n), steps) && Never(C.AsMeant, Start(n), steps, Stale)
    ensures Never(C.AsMeant, Start(n), steps, Late)
    ensures Never(C.AsMeant, Start(n), steps, Orphaning) && Never(C.AsMeant, Start(n), steps, Reviving)
  {
    StartIsSane(C.AsMeant, n);
    MeantIsNeverLate(Start(n), steps);
    NeverLateIsEnough(C.AsMeant, Start(n), steps);
  }

  // ---------------------------------------------------------------- calls on the connection's own thread

  /** No other thread is in a call on a connection, and none has queued one. */
  ghost predicate Alone(s: Sys) {
    s.calls == multiset{} && QueuesAlone(s)
  }

  ghost predicate NoPlainFn(l: Loop) {
    forall f :: f in l.batch || f in l.pending ==> !f.SendFn? && !f.ShutdownFn?
  }

  /** A step of the loops, or of user code on the connection's own loop. */
  predicate OwnThread(step: Step) {
    !step.BeginSend? && !step.BeginShutdown?
  }

  /** send and shutdown are called only on the own thread of the connection's loop. */
  predicate OwnThreadOnly(steps: seq<Step>) {
    forall i :: 0 <= i < |steps| ==> OwnThread(steps[i])
  }

  lemma FrameAlone(e: Edition, s: Sys, step: Step)
    requires Alone(s) && Enabled(e, s, step) && FrameStep(step)
    ensures Alone(Next(e, s, step))
  {
    FrameKeepsCalls(e, s, step);
    match step {
      case HandOver => HandOverAlone(e, s);
      case Close(l) => CloseAlone(e, s, l);
      case _ => QueueAlone(e, s, step);
    }
  }

  ghost predicate QueuesAlone(s: Sys) {
    forall l :: 0 <= l < |s.loops| ==> NoPlainFn(s.loops[l])
  }

  lemma HandOverAlone(e: Edition, s: Sys)
    requires QueuesAlone(s) && Enabled(e, s, HandOver)
    ensures QueuesAlone(Next(e, s, HandOver))
  {
    HandlersKeepLoops(e, SetFrame(s, 0, Idle), s.loops[0].frame.c, false);
  }

  lemma CloseAlone(e: Edition, s: Sys, l: LId)
    requires QueuesAlone(s) && Enabled(e, s, Close(l))
    ensures QueuesAlone(Next(e, s, Close(l)))
  {
    HandlersKeepLoops(e, PutLoop(s, l, Advanced(s.loops[l])), Current(s, l), false);
  }

  /** Frames queue functors that own. */
  lemma QueueAlone(e: Edition, s: Sys, step: Step)
    requires QueuesAlone(s) && Enabled(e, s, step) && (step.Accept? || step.CloseCallback? || step.QueueDestroy?)
    ensures QueuesAlone(Next(e, s, step))
  {
  }

  lemma RunAlone(e: Edition, s: Sys, l: LId, watch: bool)
    requires Alone(s) && Enabled(e, s, RunFn(l, watch))
    ensures Alone(Next(e, s, RunFn(l, watch)))
  {
    var p := PutLoop(s, l, Popped(s.loops[l]));
    ExecuteLoops(e, p, Head(s, l), watch);
    ExecuteKeepsCalls(e, p, Head(s, l), watch);
    assert s.loops[l].batch == [s.loops[l].batch[0]] + s.loops[l].batch[1..];
  }

  lemma ThreadAlone(e: Edition, s: Sys, step: Step)
    requires Alone(s) && Enabled(e, s, step) && OwnThread(step) && !FrameStep(step) && !step.RunFn?
    ensures Alone(Next(e, s, step))
  {
    if step.DirectSend? {
      HandlersKeepLoops(e, s, step.c, step.watch);
      SendKeepsOwners(e, s, step.c, step.watch);
    }
  }

  lemma StepAlone(e: Edition, s: Sys, step: Step)
    requires Alone(s) && Enabled(e, s, step) && OwnThread(step)
    ensures Alone(Next(e, s, step))
  {
    if FrameStep(step) {
      FrameAlone(e, s, step);
    } else if step.RunFn? {
      RunAlone(e, s, step.l, step.watch);
    } else {
      ThreadAlone(e, s, step);
    }
  }

  lemma AloneRunsOwners(e: Edition, s: Sys, l: LId)
    requires Sane(e, s) && Alone(s) && CanRun(s, l)
    ensures !Head(s, l).SendFn? && !Head(s, l).ShutdownFn? && Head(s, l).c !in s.freed
  {
    assert NoPlainFn(s.loops[l]);
    assert Head(s, l) in s.loops[l].batch;
    HeadIsHeld(e, s, l);
  }

  lemma RunFaultless(e: Edition, s: Sys, l: LId, watch: bool)
    requires Sane(e, s) && Alone(s) && Enabled(e, s, RunFn(l, watch))
    ensures !Has(e, s, RunFn(l, watch), Late) && !Has(e, s, RunFn(l, watch), Dangling)
  {
    AloneRunsOwners(e, s, l);
    OwnerRunFaultless(e, s, l, watch);
  }

  lemma OwnerRunFaultless(e: Edition, s: Sys, l: LId, watch: bool)
    requires Enabled(e, s, RunFn(l, watch)) && !Head(s, l).SendFn? && Head(s, l).c !in s.freed
    ensures !Has(e, s, RunFn(l, watch), Late) && !Has(e, s, RunFn(l, watch), Dangling)
  {
  }

  lemma AdvanceFaultless(e: Edition, s: Sys, l: LId)
    requires Safe(e, s) && Enabled(e, s, Advance(l))
    ensures !Has(e, s, Advance(l), Late) && !Has(e, s, Advance(l), Dangling)
  {
    CurrentIsAlive(e, s, l);
  }

  /** Whoever is alone makes no late send and finds everything alive. */
  lemma AloneIsFaultless(e: Edition, s: Sys, step: Step)
    requires Safe(e, s) && Alone(s) && Enabled(e, s, step)
    ensures !Has(e, s, step, Late) && !Has(e, s, step, Dangling)
  {
    if step.RunFn? {
      RunFaultless(e, s, step.l, step.watch);
    } else if step.Advance? {
      AdvanceFaultless(e, s, step.l);
    } else {
      OtherFaultless(e, s, step);
    }
  }

  lemma OtherFaultless(e: Edition, s: Sys, step: Step)
    requires Enabled(e, s, step) && !step.RunFn? && !step.Advance?
    ensures !Has(e, s, step, Late) && !Has(e, s, step, Dangling)
  {
  }

  lemma {:induction false} AloneFrom(e: Edition, s: Sys, steps: seq<Step>)
    requires Safe(e, s) && Alone(s) && LegalRun(e, s, steps) && OwnThreadOnly(steps)
    ensures Never(e, s, steps, Late) && Never(e, s, steps, Dangling)
    ensures Never(e, s, steps, Orphaning) && Never(e, s, steps, Reviving)
    decreases |steps|
  {
    if steps != [] {
      AloneIsFaultless(e, s, steps[0]);
      FaultsAreLate(e, s, steps[0]);
      StepKeepsSafe(e, s, steps[0]);
      assert OwnThread(steps[0]);
      StepAlone(e, s, steps[0]);
      AloneFrom(e, Next(e, s, steps[0]), steps[1..]);
    }
  }

  /** When send and shutdown are called only on the own thread of the connection's loop,
      as in its callbacks, no run has any of the faults, in either edition: ownership,
      walked lists, milestones and closed channels hold outright. */
  lemma OwnThreadIsSafe(e: Edition, n: nat, steps: seq<Step>)
    requires n > 0 && LegalRun(e, Start(n), steps) && OwnThreadOnly(steps)
    ensures ServerRun(e, n, steps) && Never(e, Start(n), steps, Late)
    ensures Never(e, Start(n), steps, Orphaning) && Never(e, Start(n), steps, Reviving)
  {
    StartIsSane(e, n);
    AloneFrom(e, Start(n), steps);
  }
}
