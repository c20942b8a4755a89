/** That things do go wrong: runs of a server with one io loop, step by step, to the
    states the theorems exclude, and without a use of a freed connection on the way. */
module LifetimeWitnesses {
  import opened Registry
  import opened Lifetime
  import opened LifetimeSanity
  import opened LifetimeDrain
  import opened LifetimePointers
  import opened LifetimeRevival
  import opened LifetimeTheorems
  import C = ConnectionSpec

  /** Some run of a server with one io loop leads here, without a use of a freed
      connection. */
  ghost predicate Reachable(e: Edition, s: Sys) {
    exists steps: seq<Step> :: Leads(e, Start(2), steps, s, {Dangling})
  }

  lemma {:induction false} RunOn(e: Edition, s: Sys, steps: seq<Step>, step: Step)
    requires LegalRun(e, s, steps) && Never(e, s, steps, Dangling)
    requires Enabled(e, After(e, s, steps), step) && !Has(e, After(e, s, steps), step, Dangling)
    ensures LegalRun(e, s, steps + [step]) && Never(e, s, steps + [step], Dangling)
    ensures After(e, s, steps + [step]) == Next(e, After(e, s, steps), step)
    decreases |steps|
  {
    if steps == [] {
      assert steps + [step] == [step] && [step][1..] == [];
    } else {
      assert (steps + [step])[1..] == steps[1..] + [step];
      RunOn(e, Next(e, s, steps[0]), steps[1..], step);
    }
  }

  lemma StepOn(e: Edition, s: Sys, step: Step)
    requires Reachable(e, s) && Enabled(e, s, step) && !Has(e, s, step, Dangling)
    ensures Reachable(e, Next(e, s, step))
  {
    var steps: seq<Step> :| Leads(e, Start(2), steps, s, {Dangling});
    LeadsThere(e, Start(2), steps, s, {Dangling});
    RunOn(e, Start(2), steps, step);
    LeadsThere(e, Start(2), steps + [step], Next(e, s, step), {Dangling});
  }

  lemma StartReached(e: Edition)
    ensures Reachable(e, Start(2))
  {
    LeadsThere(e, Start(2), [], Start(2), {Dangling});
    assert Leads(e, Start(2), [], Start(2), {Dangling});
  }

  // ---------------------------------------------------------------- one connection

  const WALKING: Loop := Loop(Dispatching, [], 0, [], [], [], Idle)
  const UNBORN: Rec := Rec(1, 7, C.Connecting, [])
  const OPEN: Rec := Rec(1, 7, C.Connected, [Established])
  const FRESH_REG: Reg<CId> := Empty<CId>().(chans := map[0 := Chan(7, NONE_EVENT, New)])
  const OPEN_REG: Reg<CId> := FRESH_REG.SetEvents(0, READ_EVENT)
  const CLOSED_REG: Reg<CId> := OPEN_REG.SetEvents(0, NONE_EVENT)
  const GONE_REG: Reg<CId> := CLOSED_REG.RemoveChannel(0)
  const BACK_REG: Reg<CId> := GONE_REG.SetEvents(0, WRITE_EVENT)

  /** The base loop, the io loop, and the connection. */
  function One(base: Loop, io: Loop, rec: Rec, reg: Reg<CId>,
               listed: set<CId>, users: set<CId>, calls: multiset<Call>): Sys
  {
    Sys([base, io], [Empty<CId>(), reg], map[0 := rec], listed, users, calls, {})
  }

  function Batch(ran: seq<Fn>, batch: seq<Fn>): Loop {
    Loop(Running, [], 0, ran, batch, [], Idle)
  }

  lemma Accepted(e: Edition)
    ensures Reachable(e, One(WALKING, Posted(WAITING, EstablishFn(0)), UNBORN, FRESH_REG, {0}, {}, multiset{}))
  {
    var s := Start(2);
    StartReached(e);
    assert s.loops == [WAITING, WAITING] && s.regs == [Empty<CId>(), Empty<CId>()];
    StepOn(e, s, Poll(0, []));
    var s1 := Next(e, s, Poll(0, []));
    StepOn(e, s1, Accept(0, 1, 7));
    assert Next(e, s1, Accept(0, 1, 7)).regs == [Empty<CId>(), FRESH_REG];
    HandedOver(e, Next(e, s1, Accept(0, 1, 7)));
  }

  lemma HandedOver(e: Edition, s: Sys)
    requires s == One(Framed(WALKING, Creating(0)), WAITING, UNBORN, FRESH_REG, {0}, {}, multiset{}) && Reachable(e, s)
    ensures Reachable(e, One(WALKING, Posted(WAITING, EstablishFn(0)), UNBORN, FRESH_REG, {0}, {}, multiset{}))
  {
    StepOn(e, s, HandOver);
    assert Next(e, s, HandOver)
        == One(WALKING, Posted(WAITING, EstablishFn(0)), UNBORN, FRESH_REG, {0}, {}, multiset{});
  }

  lemma PoppedOne(f: Fn)
    ensures Popped(Batch([], [f])) == Batch([f], [])
  {
  }

  lemma HeadRuns(e: Edition, s: Sys, l: LId, f: Fn, watch: bool)
    requires l < |s.loops| && s.loops[l].phase == Running && s.loops[l].frame == Idle && s.loops[l].batch == [f]
    requires f.c in s.recs && f.c !in s.freed && (watch ==> f.SendFn?)
    ensures Enabled(e, s, RunFn(l, watch)) && Head(s, l) == f
    ensures var t := PutLoop(s, l, Popped(s.loops[l]));
            Next(e, s, RunFn(l, watch))
            == match f
               case EstablishFn(c) => DoEstablish(t, c)
               case UnlistFn(c) => DoUnlist(t, c)
               case DestroyFn(c) => DoDestroy(t, c)
               case SendFn(c) => DoSend(e, t, c, watch)
               case _ => t
  {
  }

  lemma EstablishOne(e: Edition, s: Sys)
    requires s == One(WALKING, Batch([EstablishFn(0)], []), UNBORN, FRESH_REG, {0}, {}, multiset{})
    ensures DoEstablish(s, 0) == One(WALKING, Batch([EstablishFn(0)], []), OPEN, OPEN_REG, {0}, {}, multiset{})
  {
    assert UNBORN.history + [Established] == OPEN.history;
    var t := SetState(s, 0, C.Connected);
    assert Known(t, 0) && ChanOf(t, 0) == Chan(7, NONE_EVENT, New);
    assert NONE_EVENT + READ_EVENT == READ_EVENT;
    assert AddInterest(t, 0, READ_EVENT) == PutReg(t, 1, OPEN_REG);
  }

  lemma Opened(e: Edition)
    ensures Reachable(e, One(WALKING, WAITING, OPEN, OPEN_REG, {0}, {}, multiset{}))
  {
    Accepted(e);
    var s := One(WALKING, Posted(WAITING, EstablishFn(0)), UNBORN, FRESH_REG, {0}, {}, multiset{});
    StepOn(e, s, Poll(1, []));
    var s1 := Next(e, s, Poll(1, []));
    StepOn(e, s1, EndDispatch(1));
    var s2 := Next(e, s1, EndDispatch(1));
    assert s1.loops[1].pending == [EstablishFn(0)];
    assert s2 == One(WALKING, Batch([], [EstablishFn(0)]), UNBORN, FRESH_REG, {0}, {}, multiset{});
    OpenedFrom(e, s2);
  }

  lemma OpenedFrom(e: Edition, s: Sys)
    requires s == One(WALKING, Batch([], [EstablishFn(0)]), UNBORN, FRESH_REG, {0}, {}, multiset{}) && Reachable(e, s)
    ensures Reachable(e, One(WALKING, WAITING, OPEN, OPEN_REG, {0}, {}, multiset{}))
  {
    var popped := PutLoop(s, 1, Popped(s.loops[1]));
    PoppedOne(EstablishFn(0));
    assert popped == One(WALKING, Batch([EstablishFn(0)], []), UNBORN, FRESH_REG, {0}, {}, multiset{});
    EstablishOne(e, popped);
    HeadRuns(e, s, 1, EstablishFn(0), false);
    StepOn(e, s, RunFn(1, false));
    var s1 := Next(e, s, RunFn(1, false));
    assert s1 == DoEstablish(popped, 0);
    StepOn(e, s1, EndBatch(1));
    assert Next(e, s1, EndBatch(1)) == One(WALKING, WAITING, OPEN, OPEN_REG, {0}, {}, multiset{});
  }

  /** Another thread holds the connection and is in these calls on it. */
  predicate Calls(e: Edition, calls: multiset<Call>) {
    || calls == multiset{Sending(0)}
    || (e == C.AsMeant && calls in {multiset{Stopping(0)}, multiset{Sending(0), Stopping(0)}})
  }

  lemma Called(e: Edition, calls: multiset<Call>)
    requires Calls(e, calls)
    ensures Reachable(e, One(WALKING, WAITING, OPEN, OPEN_REG, {0}, {0}, calls))
  {
    Opened(e);
    var s := One(WALKING, WAITING, OPEN, OPEN_REG, {0}, {}, multiset{});
    StepOn(e, s, Acquire(0));
    assert Next(e, s, Acquire(0)) == One(WALKING, WAITING, OPEN, OPEN_REG, {0}, {0}, multiset{});
    if calls == multiset{Stopping(0)} {
      Begun(e, multiset{}, Stopping(0));
      assert multiset{} + multiset{Stopping(0)} == calls;
    } else {
      Begun(e, multiset{}, Sending(0));
      assert multiset{} + multiset{Sending(0)} == multiset{Sending(0)};
      if calls != multiset{Sending(0)} {
        Begun(e, multiset{Sending(0)}, Stopping(0));
        assert multiset{Sending(0)} + multiset{Stopping(0)} == calls;
      }
    }
  }

  lemma Begun(e: Edition, calls: multiset<Call>, call: Call)
    requires Reachable(e, One(WALKING, WAITING, OPEN, OPEN_REG, {0}, {0}, calls))
    requires call == Sending(0) || (call == Stopping(0) && e == C.AsMeant)
    ensures Reachable(e, One(WALKING, WAITING, OPEN, OPEN_REG, {0}, {0}, calls + multiset{call}))
  {
    var s := One(WALKING, WAITING, OPEN, OPEN_REG, {0}, {0}, calls);
    var step := if call.Sending? then BeginSend(0) else BeginShutdown(0);
    StepOn(e, s, step);
    assert Next(e, s, step) == One(WALKING, WAITING, OPEN, OPEN_REG, {0}, {0}, calls + multiset{call});
  }

  const CLOSED: Rec := Rec(1, 7, C.Disconnected, [Established, Closed])
  const UNLISTED: Rec := CLOSED.(history := [Established, Closed, Unlisted])
  const DEAD: Rec := CLOSED.(history := MILESTONES)
  const DONE: Loop := Loop(AtPoll, [0], 1, [], [], [], Idle)

  lemma CloseOne(e: Edition, s: Sys, calls: multiset<Call>)
    requires s == One(WALKING, Polled(WAITING, [0]), OPEN, OPEN_REG, {0}, {0}, calls)
    ensures DoClose(PutLoop(s, 1, Advanced(s.loops[1])), 0)
            == One(WALKING, Advanced(Polled(WAITING, [0])), CLOSED, CLOSED_REG, {0}, {0}, calls)
  {
    var p := PutLoop(s, 1, Advanced(s.loops[1]));
    var t := SetState(p, 0, C.Disconnected);
    assert OPEN.history + [Closed] == CLOSED.history;
    assert Known(t, 0);
    assert SetMask(t, 0, NONE_EVENT) == PutReg(t, 1, CLOSED_REG);
  }

  lemma ClosedReached(e: Edition, calls: multiset<Call>)
    requires Calls(e, calls)
    ensures Reachable(e, One(Posted(WALKING, UnlistFn(0)), DONE, CLOSED, CLOSED_REG, {0}, {0}, calls))
  {
    Called(e, calls);
    var s := One(WALKING, WAITING, OPEN, OPEN_REG, {0}, {0}, calls);
    assert OPEN_REG.kernel[7].ptr == 0;
    StepOn(e, s, Poll(1, [0]));
    var s1 := Next(e, s, Poll(1, [0]));
    assert s1 == One(WALKING, Polled(WAITING, [0]), OPEN, OPEN_REG, {0}, {0}, calls);
    CloseRuns(e, s1, calls);
  }

  lemma CloseRuns(e: Edition, s: Sys, calls: multiset<Call>)
    requires s == One(WALKING, Polled(WAITING, [0]), OPEN, OPEN_REG, {0}, {0}, calls) && Reachable(e, s)
    ensures Reachable(e, One(Posted(WALKING, UnlistFn(0)), DONE, CLOSED, CLOSED_REG, {0}, {0}, calls))
  {
    CloseOne(e, s, calls);
    StepOn(e, s, Close(1));
    ClosedFrom(e, Next(e, s, Close(1)), calls);
  }

  lemma ClosedFrom(e: Edition, s: Sys, calls: multiset<Call>)
    requires s == One(WALKING, Framed(Advanced(Polled(WAITING, [0])), Closing(0)), CLOSED, CLOSED_REG, {0}, {0}, calls)
    requires Reachable(e, s)
    ensures Reachable(e, One(Posted(WALKING, UnlistFn(0)), DONE, CLOSED, CLOSED_REG, {0}, {0}, calls))
  {
    StepOn(e, s, CloseCallback(1));
    var s1 := Next(e, s, CloseCallback(1));
    assert s1 == One(Posted(WALKING, UnlistFn(0)), Advanced(Polled(WAITING, [0])), CLOSED, CLOSED_REG, {0}, {0}, calls);
    EmptyBatch(e, s1, calls);
  }

  lemma EmptyBatch(e: Edition, s: Sys, calls: multiset<Call>)
    requires s == One(Posted(WALKING, UnlistFn(0)), Advanced(Polled(WAITING, [0])), CLOSED, CLOSED_REG, {0}, {0}, calls)
    requires Reachable(e, s)
    ensures Reachable(e, One(Posted(WALKING, UnlistFn(0)), DONE, CLOSED, CLOSED_REG, {0}, {0}, calls))
  {
    StepOn(e, s, EndDispatch(1));
    var s1 := Next(e, s, EndDispatch(1));
    StepOn(e, s1, EndBatch(1));
    assert Next(e, s1, EndBatch(1)) == One(Posted(WALKING, UnlistFn(0)), DONE, CLOSED, CLOSED_REG, {0}, {0}, calls);
  }

  lemma UnlistedReached(e: Edition, calls: multiset<Call>)
    requires Calls(e, calls)
    ensures Reachable(e, One(WAITING, Posted(DONE, DestroyFn(0)), UNLISTED, CLOSED_REG, {}, {0}, calls))
  {
    ClosedReached(e, calls);
    var s := One(Posted(WALKING, UnlistFn(0)), DONE, CLOSED, CLOSED_REG, {0}, {0}, calls);
    StepOn(e, s, EndDispatch(0));
    assert s.loops[0].pending == [UnlistFn(0)];
    assert Next(e, s, EndDispatch(0)) == One(Batch([], [UnlistFn(0)]), DONE, CLOSED, CLOSED_REG, {0}, {0}, calls);
    UnlistingRuns(e, Next(e, s, EndDispatch(0)), calls);
  }

  lemma UnlistingRuns(e: Edition, s: Sys, calls: multiset<Call>)
    requires s == One(Batch([], [UnlistFn(0)]), DONE, CLOSED, CLOSED_REG, {0}, {0}, calls) && Reachable(e, s)
    ensures Reachable(e, One(WAITING, Posted(DONE, DestroyFn(0)), UNLISTED, CLOSED_REG, {}, {0}, calls))
  {
    var popped := PutLoop(s, 0, Popped(s.loops[0]));
    HeadRuns(e, s, 0, UnlistFn(0), false);
    PoppedOne(UnlistFn(0));
    assert popped == One(Batch([UnlistFn(0)], []), DONE, CLOSED, CLOSED_REG, {0}, {0}, calls);
    UnlistOne(e, popped, calls);
    UnlistingStep(e, s, DoUnlist(popped, 0));
    UnlistedFrom(e, DoUnlist(popped, 0), calls);
  }

  lemma UnlistingStep(e: Edition, s: Sys, t: Sys)
    requires Reachable(e, s) && Enabled(e, s, RunFn(0, false)) && Next(e, s, RunFn(0, false)) == t && s.freed == {}
    ensures Reachable(e, t)
  {
    StepOn(e, s, RunFn(0, false));
  }

  lemma UnlistOne(e: Edition, s: Sys, calls: multiset<Call>)
    requires s == One(Batch([UnlistFn(0)], []), DONE, CLOSED, CLOSED_REG, {0}, {0}, calls)
    ensures DoUnlist(s, 0)
            == One(Framed(Batch([UnlistFn(0)], []), Erased(0)), DONE, UNLISTED, CLOSED_REG, {}, {0}, calls)
  {
    assert CLOSED.history + [Unlisted] == UNLISTED.history;
  }

  lemma UnlistedFrom(e: Edition, s: Sys, calls: multiset<Call>)
    requires s == One(Framed(Batch([UnlistFn(0)], []), Erased(0)), DONE, UNLISTED, CLOSED_REG, {}, {0}, calls)
    requires Reachable(e, s)
    ensures Reachable(e, One(WAITING, Posted(DONE, DestroyFn(0)), UNLISTED, CLOSED_REG, {}, {0}, calls))
  {
    StepOn(e, s, QueueDestroy);
    var s1 := Next(e, s, QueueDestroy);
    assert s1 == One(Batch([UnlistFn(0)], []), Posted(DONE, DestroyFn(0)), UNLISTED, CLOSED_REG, {}, {0}, calls);
    StepOn(e, s1, EndBatch(0));
    assert Next(e, s1, EndBatch(0)) == One(WAITING, Posted(DONE, DestroyFn(0)), UNLISTED, CLOSED_REG, {}, {0}, calls);
  }

  lemma DestroyOne(e: Edition, s: Sys, calls: multiset<Call>)
    requires s == One(WAITING, Batch([DestroyFn(0)], []), UNLISTED, CLOSED_REG, {}, {0}, calls)
    ensures DoDestroy(s, 0) == One(WAITING, Batch([DestroyFn(0)], []), DEAD, GONE_REG, {}, {0}, calls)
  {
    assert UNLISTED.history + [Destroyed] == DEAD.history;
    assert Known(s, 0) && Quieted(s, 0) == s;
    assert Unregister(s, 0) == PutReg(s, 1, GONE_REG);
  }

  /** Closed, removed and destroyed, while another thread holds it and is in its calls. */
  lemma DeadReached(e: Edition, calls: multiset<Call>)
    requires Calls(e, calls)
    ensures Reachable(e, One(WAITING, WAITING, DEAD, GONE_REG, {}, {0}, calls))
  {
    UnlistedReached(e, calls);
    var s := One(WAITING, Posted(DONE, DestroyFn(0)), UNLISTED, CLOSED_REG, {}, {0}, calls);
    StepOn(e, s, Poll(1, []));
    var s1 := Next(e, s, Poll(1, []));
    DestroyTaken(e, s1, calls);
  }

  lemma DestroyTaken(e: Edition, s: Sys, calls: multiset<Call>)
    requires s == One(WAITING, Polled(Posted(DONE, DestroyFn(0)), []), UNLISTED, CLOSED_REG, {}, {0}, calls)
    requires Reachable(e, s)
    ensures Reachable(e, One(WAITING, WAITING, DEAD, GONE_REG, {}, {0}, calls))
  {
    StepOn(e, s, EndDispatch(1));
    assert s.loops[1].pending == [DestroyFn(0)];
    assert Next(e, s, EndDispatch(1)) == One(WAITING, Batch([], [DestroyFn(0)]), UNLISTED, CLOSED_REG, {}, {0}, calls);
    DeadFrom(e, Next(e, s, EndDispatch(1)), calls);
  }

  lemma DeadFrom(e: Edition, s: Sys, calls: multiset<Call>)
    requires s == One(WAITING, Batch([], [DestroyFn(0)]), UNLISTED, CLOSED_REG, {}, {0}, calls) && Reachable(e, s)
    ensures Reachable(e, One(WAITING, WAITING, DEAD, GONE_REG, {}, {0}, calls))
  {
    var popped := PutLoop(s, 1, Popped(s.loops[1]));
    PoppedOne(DestroyFn(0));
    assert popped == One(WAITING, Batch([DestroyFn(0)], []), UNLISTED, CLOSED_REG, {}, {0}, calls);
    DestroyOne(e, popped, calls);
    HeadRuns(e, s, 1, DestroyFn(0), false);
    StepOn(e, s, RunFn(1, false));
    var s1 := Next(e, s, RunFn(1, false));
    assert s1 == DoDestroy(popped, 0);
    BatchEnds(e, s1, calls);
  }

  lemma BatchEnds(e: Edition, s: Sys, calls: multiset<Call>)
    requires s == One(WAITING, Batch([DestroyFn(0)], []), DEAD, GONE_REG, {}, {0}, calls) && Reachable(e, s)
    ensures Reachable(e, One(WAITING, WAITING, DEAD, GONE_REG, {}, {0}, calls))
  {
    StepOn(e, s, EndBatch(1));
    assert Next(e, s, EndBatch(1)) == One(WAITING, WAITING, DEAD, GONE_REG, {}, {0}, calls);
  }

  // ---------------------------------------------------------------- a send after the destruction

  /** As meant, a shutdown stores over the state of the close first. */
  function LateState(e: Edition): C.StateE {
    if e == C.AsMeant then C.Disconnecting else C.Disconnected
  }

  /** The call of a shutdown, made before the close, that has still to queue its functor. */
  function Rest(e: Edition): multiset<Call> {
    if e == C.AsMeant then multiset{Stopped(0)} else multiset{}
  }

  function LateRec(e: Edition): Rec {
    DEAD.(state := LateState(e))
  }

  lemma StoredLate(e: Edition)
    ensures Reachable(e, One(WAITING, WAITING, LateRec(e), GONE_REG, {}, {0}, multiset{Sending(0)} + Rest(e)))
  {
    if e == C.AsMeant {
      MeantStoredLate(e);
    } else {
      DeadReached(e, multiset{Sending(0)});
      assert multiset{Sending(0)} + Rest(e) == multiset{Sending(0)};
    }
  }

  lemma MeantStoredLate(e: Edition)
    requires e == C.AsMeant
    ensures Reachable(e, One(WAITING, WAITING, LateRec(e), GONE_REG, {}, {0}, multiset{Sending(0)} + Rest(e)))
  {
    var calls := multiset{Sending(0), Stopping(0)};
    DeadReached(e, calls);
    var s := One(WAITING, WAITING, DEAD, GONE_REG, {}, {0}, calls);
    StoreEvaluates(e, s);
    StepOn(e, s, StoreShutdown(0));
  }

  lemma StoreEvaluates(e: Edition, s: Sys)
    requires e == C.AsMeant
    requires s == One(WAITING, WAITING, DEAD, GONE_REG, {}, {0}, multiset{Sending(0), Stopping(0)})
    ensures Enabled(e, s, StoreShutdown(0))
    ensures Next(e, s, StoreShutdown(0))
            == One(WAITING, WAITING, LateRec(e), GONE_REG, {}, {0}, multiset{Sending(0)} + Rest(e))
  {
    assert s.calls - multiset{Stopping(0)} + multiset{Stopped(0)} == multiset{Sending(0)} + Rest(e);
  }

  lemma LateQueued(e: Edition)
    ensures Reachable(e, One(WAITING, Posted(WAITING, SendFn(0)), LateRec(e), GONE_REG, {}, {0}, Rest(e)))
  {
    StoredLate(e);
    var s := One(WAITING, WAITING, LateRec(e), GONE_REG, {}, {0}, multiset{Sending(0)} + Rest(e));
    SendPushed(e, s);
    StepOn(e, s, PushSend(0));
  }

  lemma SendPushed(e: Edition, s: Sys)
    requires s == One(WAITING, WAITING, LateRec(e), GONE_REG, {}, {0}, multiset{Sending(0)} + Rest(e))
    ensures Enabled(e, s, PushSend(0))
    ensures Next(e, s, PushSend(0)) == One(WAITING, Posted(WAITING, SendFn(0)), LateRec(e), GONE_REG, {}, {0}, Rest(e))
  {
    assert multiset{Sending(0)} + Rest(e) - multiset{Sending(0)} == Rest(e);
  }

  lemma LateTaken(e: Edition)
    ensures Reachable(e, One(WAITING, Batch([], [SendFn(0)]), LateRec(e), GONE_REG, {}, {0}, Rest(e)))
  {
    LateQueued(e);
    var s := One(WAITING, Posted(WAITING, SendFn(0)), LateRec(e), GONE_REG, {}, {0}, Rest(e));
    StepOn(e, s, Poll(1, []));
    LateSwapped(e, Next(e, s, Poll(1, [])));
  }

  lemma LateSwapped(e: Edition, s: Sys)
    requires s == One(WAITING, Polled(Posted(WAITING, SendFn(0)), []), LateRec(e), GONE_REG, {}, {0}, Rest(e))
    requires Reachable(e, s)
    ensures Reachable(e, One(WAITING, Batch([], [SendFn(0)]), LateRec(e), GONE_REG, {}, {0}, Rest(e)))
  {
    StepOn(e, s, EndDispatch(1));
    assert s.loops[1].pending == [SendFn(0)];
    assert Next(e, s, EndDispatch(1)) == One(WAITING, Batch([], [SendFn(0)]), LateRec(e), GONE_REG, {}, {0}, Rest(e));
  }

  lemma SendOne(e: Edition, s: Sys)
    requires s == One(WAITING, Batch([SendFn(0)], []), LateRec(e), GONE_REG, {}, {0}, Rest(e))
    ensures DoSend(e, s, 0, true) == One(WAITING, Batch([SendFn(0)], []), LateRec(e), BACK_REG, {}, {0}, Rest(e))
  {
    assert Known(s, 0) && ChanOf(s, 0).events + WRITE_EVENT == WRITE_EVENT;
    assert (if e == C.AsWritten then SetState(s, 0, C.Disconnected) else s) == s;
    assert AddInterest(s, 0, WRITE_EVENT) == PutReg(s, 1, BACK_REG);
  }

  /** The channel is back in the poller, and nothing will take it out again. */
  lemma BackReached(e: Edition)
    ensures Reachable(e, One(WAITING, WAITING, LateRec(e), BACK_REG, {}, {0}, Rest(e)))
  {
    LateTaken(e);
    var s := One(WAITING, Batch([], [SendFn(0)]), LateRec(e), GONE_REG, {}, {0}, Rest(e));
    var popped := PutLoop(s, 1, Popped(s.loops[1]));
    PoppedOne(SendFn(0));
    assert popped == One(WAITING, Batch([SendFn(0)], []), LateRec(e), GONE_REG, {}, {0}, Rest(e));
    HeadRuns(e, s, 1, SendFn(0), true);
    SendOne(e, popped);
    StepOn(e, s, RunFn(1, true));
    BackFrom(e, Next(e, s, RunFn(1, true)));
  }

  lemma BackFrom(e: Edition, s: Sys)
    requires s == One(WAITING, Batch([SendFn(0)], []), LateRec(e), BACK_REG, {}, {0}, Rest(e)) && Reachable(e, s)
    ensures Reachable(e, One(WAITING, WAITING, LateRec(e), BACK_REG, {}, {0}, Rest(e)))
  {
    StepOn(e, s, EndBatch(1));
    assert Next(e, s, EndBatch(1)) == One(WAITING, WAITING, LateRec(e), BACK_REG, {}, {0}, Rest(e));
  }

  lemma BackIsAdded()
    ensures BACK_REG.chans == map[0 := Chan(7, WRITE_EVENT, Added)]
    ensures 7 in BACK_REG.kernel && BACK_REG.kernel[7].ptr == 0
  {
  }

  lemma WalkedReached(e: Edition)
    ensures Reachable(e, One(WAITING, Polled(WAITING, [0]), LateRec(e), BACK_REG, {}, {0}, Rest(e)))
  {
    BackReached(e);
    BackIsAdded();
    var s := One(WAITING, WAITING, LateRec(e), BACK_REG, {}, {0}, Rest(e));
    assert Reported(BACK_REG, 0);
    StepOn(e, s, Poll(1, [0]));
    assert Next(e, s, Poll(1, [0])) == One(WAITING, Polled(WAITING, [0]), LateRec(e), BACK_REG, {}, {0}, Rest(e));
  }

  /** The io loop about to handle the channel; as meant, the shutdown that waited has
      queued its functor, which owns nothing. */
  function WalkingLoop(e: Edition): Loop {
    var io := Polled(WAITING, [0]);
    if e == C.AsMeant then Posted(io, ShutdownFn(0)) else io
  }

  lemma RestPushed(e: Edition)
    ensures Reachable(e, One(WAITING, WalkingLoop(e), LateRec(e), BACK_REG, {}, {0}, multiset{}))
  {
    WalkedReached(e);
    if e == C.AsMeant {
      var s := One(WAITING, Polled(WAITING, [0]), LateRec(e), BACK_REG, {}, {0}, Rest(e));
      BackIsAdded();
      StepOn(e, s, PushShutdown(0));
      assert multiset{Stopped(0)} - multiset{Stopped(0)} == multiset{};
      assert Next(e, s, PushShutdown(0)) == One(WAITING, WalkingLoop(e), LateRec(e), BACK_REG, {}, {0}, multiset{});
    }
  }

  lemma DroppedReached(e: Edition)
    ensures Reachable(e, One(WAITING, WalkingLoop(e), LateRec(e), BACK_REG, {}, {}, multiset{}))
  {
    RestPushed(e);
    var s := One(WAITING, WalkingLoop(e), LateRec(e), BACK_REG, {}, {0}, multiset{});
    StepOn(e, s, Drop(0));
    assert Next(e, s, Drop(0)) == One(WAITING, WalkingLoop(e), LateRec(e), BACK_REG, {}, {}, multiset{});
  }

  // ---------------------------------------------------------------- what is reached

  /** A closed channel can come back into the kernel's set. */
  lemma ClosedCanBeReported(e: Edition) returns (s: Sys)
    ensures Reachable(e, s) && !NoClosedReported(s)
  {
    BackReached(e);
    BackIsAdded();
    s := One(WAITING, WAITING, LateRec(e), BACK_REG, {}, {0}, Rest(e));
    assert Reported(s.regs[1], 0) && IsClosed(s, 0);
  }

  /** After a reviving send a connection can be closed a second time. */
  lemma CanCloseTwice(e: Edition) returns (s: Sys)
    ensures Reachable(e, s) && 0 in s.recs && s.recs[0].history == MILESTONES + [Closed] && Disordered(s, 0)
  {
    WalkedReached(e);
    BackIsAdded();
    var t := One(WAITING, Polled(WAITING, [0]), LateRec(e), BACK_REG, {}, {0}, Rest(e));
    StepOn(e, t, Close(1));
    s := Next(e, t, Close(1));
    CloseEffect(PutLoop(t, 1, Advanced(t.loops[1])), 0);
    ClosedAgainIsDisorder(MILESTONES);
  }

  lemma NobodyOwns(e: Edition, s: Sys)
    requires s.loops == [WAITING, WalkingLoop(e)] && s.listed == {} && s.users == {} && s.calls == multiset{}
    ensures !Owned(e, s, 0)
  {
    assert !HeldBy(e, s.loops[0], 0) && !HeldBy(e, s.loops[1], 0);
  }

  /** After an orphaning send a registered channel can lose its last owner. */
  lemma CanLoseChannel(e: Edition) returns (s: Sys)
    ensures Reachable(e, s) && Lost(e, s, 0)
  {
    DroppedReached(e);
    BackIsAdded();
    s := One(WAITING, WalkingLoop(e), LateRec(e), BACK_REG, {}, {}, multiset{});
    NobodyOwns(e, s);
  }

  /** Then it is freed under the loop that is about to handle it, and the poller keeps
      a pointer to it. */
  lemma CanFreeWalked(e: Edition) returns (s: Sys)
    ensures Reachable(e, s) && 0 in s.freed && Walking(s, 1) && Current(s, 1) == 0 && WalksFreed(s, 1)
    ensures |s.regs| == 2 && !Forgotten(s.regs[1], 0)
  {
    DroppedReached(e);
    BackIsAdded();
    var t := One(WAITING, WalkingLoop(e), LateRec(e), BACK_REG, {}, {}, multiset{});
    NobodyOwns(e, t);
    StepOn(e, t, Free(0));
    s := Next(e, t, Free(0));
    assert 7 in BACK_REG.channels && BACK_REG.channels[7] == 0;
  }

  // ---------------------------------------------------------------- a functor after the destruction

  /** The functor with a plain pointer: as meant only a shutdown's, as written a send's
      will do. */
  function Plain(e: Edition): Fn {
    if e == C.AsMeant then ShutdownFn(0) else SendFn(0)
  }

  lemma PlainQueued(e: Edition)
    ensures Reachable(e, One(WAITING, Posted(WAITING, Plain(e)), LateRec(e), GONE_REG, {}, {0}, multiset{}))
  {
    if e == C.AsMeant {
      ShutdownQueued(e);
    } else {
      LateQueued(e);
    }
  }

  lemma ShutdownQueued(e: Edition)
    requires e == C.AsMeant
    ensures Reachable(e, One(WAITING, Posted(WAITING, ShutdownFn(0)), LateRec(e), GONE_REG, {}, {0}, multiset{}))
  {
    DeadReached(e, multiset{Stopping(0)});
    var s := One(WAITING, WAITING, DEAD, GONE_REG, {}, {0}, multiset{Stopping(0)});
    StepOn(e, s, StoreShutdown(0));
    assert multiset{Stopping(0)} - multiset{Stopping(0)} + multiset{Stopped(0)} == multiset{Stopped(0)};
    assert Next(e, s, StoreShutdown(0)) == One(WAITING, WAITING, LateRec(e), GONE_REG, {}, {0}, multiset{Stopped(0)});
    ShutdownPushed(e);
  }

  lemma ShutdownPushed(e: Edition)
    requires e == C.AsMeant && Reachable(e, One(WAITING, WAITING, LateRec(e), GONE_REG, {}, {0}, multiset{Stopped(0)}))
    ensures Reachable(e, One(WAITING, Posted(WAITING, ShutdownFn(0)), LateRec(e), GONE_REG, {}, {0}, multiset{}))
  {
    var s := One(WAITING, WAITING, LateRec(e), GONE_REG, {}, {0}, multiset{Stopped(0)});
    StepOn(e, s, PushShutdown(0));
    assert multiset{Stopped(0)} - multiset{Stopped(0)} == multiset{};
    assert Next(e, s, PushShutdown(0))
        == One(WAITING, Posted(WAITING, ShutdownFn(0)), LateRec(e), GONE_REG, {}, {0}, multiset{});
  }

  lemma PlainDropped(e: Edition)
    ensures Reachable(e, One(WAITING, Posted(WAITING, Plain(e)), LateRec(e), GONE_REG, {}, {}, multiset{}))
  {
    PlainQueued(e);
    var s := One(WAITING, Posted(WAITING, Plain(e)), LateRec(e), GONE_REG, {}, {0}, multiset{});
    StepOn(e, s, Drop(0));
    assert Next(e, s, Drop(0)) == One(WAITING, Posted(WAITING, Plain(e)), LateRec(e), GONE_REG, {}, {}, multiset{});
  }

  /** In both editions a functor can be left in the queue whose connection is freed, and
      it is the next to run. */
  lemma CanDangle(e: Edition) returns (s: Sys)
    ensures Reachable(e, s) && At(s, 1, 0) && FnAt(s, 1, 0) == Plain(e) && 0 in s.freed
  {
    PlainDropped(e);
    var t := One(WAITING, Posted(WAITING, Plain(e)), LateRec(e), GONE_REG, {}, {}, multiset{});
    PlainOwnsNothing(e, t);
    StepOn(e, t, Free(0));
    s := Next(e, t, Free(0));
    assert s.loops == t.loops && Unrun(s.loops[1]) == [Plain(e)];
  }

  lemma PlainOwnsNothing(e: Edition, s: Sys)
    requires s.loops == [WAITING, Posted(WAITING, Plain(e))] && s.listed == {} && s.users == {} && s.calls == multiset{}
    ensures !Owned(e, s, 0)
  {
    assert !HeldBy(e, s.loops[0], 0) && !HeldBy(e, s.loops[1], 0);
  }
}
