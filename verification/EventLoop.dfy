/** The event loop as an object. A ghost field holds the protocol state its fields
    stand for, and every method moves it by protocol steps, so what LoopProtocol
    proves of every interleaving holds of these bodies. */
module EventLoopModel {
  import opened LoopProtocol

  function Functors<F>(items: seq<Item<F>>): seq<F> {
    seq(|items|, i requires 0 <= i < |items| => items[i].f)
  }

  lemma FunctorsAppend<F>(items: seq<Item<F>>, item: Item<F>)
    ensures Functors(items + [item]) == Functors(items) + [item.f]
  {
  }

  /** What a thread queues while something else runs. */
  datatype Arrival<F> = Arrival(f: F, caller: Tid)

  function Payload<F>(arrivals: seq<Arrival<F>>): seq<F> {
    seq(|arrivals|, i requires 0 <= i < |arrivals| => arrivals[i].f)
  }

  /** What arrives while the first n functors of a batch run. */
  function During<F>(arrivals: nat -> seq<Arrival<F>>, n: nat): seq<F> {
    if n == 0 then [] else During(arrivals, n - 1) + Payload(arrivals(n - 1))
  }

  /** One turn of the loop: what is queued before the batch is taken, the threads that
      quit the loop meanwhile, and what is queued while each functor runs. */
  datatype Round<F> = Round(early: seq<Arrival<F>>, quitters: seq<Tid>, arrivals: nat -> seq<Arrival<F>>)

  class EventLoop<F> {
    const threadId: Tid
    var looping: bool
    var quit: bool
    var calling: bool
    var pending: seq<F>
    /** The eventfd's counter. */
    var evt: nat
    ghost var proto: State<F>

    ghost predicate Valid()
      reads this
    {
      && Inv(proto) && proto.producers == map[] && !proto.owesWake
      && (proto.pc == Unstarted ==> proto.swaps == 0)
      && (proto.swaps > 0 ==> Waking(proto))
      && quit == proto.quit && calling == proto.calling && evt == proto.evt
      && pending == Functors(proto.pending)
    }

    constructor (threadId: Tid)
      ensures Valid() && proto == Init<F>() && this.threadId == threadId
    {
      this.threadId := threadId;
      looping, quit, calling, pending, evt := false, false, false, [], 0;
      proto := Init();
    }

    predicate IsInLoopThread(tid: Tid) {
      tid == threadId
    }

    /** The loop's own thread calls in only where user code runs. */
    ghost predicate MayCall(tid: Tid)
      reads this
    {
      tid == threadId ==> UserCodeRuns(proto)
    }

    ghost method Take(step: Step<F>)
      requires Inv(proto) && Enabled(proto, step)
      requires proto.swaps > 0 ==> Waking(proto) && step != Start
      modifies this`proto
      ensures proto == Apply(old(proto), step)
      ensures Inv(proto) && (proto.swaps > 0 ==> Waking(proto))
    {
      StepKeepsInv(proto, step);
      if proto.swaps > 0 {
        StepKeepsWaking(proto, step);
      }
      proto := Apply(proto, step);
    }

    /** Writes one to the eventfd; a saturated counter refuses and stays positive. */
    method Wakeup()
      modifies this`evt
      ensures evt == Bump(old(evt))
    {
      if evt < EVENTFD_MAX {
        evt := evt + 1;
      }
    }

    /** Reads the eventfd, which empties it. */
    method HandleRead()
      requires Valid() && proto.pc == Dispatch && proto.woke
      modifies this`evt, this`proto
      ensures Valid() && evt == 0 && proto == Apply(old(proto), ReadEvent)
    {
      evt := 0;
      Take(ReadEvent);
    }

    method Quit(tid: Tid)
      requires Valid() && MayCall(tid)
      modifies this`quit, this`evt, this`proto
      ensures Valid() && quit
      ensures proto == if tid == threadId then Apply(old(proto), OwnQuit)
                       else Apply(Apply(old(proto), StoreQuit(tid)), Wake(tid))
    {
      quit := true;
      if !IsInLoopThread(tid) {
        Take(StoreQuit(tid));
        Wakeup();
        Take(Wake(tid));
      } else {
        Take(OwnQuit);
      }
    }

    /** Queued means announced, except by the loop's own thread outside a batch, which
        takes the queue before it polls again. */
    method QueueInLoop(cb: F, tid: Tid)
      requires Valid() && MayCall(tid)
      modifies this`pending, this`evt, this`proto
      ensures Valid() && pending == old(pending) + [cb]
      ensures evt == if tid != threadId || calling then Bump(old(evt)) else old(evt)
      ensures proto == Queue(old(proto), cb).(evt := evt)
    {
      FunctorsAppend(proto.pending, Item(cb, proto.swaps));
      pending := pending + [cb];
      if !IsInLoopThread(tid) {
        Take(Push(tid, cb));
        Wakeup();
        Take(Wake(tid));
        assert proto.producers == map[];
      } else {
        Take(OwnPush(cb));
        if calling {
          Wakeup();
          Take(OwnWake);
        }
      }
    }

    /** Returns whether the caller has to run the functor itself, at once. */
    method RunInLoop(cb: F, tid: Tid) returns (runNow: bool)
      requires Valid() && MayCall(tid)
      modifies this`pending, this`evt, this`proto
      ensures Valid() && runNow == (tid == threadId)
      ensures runNow ==> pending == old(pending) && evt == old(evt) && proto == old(proto)
      ensures !runNow ==> pending == old(pending) + [cb] && evt > 0 && proto == Queue(old(proto), cb).(evt := evt)
    {
      runNow := IsInLoopThread(tid);
      if !runNow {
        QueueInLoop(cb, tid);
      }
    }

    method QueueAll(arrivals: seq<Arrival<F>>)
      requires Valid() && UserCodeRuns(proto)
      modifies this`pending, this`evt, this`proto
      ensures Valid() && pending == old(pending) + Payload(arrivals)
      ensures proto == old(proto).(pending := proto.pending, history := proto.history, evt := proto.evt)
      ensures old(proto.history) <= proto.history
      ensures arrivals == [] ==> evt == old(evt)
    {
      for i := 0 to |arrivals|
        invariant Valid() && pending == old(pending) + Payload(arrivals[..i])
        invariant proto == old(proto).(pending := proto.pending, history := proto.history, evt := proto.evt)
        invariant old(proto.history) <= proto.history
        invariant i == 0 ==> evt == old(evt)
      {
        QueueInLoop(arrivals[i].f, arrivals[i].caller);
        assert Payload(arrivals[..i + 1]) == Payload(arrivals[..i]) + [arrivals[i].f];
      }
      assert arrivals[..|arrivals|] == arrivals;
    }

    /** The functor at the head of the batch runs, and things arrive meanwhile. */
    method RunFunctor(arrivals: seq<Arrival<F>>)
      requires Valid() && proto.pc == Batch && proto.batch != []
      modifies this`pending, this`evt, this`proto
      ensures Valid() && proto.pc == Batch && proto.batch == old(proto.batch[1..])
      ensures proto.executed == old(proto.executed + [proto.batch[0]])
      ensures pending == old(pending) + Payload(arrivals)
      ensures proto.quit == old(proto.quit) && proto.polls == old(proto.polls) && proto.swaps == old(proto.swaps)
      ensures arrivals == [] ==> evt == old(evt)
    {
      QueueAll(arrivals);
      Take(RunOne);
    }

    method RunBatch(functors: seq<F>, arrivals: nat -> seq<Arrival<F>>)
      requires Valid() && proto.pc == Batch && |proto.batch| == |functors| && pending == []
      modifies this`pending, this`evt, this`proto
      ensures Valid() && proto.pc == Batch && proto.batch == []
      ensures proto.executed == old(proto.executed + proto.batch)
      ensures pending == During(arrivals, |functors|)
      ensures proto.quit == old(proto.quit) && proto.polls == old(proto.polls) && proto.swaps == old(proto.swaps)
      ensures pending == [] ==> evt == old(evt)
    {
      for i := 0 to |functors|
        invariant Valid() && proto.pc == Batch
        invariant |proto.batch| == |functors| - i
        invariant proto.executed + proto.batch == old(proto.executed + proto.batch)
        invariant pending == During(arrivals, i)
        invariant proto.quit == old(proto.quit) && proto.polls == old(proto.polls) && proto.swaps == old(proto.swaps)
        invariant pending == [] ==> evt == old(evt)
      {
        ghost var batch := proto.batch;
        RunFunctor(arrivals(i));
        assert [batch[0]] + batch[1..] == batch;
      }
    }

    /** Swaps the queue out under the lock and runs it to its end. What arrives
        meanwhile, even from the functors themselves, waits for the next batch, and
        is announced. */
    method DoPendingFunctors(arrivals: nat -> seq<Arrival<F>>)
      requires Valid() && proto.pc == Dispatch && !proto.woke
      modifies this`calling, this`pending, this`evt, this`proto
      ensures Valid() && proto.pc == Check
      ensures proto.executed == old(proto.executed + proto.pending)
      ensures pending == During(arrivals, |old(pending)|)
      ensures pending != [] ==> evt > 0
      ensures pending == [] ==> evt == old(evt)
      ensures proto.quit == old(proto.quit) && proto.polls == old(proto.polls)
    {
      calling := true;
      var functors := pending;
      pending := [];
      Take(Swap);
      RunBatch(functors, arrivals);
      calling := false;
      Take(EndBatch);
    }

    /** Entering loop() clears a quit issued before. */
    method Enter()
      requires Valid() && proto.pc == Unstarted
      modifies this`looping, this`quit, this`proto
      ensures Valid() && looping && !quit && proto == Apply(old(proto), Start)
    {
      looping := true;
      quit := false;
      Take(Start);
    }

    method LeaveOnQuit()
      requires Valid() && proto.pc == Check
      modifies this`looping, this`proto
      ensures Valid() && quit == old(quit) && looping == !quit
      ensures proto == if quit then Apply(old(proto), CheckQuit) else old(proto)
    {
      if quit {
        Take(CheckQuit);
      }
      looping := !quit;
    }

    /** Runs until a round quits the loop, or the script of what happens ends. A quit
        issued before is cleared. Everything queued before has run after the first
        round, and what is left at the end arrived during the last batch. */
    method Loop(rounds: seq<Round<F>>) returns (taken: nat, ghost ran: nat)
      requires Valid() && proto.pc == Unstarted
      modifies this
      ensures Valid() && taken <= |rounds|
      ensures quit <==> proto.pc == Exited
      ensures quit <==> 0 < taken && rounds[taken - 1].quitters != []
      ensures !quit ==> taken == |rounds|
      ensures forall i :: 0 <= i < taken - 1 ==> rounds[i].quitters == []
      ensures taken > 0 ==> pending == During(rounds[taken - 1].arrivals, ran)
      ensures taken > 0 ==> old(proto.history) <= proto.executed
      ensures proto.polls == old(proto.polls) + taken
    {
      Enter();
      taken, ran := 0, 0;
      while !quit && taken < |rounds|
        invariant Valid() && proto.pc == Check && taken <= |rounds|
        invariant taken == 0 ==> old(proto.history) == proto.history
        invariant taken > 0 ==> old(proto.history) <= proto.executed
        invariant quit <==> 0 < taken && rounds[taken - 1].quitters != []
        invariant forall i :: 0 <= i < taken - 1 ==> rounds[i].quitters == []
        invariant taken > 0 ==> pending == During(rounds[taken - 1].arrivals, ran)
        invariant proto.polls == old(proto.polls) + taken
      {
        ran := OneRound(rounds[taken]);
        taken := taken + 1;
      }
      LeaveOnQuit();
    }

    /** One poll, and the read of the eventfd when it was reported. */
    method PollAndRead()
      requires Valid() && proto.pc == Check && !quit
      modifies this`evt, this`proto
      ensures Valid() && proto.pc == Dispatch && !proto.woke && !quit && evt == 0
      ensures proto.history == old(proto.history) && proto.polls == old(proto.polls) + 1
    {
      Take(CheckQuit);
      var woke := evt > 0;
      Take(PollReturn(woke));
      if woke {
        HandleRead();
      }
    }

    method QuitAll(quitters: seq<Tid>)
      requires Valid() && proto.pc == Dispatch && !proto.woke && !quit
      modifies this`quit, this`evt, this`proto
      ensures Valid() && proto.pc == Dispatch && !proto.woke
      ensures quit <==> quitters != []
      ensures quitters == [] ==> evt == old(evt)
      ensures proto.history == old(proto.history) && proto.polls == old(proto.polls)
    {
      for i := 0 to |quitters|
        invariant Valid() && proto.pc == Dispatch && !proto.woke
        invariant quit <==> i > 0
        invariant i == 0 ==> evt == old(evt)
        invariant proto.history == old(proto.history) && proto.polls == old(proto.polls)
      {
        Quit(quitters[i]);
      }
    }

    /** The body of the loop: poll, dispatch, run the batch. The counter is positive
        afterwards only when something was queued or the loop was quit meanwhile. */
    method OneRound(round: Round<F>) returns (ghost ran: nat)
      requires Valid() && proto.pc == Check && !quit
      modifies this`quit, this`calling, this`pending, this`evt, this`proto
      ensures Valid() && proto.pc == Check
      ensures quit <==> round.quitters != []
      ensures pending == During(round.arrivals, ran)
      ensures round.early == [] && round.quitters == [] && pending == [] ==> evt == 0
      ensures old(proto.executed) <= old(proto.history) <= proto.executed
      ensures proto.polls == old(proto.polls) + 1
    {
      PollAndRead();
      QueueAll(round.early);
      QuitAll(round.quitters);
      ran := |pending|;
      assert proto.batch == [] && proto.history == proto.executed + proto.pending;
      DoPendingFunctors(round.arrivals);
    }
  }
}
