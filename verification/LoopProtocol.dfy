/** The cross-thread event loop as interleaved steps: one loop thread, any number of
    producer threads that stand for a while between their push and their wakeup. */
module LoopProtocol {

  type Tid = nat

  /** The largest value an eventfd counter holds; a write past it is refused. */
  const EVENTFD_MAX: nat := 0xffff_ffff_ffff_fffe

  function Bump(evt: nat): (r: nat)
    ensures r > 0 && evt <= r <= evt + 1 && (evt <= EVENTFD_MAX ==> r <= EVENTFD_MAX)
  {
    if evt < EVENTFD_MAX then evt + 1 else evt
  }

  /** A queued functor, with the number of swaps that had happened before. */
  datatype Item<F> = Item(f: F, round: nat)

  datatype LoopPc = Unstarted | Check | Poll | Dispatch | Batch | Exited

  /** Where a producer stands that has not written the eventfd yet. */
  datatype Producer = Pushed | QuitStored

  /** `history`, `executed`, `swaps` and `polls` record the run: every functor in
      the order of the queue's lock, those that ran, and how often the loop swapped
      the queue and entered poll. */
  datatype State<F> = State(
    pc: LoopPc,
    quit: bool,
    calling: bool,
    pending: seq<Item<F>>,
    batch: seq<Item<F>>,
    owesWake: bool,
    evt: nat,
    woke: bool,
    producers: map<Tid, Producer>,
    history: seq<Item<F>>,
    executed: seq<Item<F>>,
    swaps: nat,
    polls: nat)

  function Init<F>(): State<F> {
    State(Unstarted, false, false, [], [], false, 0, false, map[], [], [], 0, 0)
  }

  datatype Step<F> =
    | Start
    | CheckQuit
    | PollReturn(woke: bool)
    | ReadEvent
    | Swap
    | RunOne
    | EndBatch
    | OwnPush(f: F)
    | OwnWake
    | OwnQuit
    | Push(t: Tid, f: F)
    | StoreQuit(t: Tid)
    | Wake(t: Tid)

  /** User code runs on the loop thread before loop(), in callbacks and in functors. */
  predicate UserCodeRuns<F>(s: State<F>) {
    s.pc in {Unstarted, Dispatch, Batch} && !s.owesWake
  }

  predicate Enabled<F>(s: State<F>, step: Step<F>) {
    match step
    case Start => s.pc == Unstarted
    case CheckQuit => s.pc == Check
    case PollReturn(woke) => s.pc == Poll && (woke ==> s.evt > 0)
    case ReadEvent => s.pc == Dispatch && s.woke
    case Swap => s.pc == Dispatch && !s.woke
    case RunOne => s.pc == Batch && s.batch != [] && !s.owesWake
    case EndBatch => s.pc == Batch && s.batch == [] && !s.owesWake
    case OwnPush(_) => UserCodeRuns(s)
    case OwnWake => s.owesWake
    case OwnQuit => UserCodeRuns(s)
    case Push(t, _) => t !in s.producers
    case StoreQuit(t) => t !in s.producers
    case Wake(t) => t in s.producers
  }

  function Queue<F>(s: State<F>, f: F): State<F> {
    var item := Item(f, s.swaps);
    s.(pending := s.pending + [item], history := s.history + [item])
  }

  function Apply<F>(s: State<F>, step: Step<F>): State<F>
    requires Enabled(s, step)
  {
    match step
    case Start => s.(pc := Check, quit := false)
    case CheckQuit => if s.quit then s.(pc := Exited) else s.(pc := Poll, polls := s.polls + 1)
    case PollReturn(woke) => s.(pc := Dispatch, woke := woke)
    case ReadEvent => s.(evt := 0, woke := false)
    case Swap => s.(pc := Batch, calling := true, batch := s.pending, pending := [], swaps := s.swaps + 1)
    case RunOne => s.(executed := s.executed + [s.batch[0]], batch := s.batch[1..])
    case EndBatch => s.(pc := Check, calling := false)
    case OwnPush(f) => Queue(s, f).(owesWake := s.calling)
    case OwnWake => s.(owesWake := false, evt := Bump(s.evt))
    case OwnQuit => s.(quit := true)
    case Push(t, f) => Queue(s, f).(producers := s.producers[t := Pushed])
    case StoreQuit(t) => s.(quit := true, producers := s.producers[t := QuitStored])
    case Wake(t) => s.(producers := s.producers - {t}, evt := Bump(s.evt))
  }

  predicate Legal<F>(s: State<F>, steps: seq<Step<F>>)
    decreases |steps|
  {
    steps == [] || (Enabled(s, steps[0]) && Legal(Apply(s, steps[0]), steps[1..]))
  }

  function Run<F>(s: State<F>, steps: seq<Step<F>>): State<F>
    requires Legal(s, steps)
    decreases |steps|
  {
    if steps == [] then s else Run(Apply(s, steps[0]), steps[1..])
  }

  // ---------------------------------------------------------------- invariants

  ghost predicate Owed<F>(s: State<F>, what: Producer) {
    exists t :: t in s.producers && s.producers[t] == what
  }

  /** Queued work is announced: the counter is positive, or whoever pushed has yet
      to write it. */
  ghost predicate Announced<F>(s: State<F>) {
    s.pending != [] ==> s.evt > 0 || Owed(s, Pushed) || s.owesWake
  }

  ghost predicate QuitAnnounced<F>(s: State<F>) {
    s.quit ==> s.evt > 0 || Owed(s, QuitStored)
  }

  predicate RoundsFit<F>(s: State<F>) {
    && (forall i :: 0 <= i < |s.executed| ==> s.executed[i].round < s.swaps)
    && (forall i :: 0 <= i < |s.batch| ==> s.batch[i].round < s.swaps)
    && (forall i :: 0 <= i < |s.pending| ==> s.pending[i].round == s.swaps)
  }

  ghost predicate Inv<F>(s: State<F>) {
    && s.history == s.executed + s.batch + s.pending
    && RoundsFit(s)
    && (s.pc != Batch ==> s.batch == [])
    && s.calling == (s.pc == Batch)
    && (s.owesWake ==> s.pc == Batch)
    && (s.woke ==> s.pc == Dispatch)
    && s.evt <= EVENTFD_MAX
    && (s.pc == Poll ==> QuitAnnounced(s))
  }

  /** Where no swap comes before the next poll, queued work must be announced. */
  ghost predicate Waking<F>(s: State<F>) {
    s.pc in {Batch, Check, Poll} ==> Announced(s)
  }

  lemma StepKeepsInv<F>(s: State<F>, step: Step<F>)
    requires Inv(s) && Enabled(s, step)
    ensures Inv(Apply(s, step))
  {
    var s' := Apply(s, step);
    assert s'.history == s'.executed + s'.batch + s'.pending;
    match step {
      case StoreQuit(t) => assert t in s'.producers && s'.producers[t] == QuitStored;
      case Push(t, f) => OwedAfter(s, s', t, QuitStored);
      case Wake(t) =>
      case _ =>
    }
  }

  /** A producer that starts something does not end what the others owe. */
  lemma OwedAfter<F>(s: State<F>, s': State<F>, t: Tid, what: Producer)
    requires t !in s.producers && t in s'.producers && s'.producers - {t} == s.producers
    ensures Owed(s, what) ==> Owed(s', what)
  {
    if Owed(s, what) {
      var u :| u in s.producers && s.producers[u] == what;
      assert u in s'.producers - {t};
    }
  }

  lemma StepKeepsWaking<F>(s: State<F>, step: Step<F>)
    requires Inv(s) && Waking(s) && Enabled(s, step) && step != Start
    ensures Waking(Apply(s, step))
  {
    var s' := Apply(s, step);
    match step {
      case Push(t, f) => assert t in s'.producers && s'.producers[t] == Pushed;
      case StoreQuit(t) => OwedAfter(s, s', t, Pushed);
      case _ =>
    }
  }

  // ---------------------------------------------------------------- theorems

  lemma {:induction false} RunKeepsInv<F>(s: State<F>, steps: seq<Step<F>>)
    requires Inv(s) && Legal(s, steps)
    ensures Inv(Run(s, steps))
    decreases |steps|
  {
    if steps != [] {
      StepKeepsInv(s, steps[0]);
      RunKeepsInv(Apply(s, steps[0]), steps[1..]);
    }
  }

  /** Functor conservation: over any interleaving, what ran, then the rest of the
      batch, then the queue, is everything queued, in lock order. */
  lemma Conservation<F>(steps: seq<Step<F>>)
    requires Legal(Init<F>(), steps)
    ensures var s := Run(Init<F>(), steps);
            s.history == s.executed + s.batch + s.pending
  {
    RunKeepsInv(Init<F>(), steps);
  }

  lemma {:induction false} HistoryGrows<F>(s: State<F>, steps: seq<Step<F>>)
    requires Legal(s, steps)
    ensures s.history <= Run(s, steps).history && s.swaps <= Run(s, steps).swaps
    decreases |steps|
  {
    if steps != [] {
      HistoryGrows(Apply(s, steps[0]), steps[1..]);
    }
  }

  /** A functor waits for one swap: as soon as a batch that was taken later has
      ended, everything queued before has run, once each and in order. */
  lemma RunsInTheNextBatch<F>(s: State<F>, steps: seq<Step<F>>)
    requires Inv(s) && Legal(s, steps)
    requires Run(s, steps).swaps > s.swaps && Run(s, steps).pc != Batch
    ensures s.history <= Run(s, steps).executed <= Run(s, steps).history
  {
    var s' := Run(s, steps);
    RunKeepsInv(s, steps);
    HistoryGrows(s, steps);
    assert s'.history == s'.executed + s'.pending;
    if |s'.executed| < |s.history| {
      RoundOf(s', |s'.executed|);
      RoundOf(s, |s'.executed|);
      assert false;
    }
  }

  /** An item in the queue carries the present round, any other an earlier one. */
  lemma RoundOf<F>(s: State<F>, k: nat)
    requires Inv(s) && k < |s.history|
    ensures s.history[k].round <= s.swaps
    ensures |s.executed| + |s.batch| <= k ==> s.history[k].round == s.swaps
  {
  }

  lemma {:induction false} RunKeepsWaking<F>(s: State<F>, steps: seq<Step<F>>)
    requires Inv(s) && Waking(s) && s.pc != Unstarted && Legal(s, steps)
    ensures Waking(Run(s, steps))
    decreases |steps|
  {
    if steps != [] {
      StepKeepsInv(s, steps[0]);
      StepKeepsWaking(s, steps[0]);
      RunKeepsWaking(Apply(s, steps[0]), steps[1..]);
    }
  }

  /** At poll with work queued, the counter is positive or a producer that pushed
      is about to write it. */
  ghost predicate NotStranded<F>(s: State<F>) {
    s.pc == Poll && s.pending != [] ==> s.evt > 0 || Owed(s, Pushed)
  }

  /** Whatever the threads do from here. */
  ghost predicate NeverStranded<F(!new)>(s: State<F>) {
    forall steps: seq<Step<F>> | Legal(s, steps) :: NotStranded(Run(s, steps))
  }

  /** No lost wakeup, exactly: a loop that has just started never polls with work
      stranded, whatever the threads do from there, if and only if what was queued
      before it started is announced. */
  lemma NoLostWakeup<F(!new)>(s: State<F>)
    requires Inv(s) && s.pc == Check && !s.quit
    ensures NeverStranded(s) <==> Announced(s)
  {
    if Announced(s) {
      forall steps: seq<Step<F>> | Legal(s, steps)
        ensures NotStranded(Run(s, steps))
      {
        RunKeepsInv(s, steps);
        RunKeepsWaking(s, steps);
      }
    }
    if NeverStranded(s) {
      var steps: seq<Step<F>> := [CheckQuit];
      assert steps[1..] == [];
      assert Legal(s, steps) && Run(s, steps) == Apply(s, CheckQuit);
    }
  }

  /** A functor the loop's own thread queues before loop() announces nothing: if
      nobody else has, the first poll may block with it. */
  lemma EarlyOwnPushIsStranded<F>(s: State<F>, f: F)
    requires Inv(s) && s.pc == Unstarted
    requires s.evt == 0 && !Owed(s, Pushed)
    ensures var s' := Apply(Apply(s, OwnPush(f)), Start);
            Inv(s') && !Announced(s') && !NotStranded(Apply(s', CheckQuit))
  {
    StepKeepsInv(s, OwnPush(f));
    var pushed := Apply(s, OwnPush(f));
    StepKeepsInv(pushed, Start);
    assert |pushed.pending| == |s.pending| + 1;
    assert pushed.producers == s.producers;
  }

  /** A quit issued before loop() is forgotten, whoever issued it. */
  lemma EarlyQuitIsForgotten<F>(s: State<F>)
    requires s.pc == Unstarted && s.quit
    ensures !Apply(s, Start).quit && Apply(Apply(s, Start), CheckQuit).pc == Poll
  {
  }

  /** Quit progress: once set on a started loop, quit stays set, the loop never
      enters poll again, and a poll it is in cannot block, because the counter is
      positive or the quitting thread has yet to write it. */
  lemma {:induction false} QuitProgress<F>(s: State<F>, steps: seq<Step<F>>)
    requires Inv(s) && s.quit && s.pc != Unstarted && Legal(s, steps)
    ensures var s' := Run(s, steps);
            && s'.quit && s'.polls == s.polls
            && (s'.pc == Poll ==> s'.evt > 0 || Owed(s', QuitStored))
    decreases |steps|
  {
    if steps != [] {
      StepKeepsInv(s, steps[0]);
      QuitProgress(Apply(s, steps[0]), steps[1..]);
    }
  }

  /** How many parts of the current round are left once quit is set. */
  function StagesLeft<F>(s: State<F>): nat {
    match s.pc
    case Unstarted => 5
    case Poll => 4
    case Dispatch => 3
    case Batch => 2
    case Check => 1
    case Exited => 0
  }

  function WorkLeft<F>(s: State<F>): nat {
    |s.batch| + if s.woke then 1 else 0
  }

  predicate LoopMoves<F>(step: Step<F>) {
    step.CheckQuit? || step.PollReturn? || step.ReadEvent? || step.Swap? || step.RunOne? || step.EndBatch?
  }

  /** With quit set, every move of the loop itself brings its exit nearer, and
      nothing another thread or a functor does takes it farther away: not even
      functors that queue themselves again. */
  lemma QuitCountsDown<F>(s: State<F>, step: Step<F>)
    requires Inv(s) && s.quit && s.pc != Unstarted && Enabled(s, step)
    ensures var s' := Apply(s, step);
            if LoopMoves(step)
            then StagesLeft(s') < StagesLeft(s) || (StagesLeft(s') == StagesLeft(s) && WorkLeft(s') < WorkLeft(s))
            else StagesLeft(s') == StagesLeft(s) && WorkLeft(s') == WorkLeft(s)
  {
  }

  /** The loop thread always has a next move until it has left loop(). */
  function NextMove<F>(s: State<F>): (step: Step<F>)
    requires Inv(s) && s.pc != Unstarted && s.pc != Exited
    ensures Enabled(s, step) && (LoopMoves(step) || step.OwnWake?)
  {
    if s.owesWake then OwnWake
    else match s.pc
         case Check => CheckQuit
         case Poll => PollReturn(s.evt > 0)
         case Dispatch => if s.woke then ReadEvent else Swap
         case Batch => if s.batch == [] then EndBatch else RunOne
  }

  /** The loop's own moves alone take it out of loop(), without a new poll. */
  lemma {:induction false} QuitReachesExit<F>(s: State<F>) returns (steps: seq<Step<F>>)
    requires Inv(s) && s.quit && s.pc != Unstarted
    ensures Legal(s, steps) && Run(s, steps).pc == Exited && Run(s, steps).polls == s.polls
    ensures s.history == Run(s, steps).history
    decreases StagesLeft(s), WorkLeft(s), s.owesWake
  {
    if s.pc == Exited {
      steps := [];
    } else {
      var step := NextMove(s);
      StepKeepsInv(s, step);
      QuitCountsDown(s, step);
      var rest := QuitReachesExit(Apply(s, step));
      steps := [step] + rest;
      assert steps[1..] == rest;
    }
  }

  // ---------------------------------------------------------------- progress without quit

  /** Every poll of the run returns because the counter is positive. */
  predicate NeverBlocks<F>(s: State<F>, steps: seq<Step<F>>)
    requires Legal(s, steps)
    decreases |steps|
  {
    steps == [] ||
    ((steps[0].PollReturn? ==> steps[0].woke && s.evt > 0) && NeverBlocks(Apply(s, steps[0]), steps[1..]))
  }

  predicate AllRan<F>(s: State<F>) {
    s.batch == [] && s.pending == []
  }

  /** How far the loop is from its next swap. */
  function ToSwap<F>(s: State<F>): nat {
    match s.pc
    case Batch => if s.owesWake then 6 else 5
    case Check => 4
    case Poll => if s.evt == 0 then 3 else 2
    case Dispatch => if s.woke then 1 else 0
    case _ => 0
  }

  /** What happens next on the way to an empty queue: a move of the loop, or, when it
      waits in poll, the wakeup that whoever pushed still owes. */
  ghost function NextOfRound<F>(s: State<F>): (step: Step<F>)
    requires Inv(s) && Waking(s) && !s.quit && s.pc != Unstarted && s.pc != Exited && !AllRan(s)
    ensures Enabled(s, step) && step != Start && (LoopMoves(step) || step.OwnWake? || step.Wake?)
    ensures step.PollReturn? ==> step.woke && s.evt > 0
  {
    if s.pc == Poll && s.evt == 0 then
      var t :| t in s.producers && s.producers[t] == Pushed;
      Wake(t)
    else NextMove(s)
  }

  lemma RoundGoesOn<F>(s: State<F>)
    requires Inv(s) && Waking(s) && !s.quit && s.pc != Unstarted && s.pc != Exited && !AllRan(s)
    ensures var s' := Apply(s, NextOfRound(s));
            && !s'.quit && s'.pc != Unstarted && s'.pc != Exited && s'.history == s.history
            && (|| |s'.pending| < |s.pending|
                || (|s'.pending| == |s.pending| && |s'.batch| < |s.batch|)
                || (|s'.pending| == |s.pending| && |s'.batch| == |s.batch| && ToSwap(s') < ToSwap(s)))
  {
  }

  /** The loop keeps iterating: from any state of a started loop whose queue is announced,
      its own moves and the wakeups already owed lead to a state in which everything
      queued has run, and no poll on the way can block. */
  lemma {:induction false} EverythingQueuedRuns<F>(s: State<F>) returns (steps: seq<Step<F>>)
    requires Inv(s) && Waking(s) && !s.quit && s.pc != Unstarted && s.pc != Exited
    ensures Legal(s, steps) && NeverBlocks(s, steps)
    ensures Run(s, steps).executed == s.history == Run(s, steps).history
    decreases |s.pending|, |s.batch|, ToSwap(s)
  {
    if AllRan(s) {
      steps := [];
    } else {
      var step := NextOfRound(s);
      RoundGoesOn(s);
      StepKeepsInv(s, step);
      StepKeepsWaking(s, step);
      var rest := EverythingQueuedRuns(Apply(s, step));
      steps := [step] + rest;
      assert steps[1..] == rest;
    }
  }

  // ---------------------------------------------------------------- and rest

  /** How far a loop with nothing to run is from a poll that has nothing to report. */
  function ToRest<F>(s: State<F>): nat {
    match s.pc
    case Poll => if s.evt == 0 then 0 else 5
    case Check => if s.evt == 0 then 1 else 6
    case Batch => if s.owesWake then 8 else if s.evt == 0 then 2 else 7
    case Dispatch => if s.woke then 4 else if s.evt == 0 then 3 else 8
    case _ => 0
  }

  /** An idle loop does not spin: the read empties the counter, so with nothing left to
      run its own moves lead to a poll that reports nothing and stays there. */
  lemma {:induction false} ComesToRest<F>(s: State<F>) returns (steps: seq<Step<F>>)
    requires Inv(s) && !s.quit && s.pc != Unstarted && s.pc != Exited && AllRan(s)
    ensures Legal(s, steps) && NeverBlocks(s, steps)
    ensures var s' := Run(s, steps);
            && s'.pc == Poll && s'.evt == 0 && !Enabled(s', PollReturn(true))
            && AllRan(s') && s'.history == s.history && s'.producers == s.producers
    decreases ToRest(s)
  {
    if s.pc == Poll && s.evt == 0 {
      steps := [];
    } else {
      var step := NextMove(s);
      StepKeepsInv(s, step);
      var rest := ComesToRest(Apply(s, step));
      steps := [step] + rest;
      assert steps[1..] == rest;
    }
  }
}
