/** The life of connections over a server, its base loop and its io loops, as
    interleaved steps. Loop 0 is the base loop; a server without io threads has no
    other. Each loop walks its active channels, then runs the batch of functors it
    took from its queue; any thread may call in meanwhile. A connection is owned by
    shared pointers only: in the server's map, in functors, on a stack, or in user
    code. The poller's pointer to its channel owns nothing, nor does a functor that
    carries a plain pointer. */
module Lifetime {
  import opened Registry
  import C = ConnectionSpec

  type Edition = C.Edition
  type CId = nat
  type LId = nat

  /** The functors that concern one connection. NotifyFn stands for write-complete and
      high-water callbacks. */
  datatype Fn =
    | EstablishFn(c: CId)
    | UnlistFn(c: CId)
    | DestroyFn(c: CId)
    | SendFn(c: CId)
    | ShutdownFn(c: CId)
    | NotifyFn(c: CId)

  /** Where a loop's thread stands between two steps of one call, holding a shared
      pointer: in newConnection after the insertion, in handleClose before the close
      callback, in removeConnectionInLoop after the erasure. */
  datatype Frame = Idle | Creating(c: CId) | Closing(c: CId) | Erased(c: CId)

  /** Where another thread stands in a call on a connection it holds: in send after the
      check, in shutdown after the check, in shutdown after the store. */
  datatype Call = Sending(c: CId) | Stopping(c: CId) | Stopped(c: CId)

  datatype Phase = AtPoll | Dispatching | Running

  /** `walked` active channels have been handled. The functors of the batch that have
      run stay in `ran` until the batch ends. */
  datatype Loop = Loop(
    phase: Phase,
    active: seq<CId>,
    walked: nat,
    ran: seq<Fn>,
    batch: seq<Fn>,
    pending: seq<Fn>,
    frame: Frame)

  datatype Milestone = Established | Closed | Unlisted | Destroyed

  const MILESTONES: seq<Milestone> := [Established, Closed, Unlisted, Destroyed]

  datatype Rec = Rec(loop: LId, fd: int, state: C.StateE, history: seq<Milestone>)

  /** `listed` is the server's map, `users` the connections user code holds, `calls`
      what other threads are in the middle of. */
  datatype Sys = Sys(
    loops: seq<Loop>,
    regs: seq<Reg<CId>>,
    recs: map<CId, Rec>,
    listed: set<CId>,
    users: set<CId>,
    calls: multiset<Call>,
    freed: set<CId>)

  const WAITING: Loop := Loop(AtPoll, [], 0, [], [], [], Idle)

  function Start(n: nat): Sys {
    Sys(seq(n, _ => WAITING), seq(n, _ => Empty<CId>()), map[], {}, {}, multiset{}, {})
  }

  // ---------------------------------------------------------------- ownership

  predicate About(frame: Frame, c: CId) {
    frame != Idle && frame.c == c
  }

  /** Some functor of the sequence owns the connection: all kinds do but a shutdown,
      and as written a send, which carry a plain pointer. */
  predicate HeldIn(e: Edition, q: seq<Fn>, c: CId) {
    || EstablishFn(c) in q || UnlistFn(c) in q || DestroyFn(c) in q || NotifyFn(c) in q
    || (e == C.AsMeant && SendFn(c) in q)
  }

  predicate HeldBy(e: Edition, l: Loop, c: CId) {
    HeldIn(e, l.ran, c) || HeldIn(e, l.batch, c) || HeldIn(e, l.pending, c) || About(l.frame, c)
  }

  predicate Calling(s: Sys, c: CId) {
    Sending(c) in s.calls || Stopping(c) in s.calls || Stopped(c) in s.calls
  }

  predicate Owned(e: Edition, s: Sys, c: CId) {
    c in s.listed || c in s.users || Calling(s, c) || exists l :: 0 <= l < |s.loops| && HeldBy(e, s.loops[l], c)
  }

  /** The functors a loop has still to run. */
  function Unrun(l: Loop): seq<Fn> {
    l.batch + l.pending
  }

  /** The destruction of the connection is still to be queued. */
  predicate ToQueue(s: Sys, c: CId) {
    c in s.listed || exists l :: 0 <= l < |s.loops| && (UnlistFn(c) in Unrun(s.loops[l]) || About(s.loops[l].frame, c))
  }

  /** The destruction of the connection is still to run. */
  predicate ToRun(s: Sys, c: CId) {
    ToQueue(s, c) || exists l :: 0 <= l < |s.loops| && DestroyFn(c) in Unrun(s.loops[l])
  }

  // ---------------------------------------------------------------- steps

  datatype Step =
    | Poll(l: LId, ready: seq<CId>)
    | Accept(c: CId, io: LId, fd: int)
    | HandOver
    | StopWriting(l: LId)
    | Close(l: LId)
    | Advance(l: LId)
    | CloseCallback(l: LId)
    | QueueDestroy
    | EndDispatch(l: LId)
    | RunFn(l: LId, watch: bool)
    | EndBatch(l: LId)
    | DirectSend(l: LId, c: CId, watch: bool)
    | DirectShutdown(l: LId, c: CId)
    | PushNotify(c: CId)
    | Acquire(c: CId)
    | Drop(c: CId)
    | BeginSend(c: CId)
    | PushSend(c: CId)
    | BeginShutdown(c: CId)
    | StoreShutdown(c: CId)
    | PushShutdown(c: CId)
    | Free(c: CId)

  predicate Walking(s: Sys, l: LId) {
    && l < |s.loops| && s.loops[l].phase == Dispatching && s.loops[l].frame == Idle
    && s.loops[l].walked < |s.loops[l].active|
  }

  function Current(s: Sys, l: LId): CId
    requires Walking(s, l)
  {
    s.loops[l].active[s.loops[l].walked]
  }

  predicate Known(s: Sys, c: CId) {
    c in s.recs && s.recs[c].loop < |s.regs| && s.recs[c].loop < |s.loops| && c in s.regs[s.recs[c].loop].chans
  }

  function ChanOf(s: Sys, c: CId): Chan
    requires Known(s, c)
  {
    s.regs[s.recs[c].loop].chans[c]
  }

  predicate Reported(r: Reg<CId>, c: CId) {
    exists fd :: fd in r.kernel && r.kernel[fd].ptr == c
  }

  /** User code of the loop's own thread runs, in a callback or a functor, and has a
      connection of this loop at hand. */
  predicate AtHand(e: Edition, s: Sys, l: LId, c: CId) {
    && l < |s.loops| && s.loops[l].phase != AtPoll && (s.loops[l].frame.Idle? || s.loops[l].frame.Closing?)
    && Known(s, c) && s.recs[c].loop == l && Owned(e, s, c)
  }

  /** The state shutdown tests for. */
  function Stoppable(e: Edition): C.StateE {
    if e == C.AsWritten then C.Disconnected else C.Connected
  }

  predicate CanRun(s: Sys, l: LId) {
    && l < |s.loops| && s.loops[l].phase == Running && s.loops[l].frame == Idle
    && s.loops[l].batch != [] && s.loops[l].batch[0].c in s.recs
  }

  function Head(s: Sys, l: LId): Fn
    requires CanRun(s, l)
  {
    s.loops[l].batch[0]
  }

  predicate Enabled(e: Edition, s: Sys, step: Step) {
    match step
    case Poll(l, ready) =>
      && l < |s.loops| && l < |s.regs| && s.loops[l].phase == AtPoll && s.loops[l].frame == Idle
      && (forall i :: 0 <= i < |ready| ==> Reported(s.regs[l], ready[i]))
      && (forall i, j :: 0 <= i < j < |ready| ==> ready[i] != ready[j])
    case Accept(c, io, fd) =>
      && 0 < |s.loops| && s.loops[0].phase == Dispatching && s.loops[0].frame == Idle
      && c !in s.recs && io < |s.loops| && io < |s.regs|
      && (forall d <- s.recs :: d !in s.freed ==> s.recs[d].fd != fd)
    case HandOver => 0 < |s.loops| && s.loops[0].frame.Creating? && Known(s, s.loops[0].frame.c)
    case StopWriting(l) =>
      && Walking(s, l) && Known(s, Current(s, l)) && Owned(e, s, Current(s, l))
      && EPOLLOUT in ChanOf(s, Current(s, l)).events
    case Close(l) => Walking(s, l) && Known(s, Current(s, l)) && Owned(e, s, Current(s, l))
    case Advance(l) => Walking(s, l)
    case CloseCallback(l) => l < |s.loops| && s.loops[l].frame.Closing? && Known(s, s.loops[l].frame.c)
    case QueueDestroy => 0 < |s.loops| && s.loops[0].frame.Erased? && Known(s, s.loops[0].frame.c)
    case EndDispatch(l) =>
      && l < |s.loops| && s.loops[l].phase == Dispatching && s.loops[l].frame == Idle
      && s.loops[l].walked == |s.loops[l].active|
    case RunFn(l, watch) => CanRun(s, l) && (watch ==> Head(s, l).SendFn?)
    case EndBatch(l) =>
      l < |s.loops| && s.loops[l].phase == Running && s.loops[l].frame == Idle && s.loops[l].batch == []
    case DirectSend(l, c, watch) => AtHand(e, s, l, c) && s.recs[c].state == C.Connected
    case DirectShutdown(l, c) => AtHand(e, s, l, c) && s.recs[c].state == Stoppable(e)
    case PushNotify(c) => Known(s, c) && s.recs[c].history != [] && Owned(e, s, c)
    case Acquire(c) => Known(s, c) && s.recs[c].history != [] && Owned(e, s, c)
    case Drop(c) => c in s.users
    case BeginSend(c) => c in s.users && Known(s, c) && s.recs[c].state == C.Connected
    case PushSend(c) => Sending(c) in s.calls && Known(s, c)
    case BeginShutdown(c) => c in s.users && Known(s, c) && s.recs[c].state == Stoppable(e)
    case StoreShutdown(c) => Stopping(c) in s.calls && Known(s, c)
    case PushShutdown(c) => Stopped(c) in s.calls && Known(s, c)
    case Free(c) => Known(s, c) && c !in s.freed && !Owned(e, s, c)
  }

  // Changes of one loop.

  function Polled(l: Loop, ready: seq<CId>): Loop {
    l.(phase := Dispatching, active := ready, walked := 0)
  }

  function Advanced(l: Loop): Loop {
    l.(walked := l.walked + 1)
  }

  function Swapped(l: Loop): Loop {
    l.(phase := Running, ran := [], batch := l.pending, pending := [])
  }

  function Popped(l: Loop): Loop
    requires l.batch != []
  {
    l.(ran := l.ran + [l.batch[0]], batch := l.batch[1..])
  }

  function Ended(l: Loop): Loop {
    l.(phase := AtPoll, ran := [])
  }

  function Posted(l: Loop, f: Fn): Loop {
    l.(pending := l.pending + [f])
  }

  function Framed(l: Loop, frame: Frame): Loop {
    l.(frame := frame)
  }

  // Changes of the server.

  function PutLoop(s: Sys, l: LId, loop: Loop): Sys
    requires l < |s.loops|
  {
    s.(loops := s.loops[l := loop])
  }

  function SetFrame(s: Sys, l: LId, frame: Frame): Sys
    requires l < |s.loops|
  {
    PutLoop(s, l, Framed(s.loops[l], frame))
  }

  function Post(s: Sys, l: LId, f: Fn): Sys
    requires l < |s.loops|
  {
    PutLoop(s, l, Posted(s.loops[l], f))
  }

  function SetState(s: Sys, c: CId, state: C.StateE): Sys
    requires c in s.recs
  {
    s.(recs := s.recs[c := s.recs[c].(state := state)])
  }

  function Mark(s: Sys, c: CId, milestone: Milestone): Sys
    requires c in s.recs
  {
    s.(recs := s.recs[c := s.recs[c].(history := s.recs[c].history + [milestone])])
  }

  function PutReg(s: Sys, l: LId, r: Reg<CId>): Sys
    requires l < |s.regs|
  {
    s.(regs := s.regs[l := r])
  }

  function PutCalls(s: Sys, calls: multiset<Call>): Sys {
    s.(calls := calls)
  }

  /** A channel's mask reaches its poller. */
  function SetMask(s: Sys, c: CId, mask: Mask): Sys {
    if Known(s, c) then PutReg(s, s.recs[c].loop, s.regs[s.recs[c].loop].SetEvents(c, mask)) else s
  }

  function Unregister(s: Sys, c: CId): Sys {
    if Known(s, c) then PutReg(s, s.recs[c].loop, s.regs[s.recs[c].loop].RemoveChannel(c)) else s
  }

  function AddInterest(s: Sys, c: CId, mask: Mask): Sys {
    if Known(s, c) then SetMask(s, c, ChanOf(s, c).events + mask) else s
  }

  /** connectEstablished. */
  function DoEstablish(s: Sys, c: CId): Sys
    requires c in s.recs
  {
    Mark(AddInterest(SetState(s, c, C.Connected), c, READ_EVENT), c, Established)
  }

  /** handleClose, up to the close callback. */
  function DoClose(s: Sys, c: CId): Sys
    requires c in s.recs
  {
    Mark(SetMask(SetState(s, c, C.Disconnected), c, NONE_EVENT), c, Closed)
  }

  /** The erasure from the map. */
  function Unlist(s: Sys, c: CId): Sys
    requires c in s.recs
  {
    Mark(s.(listed := s.listed - {c}), c, Unlisted)
  }

  /** removeConnectionInLoop, up to queueing the destruction. */
  function DoUnlist(s: Sys, c: CId): Sys
    requires c in s.recs && 0 < |s.loops|
  {
    SetFrame(Unlist(s, c), 0, Erased(c))
  }

  /** connectDestroyed, up to the removal of the channel. */
  function Quieted(s: Sys, c: CId): Sys
    requires c in s.recs
  {
    if s.recs[c].state == C.Connected then SetMask(SetState(s, c, C.Disconnected), c, NONE_EVENT) else s
  }

  /** connectDestroyed. */
  function DoDestroy(s: Sys, c: CId): Sys
    requires c in s.recs
  {
    Mark(Unregister(Quieted(s, c), c), c, Destroyed)
  }

  predicate Refused(e: Edition, s: Sys, c: CId)
    requires c in s.recs
  {
    e == C.AsMeant && s.recs[c].state == C.Disconnected
  }

  /** sendInLoop, as far as state and channel go. */
  function DoSend(e: Edition, s: Sys, c: CId, watch: bool): Sys
    requires c in s.recs
  {
    if Refused(e, s, c) then s
    else
      var t := if e == C.AsWritten then SetState(s, c, C.Disconnected) else s;
      if watch then AddInterest(t, c, WRITE_EVENT) else t
  }

  /** What a functor does to a freed connection is not defined. Here it does nothing,
      and the step counts as a fault. */
  function Execute(e: Edition, s: Sys, f: Fn, watch: bool): Sys
    requires f.c in s.recs && 0 < |s.loops|
  {
    if f.c in s.freed then s
    else match f
         case EstablishFn(c) => DoEstablish(s, c)
         case UnlistFn(c) => DoUnlist(s, c)
         case DestroyFn(c) => DoDestroy(s, c)
         case SendFn(c) => DoSend(e, s, c, watch)
         case ShutdownFn(c) => s
         case NotifyFn(c) => s
  }

  /** A new connection, in the map and with its channel. */
  function Created(s: Sys, c: CId, io: LId, fd: int): Sys
    requires io < |s.regs|
  {
    var t := s.(recs := s.recs[c := Rec(io, fd, C.Connecting, [])], listed := s.listed + {c});
    PutReg(t, io, s.regs[io].(chans := s.regs[io].chans[c := Chan(fd, NONE_EVENT, New)]))
  }

  /** The destructors: the channel is gone, and closing the fd takes it out of the
      kernel's set. The poller's own map is left as it is. */
  function Released(s: Sys, c: CId): Sys
    requires Known(s, c)
  {
    var r := s.regs[s.recs[c].loop];
    PutReg(s, s.recs[c].loop, r.(chans := r.chans - {c}, kernel := r.kernel - {s.recs[c].fd}))
      .(freed := s.freed + {c})
  }

  function Next(e: Edition, s: Sys, step: Step): Sys
    requires Enabled(e, s, step)
  {
    match step
    case Poll(l, ready) => PutLoop(s, l, Polled(s.loops[l], ready))
    case Accept(c, io, fd) => SetFrame(Created(s, c, io, fd), 0, Creating(c))
    case HandOver =>
      var c := s.loops[0].frame.c;
      var t := SetFrame(s, 0, Idle);
      if s.recs[c].loop == 0 then DoEstablish(t, c) else Post(t, s.recs[c].loop, EstablishFn(c))
    case StopWriting(l) => SetMask(s, Current(s, l), ChanOf(s, Current(s, l)).events - WRITE_EVENT)
    case Close(l) =>
      SetFrame(DoClose(PutLoop(s, l, Advanced(s.loops[l])), Current(s, l)), l, Closing(Current(s, l)))
    case Advance(l) => PutLoop(s, l, Advanced(s.loops[l]))
    case CloseCallback(l) =>
      var c := s.loops[l].frame.c;
      var t := SetFrame(s, l, Idle);
      if l == 0 then DoUnlist(t, c) else Post(t, 0, UnlistFn(c))
    case QueueDestroy =>
      var c := s.loops[0].frame.c;
      Post(SetFrame(s, 0, Idle), s.recs[c].loop, DestroyFn(c))
    case EndDispatch(l) => PutLoop(s, l, Swapped(s.loops[l]))
    case RunFn(l, watch) => Execute(e, PutLoop(s, l, Popped(s.loops[l])), Head(s, l), watch)
    case EndBatch(l) => PutLoop(s, l, Ended(s.loops[l]))
    case DirectSend(l, c, watch) => DoSend(e, s, c, watch)
    case DirectShutdown(l, c) => SetState(s, c, C.Disconnecting)
    case PushNotify(c) => Post(s, s.recs[c].loop, NotifyFn(c))
    case Acquire(c) => s.(users := s.users + {c})
    case Drop(c) => s.(users := s.users - {c})
    case BeginSend(c) => PutCalls(s, s.calls + multiset{Sending(c)})
    case PushSend(c) => Post(PutCalls(s, s.calls - multiset{Sending(c)}), s.recs[c].loop, SendFn(c))
    case BeginShutdown(c) => PutCalls(s, s.calls + multiset{Stopping(c)})
    case StoreShutdown(c) =>
      PutCalls(SetState(s, c, C.Disconnecting), s.calls - multiset{Stopping(c)} + multiset{Stopped(c)})
    case PushShutdown(c) => Post(PutCalls(s, s.calls - multiset{Stopped(c)}), s.recs[c].loop, ShutdownFn(c))
    case Free(c) => Released(s, c)
  }

  predicate LegalRun(e: Edition, s: Sys, steps: seq<Step>)
    decreases |steps|
  {
    steps == [] || (Enabled(e, s, steps[0]) && LegalRun(e, Next(e, s, steps[0]), steps[1..]))
  }

  function After(e: Edition, s: Sys, steps: seq<Step>): Sys
    requires LegalRun(e, s, steps)
    decreases |steps|
  {
    if steps == [] then s else After(e, Next(e, s, steps[0]), steps[1..])
  }

  // ---------------------------------------------------------------- what could go wrong

  predicate IsClosed(s: Sys, c: CId)
    requires c in s.recs
  {
    |s.recs[c].history| >= 2
  }

  /** A queued send that runs on a living connection, is not refused, and asks for
      EPOLLOUT. */
  predicate Watches(e: Edition, s: Sys, step: Step)
    requires Enabled(e, s, step)
  {
    step.RunFn? && step.watch && Head(s, step.l).c !in s.freed && !Refused(e, s, Head(s, step.l).c)
  }

  /** Late: a queued send asks for EPOLLOUT on a closed connection. Orphaning: on one
      whose destruction has run, with no other to come. Reviving: on a closed one that
      still has an owner and whose destruction does not follow in the same batch.
      Stale: shutdown stores after the close that made its check wrong. Dangling: a
      functor runs on a freed connection, or a loop handles its channel. */
  datatype Fault = Late | Orphaning | Reviving | Stale | Dangling

  predicate Has(e: Edition, s: Sys, step: Step, fault: Fault)
    requires Enabled(e, s, step)
  {
    match fault
    case Late => Watches(e, s, step) && IsClosed(s, Head(s, step.l).c)
    case Orphaning => Watches(e, s, step) && !ToRun(s, Head(s, step.l).c)
    case Reviving =>
      && Watches(e, s, step) && IsClosed(s, Head(s, step.l).c) && Owned(e, s, Head(s, step.l).c)
      && DestroyFn(Head(s, step.l).c) !in s.loops[step.l].batch
    case Stale => step.StoreShutdown? && IsClosed(s, step.c)
    case Dangling =>
      || (step.RunFn? && Head(s, step.l).c in s.freed)
      || (step.Advance? && Current(s, step.l) in s.freed)
  }

  /** No step of the run has the fault. */
  predicate Never(e: Edition, s: Sys, steps: seq<Step>, fault: Fault)
    requires LegalRun(e, s, steps)
    decreases |steps|
  {
    steps == [] || (!Has(e, s, steps[0], fault) && Never(e, Next(e, s, steps[0]), steps[1..], fault))
  }
}
