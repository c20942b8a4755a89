/** The server's machine keeps of each connection its state and its channel. What its
    steps do to the two is what the connection's own handlers do. */
module LifetimeConnection {
  import opened Registry
  import opened Lifetime
  import C = ConnectionSpec

  type Conn = C.Conn

  predicate Agree(s: Sys, c: CId, conn: Conn) {
    Known(s, c) && s.recs[c].state == conn.state && ChanOf(s, c) == conn.chan
  }

  /** A connection starts as its constructor leaves it. */
  lemma CreatedAgrees(s: Sys, c: CId, io: LId, fd: int, conn: Conn)
    requires io < |s.regs| && io < |s.loops|
    requires conn.state == C.Connecting && conn.chan == Chan(fd, {}, New)
    ensures Agree(Created(s, c, io, fd), c, conn)
  {
  }

  lemma StateAgrees(s: Sys, c: CId, conn: Conn, state: C.StateE)
    requires Agree(s, c, conn)
    ensures Agree(SetState(s, c, state), c, conn.(state := state))
  {
  }

  lemma MaskAgrees(s: Sys, c: CId, conn: Conn, mask: Mask)
    requires Agree(s, c, conn)
    ensures Agree(SetMask(s, c, mask), c, conn.SetMask(mask))
  {
    ChansEffect(s.regs[s.recs[c].loop], c, mask);
  }

  lemma MarkAgrees(s: Sys, c: CId, conn: Conn, milestone: Milestone)
    requires Agree(s, c, conn)
    ensures Agree(Mark(s, c, milestone), c, conn)
  {
  }

  lemma RemovalAgrees(s: Sys, c: CId, conn: Conn)
    requires Agree(s, c, conn)
    ensures Agree(Unregister(s, c), c, conn.Remove())
  {
    ChansEffect(s.regs[s.recs[c].loop], c, NONE_EVENT);
  }

  lemma EstablishAgrees(s: Sys, c: CId, conn: Conn)
    requires Agree(s, c, conn)
    ensures Agree(DoEstablish(s, c), c, conn.ConnectEstablished())
  {
    var t, d := SetState(s, c, C.Connected), conn.(state := C.Connected);
    StateAgrees(s, c, conn, C.Connected);
    MaskAgrees(t, c, d, d.chan.events + READ_EVENT);
    MarkAgrees(AddInterest(t, c, READ_EVENT), c, conn.ConnectEstablished(), Established);
  }

  lemma CloseAgrees(s: Sys, c: CId, conn: Conn)
    requires Agree(s, c, conn)
    ensures Agree(DoClose(s, c), c, conn.HandleClose())
  {
    var t, d := SetState(s, c, C.Disconnected), conn.(state := C.Disconnected, closes := conn.closes + 1);
    StateAgrees(s, c, conn, C.Disconnected);
    MaskAgrees(t, c, d, NONE_EVENT);
    MarkAgrees(SetMask(t, c, NONE_EVENT), c, conn.HandleClose(), Closed);
  }

  lemma DestroyAgrees(s: Sys, c: CId, conn: Conn)
    requires Agree(s, c, conn)
    ensures Agree(DoDestroy(s, c), c, conn.ConnectDestroyed())
  {
    if conn.state == C.Connected {
      var t, d := SetState(s, c, C.Disconnected), conn.(state := C.Disconnected);
      StateAgrees(s, c, conn, C.Disconnected);
      MaskAgrees(t, c, d, NONE_EVENT);
      RemovalAgrees(Quieted(s, c), c, d.SetMask(NONE_EVENT));
    } else {
      RemovalAgrees(s, c, conn);
    }
    MarkAgrees(Unregister(Quieted(s, c), c), c, conn.ConnectDestroyed(), Destroyed);
  }

  /** A step begins to watch for room. */
  predicate Starts(c: Conn, d: Conn) {
    !c.IsWriting() && d.IsWriting()
  }

  lemma SendAgrees(e: Edition, s: Sys, c: CId, conn: Conn, data: seq<C.BufferModel.Byte>, w: C.WriteResult)
    requires Agree(s, c, conn) && conn.Possible(|data|, w)
    ensures var d := conn.SendInLoop(e, data, w);
            Agree(DoSend(e, s, c, Starts(conn, d)), c, d)
  {
    if !Refused(e, s, c) {
      var entered := conn.Entering(e);
      var t := if e == C.AsWritten then SetState(s, c, C.Disconnected) else s;
      var n := entered.Written(|data|, w);
      C.TransmitEffect(entered, data, w);
      C.EnqueueEffect(entered.(wire := entered.wire + data[..n]), data[n..]);
      MaskAgrees(t, c, entered, entered.chan.events + WRITE_EVENT);
    }
  }

  lemma WriteAgrees(s: Sys, c: CId, conn: Conn, w: C.WriteResult)
    requires Agree(s, c, conn) && conn.Possible(|conn.out|, w)
    ensures var d := conn.HandleWrite(w);
            Agree(if Starts(d, conn) then SetMask(s, c, ChanOf(s, c).events - WRITE_EVENT) else s, c, d)
  {
    MaskAgrees(s, c, conn, conn.chan.events - WRITE_EVENT);
  }

  // ---------------------------------------------------------------- the machine's own steps

  /** Frames, queues and batches have no part in it. */
  lemma LoopAgrees(s: Sys, t: Sys, c: CId, conn: Conn)
    requires Agree(s, c, conn) && t.recs == s.recs && t.regs == s.regs && |t.loops| == |s.loops|
    ensures Agree(t, c, conn)
  {
  }

  /** The write handler that drains the backlog is the step that stops writing. */
  lemma StopWritingAgrees(e: Edition, s: Sys, l: LId, conn: Conn, w: C.WriteResult)
    requires Enabled(e, s, StopWriting(l)) && Agree(s, Current(s, l), conn)
    requires conn.Possible(|conn.out|, w) && w.n > 0 && w.n == |conn.out|
    ensures Agree(Next(e, s, StopWriting(l)), Current(s, l), conn.HandleWrite(w))
  {
    MaskAgrees(s, Current(s, l), conn, conn.chan.events - WRITE_EVENT);
  }

  lemma CloseStepAgrees(e: Edition, s: Sys, l: LId, conn: Conn)
    requires Enabled(e, s, Close(l)) && Agree(s, Current(s, l), conn)
    ensures Agree(Next(e, s, Close(l)), Current(s, l), conn.HandleClose())
  {
    var c := Current(s, l);
    var advanced := PutLoop(s, l, Advanced(s.loops[l]));
    LoopAgrees(s, advanced, c, conn);
    CloseAgrees(advanced, c, conn);
    LoopAgrees(DoClose(advanced, c), Next(e, s, Close(l)), c, conn.HandleClose());
  }

  /** send and shutdown on the loop's own thread. */
  lemma DirectCallsAgree(
    e: Edition, s: Sys, l: LId, c: CId, conn: Conn, data: seq<C.BufferModel.Byte>, w: C.WriteResult)
    requires Agree(s, c, conn) && conn.Possible(|data|, w)
    ensures var d := conn.Send(e, data, w); var step := DirectSend(l, c, Starts(conn, d));
            if Enabled(e, s, step) then Agree(Next(e, s, step), c, d) else AtHand(e, s, l, c) ==> d == conn
    ensures var d, step := conn.Shutdown(e), DirectShutdown(l, c);
            if Enabled(e, s, step) then Agree(Next(e, s, step), c, d) else AtHand(e, s, l, c) ==> d == conn
  {
    SendAgrees(e, s, c, conn, data, w);
    StateAgrees(s, c, conn, C.Disconnecting);
  }

  /** What a functor does to a living connection is the handler it stands for. */
  lemma FunctorAgrees(e: Edition, s: Sys, l: LId, conn: Conn, data: seq<C.BufferModel.Byte>, w: C.WriteResult)
    requires CanRun(s, l) && Head(s, l).c !in s.freed && Agree(s, Head(s, l).c, conn) && conn.Possible(|data|, w)
    ensures var f := Head(s, l);
            var d := match f
                     case EstablishFn(_) => conn.ConnectEstablished()
                     case DestroyFn(_) => conn.ConnectDestroyed()
                     case SendFn(_) => conn.SendInLoop(e, data, w)
                     case ShutdownFn(_) => conn.ShutdownInLoop()
                     case _ => conn;
            Agree(Next(e, s, RunFn(l, f.SendFn? && Starts(conn, d))), f.c, d)
  {
    var f := Head(s, l);
    var popped := PutLoop(s, l, Popped(s.loops[l]));
    LoopAgrees(s, popped, f.c, conn);
    match f
    case EstablishFn(c) => EstablishAgrees(popped, c, conn);
    case DestroyFn(c) => DestroyAgrees(popped, c, conn);
    case SendFn(c) => SendAgrees(e, popped, c, conn, data, w);
    case UnlistFn(c) => MarkAgrees(popped.(listed := popped.listed - {c}), c, conn, Unlisted);
    case _ =>
  }

  /** A callback that was queued owns its connection, and so does a send as meant. */
  lemma QueuedHolds(e: Edition, s: Sys, step: Step)
    requires Enabled(e, s, step)
    requires step.PushNotify? || (step.PushSend? && e == C.AsMeant)
    ensures var s' := Next(e, s, step);
            && s'.recs == s.recs && HeldBy(e, s'.loops[s.recs[step.c].loop], step.c)
  {
    var f := if step.PushNotify? then NotifyFn(step.c) else SendFn(step.c);
    assert f in Next(e, s, step).loops[s.recs[step.c].loop].pending;
  }

  // ---------------------------------------------------------------- runs of handlers

  /** The step of the machine, or the part of one, that a handler is. */
  function Shadow(e: Edition, s: Sys, c: CId, conn: Conn, op: C.Op): Sys
    requires Agree(s, c, conn) && C.CanApply(conn, op)
  {
    var d := C.Apply(e, conn, op);
    match op
    case SendOp(_, _) => if s.recs[c].state == C.Connected then DoSend(e, s, c, Starts(conn, d)) else s
    case QueuedSendOp(_, _) => DoSend(e, s, c, Starts(conn, d))
    case WriteOp(_) => if Starts(d, conn) then SetMask(s, c, ChanOf(s, c).events - WRITE_EVENT) else s
    case ReadOp(r) => if r == C.BufferModel.Received([]) then DoClose(s, c) else s
    case ShutdownOp => if s.recs[c].state == Stoppable(e) then SetState(s, c, C.Disconnecting) else s
    case QueuedShutdownOp => s
    case CloseOp => DoClose(s, c)
  }

  lemma HandlerAgrees(e: Edition, s: Sys, c: CId, conn: Conn, op: C.Op)
    requires Agree(s, c, conn) && C.CanApply(conn, op)
    ensures Agree(Shadow(e, s, c, conn, op), c, C.Apply(e, conn, op))
  {
    match op
    case SendOp(data, w) => SendAgrees(e, s, c, conn, data, w);
    case QueuedSendOp(data, w) => SendAgrees(e, s, c, conn, data, w);
    case WriteOp(w) => WriteAgrees(s, c, conn, w);
    case ReadOp(r) => CloseAgrees(s, c, conn);
    case CloseOp => CloseAgrees(s, c, conn);
    case ShutdownOp => StateAgrees(s, c, conn, C.Disconnecting);
    case QueuedShutdownOp =>
  }

  function ShadowAll(e: Edition, s: Sys, c: CId, conn: Conn, ops: seq<C.Op>): Sys
    requires Agree(s, c, conn) && C.Legal(e, conn, ops)
    decreases |ops|
  {
    if ops == [] then s
    else
      HandlerAgrees(e, s, c, conn, ops[0]);
      ShadowAll(e, Shadow(e, s, c, conn, ops[0]), c, C.Apply(e, conn, ops[0]), ops[1..])
  }

  /** From its establishment on, every run of a connection's handlers leaves the machine
      with that connection's state, mask and index. */
  lemma {:induction false} HandlersAgree(e: Edition, s: Sys, c: CId, conn: Conn, ops: seq<C.Op>)
    requires Agree(s, c, conn) && C.Legal(e, conn, ops)
    ensures Agree(ShadowAll(e, s, c, conn, ops), c, C.Run(e, conn, ops))
    decreases |ops|
  {
    if ops != [] {
      HandlerAgrees(e, s, c, conn, ops[0]);
      HandlersAgree(e, Shadow(e, s, c, conn, ops[0]), c, C.Apply(e, conn, ops[0]), ops[1..]);
    }
  }

  /** The whole life of a connection in the two models: created, established, served,
      destroyed. */
  lemma LifeAgrees(e: Edition, s: Sys, c: CId, conn: Conn, ops: seq<C.Op>)
    requires Agree(s, c, conn) && C.Legal(e, conn.ConnectEstablished(), ops)
    ensures Agree(DoEstablish(s, c), c, conn.ConnectEstablished())
    ensures var served := ShadowAll(e, DoEstablish(s, c), c, conn.ConnectEstablished(), ops);
            && c in served.recs
            && Agree(DoDestroy(served, c), c, C.Run(e, conn.ConnectEstablished(), ops).ConnectDestroyed())
  {
    EstablishAgrees(s, c, conn);
    HandlersAgree(e, DoEstablish(s, c), c, conn.ConnectEstablished(), ops);
    DestroyAgrees(ShadowAll(e, DoEstablish(s, c), c, conn.ConnectEstablished(), ops), c,
                  C.Run(e, conn.ConnectEstablished(), ops));
  }
}
