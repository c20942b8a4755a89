/** Graceful half-close: several sends, then a shutdown, by one caller. SHUT_WR must
    wait for every byte, whether the calls run at once on the loop's thread or travel
    through its functor queue. */
module HalfClose {
  import BufferModel
  import Registry
  import opened ConnectionSpec

  type Byte = BufferModel.Byte

  // ---------------------------------------------------------------- the caller is the loop thread

  predicate SendsAndWrites(ops: seq<Op>) {
    forall i :: 0 <= i < |ops| ==> ops[i].SendOp? || ops[i].WriteOp?
  }

  predicate WritesOnly(ops: seq<Op>) {
    forall i :: 0 <= i < |ops| ==> ops[i].WriteOp?
  }

  /** No send of the run meets a fault. */
  predicate Faultless(e: Edition, c: Conn, ops: seq<Op>)
    requires Legal(e, c, ops)
    decreases |ops|
  {
    ops == [] ||
    ((ops[0].SendOp? ==> !c.Faults(ops[0].w)) && Faultless(e, Apply(e, c, ops[0]), ops[1..]))
  }

  /** The payloads the caller handed to send, in order. */
  function Payloads(ops: seq<Op>): seq<Byte> {
    if ops == [] then []
    else (if ops[0].SendOp? then ops[0].data else []) + Payloads(ops[1..])
  }

  predicate AnySend(ops: seq<Op>) {
    exists i :: 0 <= i < |ops| && ops[i].SendOp?
  }

  /** The payload of the first send, and those of the later ones. */
  function FirstPayload(ops: seq<Op>): seq<Byte> {
    if ops == [] then [] else if ops[0].SendOp? then ops[0].data else FirstPayload(ops[1..])
  }

  function LaterPayloads(ops: seq<Op>): seq<Byte> {
    if ops == [] then [] else if ops[0].SendOp? then Payloads(ops[1..]) else LaterPayloads(ops[1..])
  }

  lemma {:induction false} FirstThenLater(ops: seq<Op>)
    ensures Payloads(ops) == FirstPayload(ops) + LaterPayloads(ops)
  {
    if ops != [] {
      FirstThenLater(ops[1..]);
    }
  }

  ghost predicate Established(c: Conn) {
    Open(c) && Mirrors(c) && c.state == Connected && !c.writeShut
  }

  /** What the calls leave behind while no shutdown has been made. */
  function Delivered(e: Edition, c: Conn, ops: seq<Op>): seq<Byte> {
    if c.state != Connected then [] else if e == AsMeant then Payloads(ops) else FirstPayload(ops)
  }

  lemma {:induction false} SendingPhase(e: Edition, c: Conn, ops: seq<Op>)
    requires Open(c) && Mirrors(c) && !c.writeShut
    requires c.state == Connected || (e == AsWritten && c.state == Disconnected)
    requires SendsAndWrites(ops) && Legal(e, c, ops) && Faultless(e, c, ops)
    ensures var d := Run(e, c, ops);
            && Open(d) && Mirrors(d) && !d.writeShut
            && d.state == (if e == AsWritten && AnySend(ops) then Disconnected else c.state)
            && d.wire + d.out == c.wire + c.out + Delivered(e, c, ops)
    decreases |ops|
  {
    if ops != [] {
      var b := Apply(e, c, ops[0]);
      StepMirrors(e, c, ops[0]);
      StepConserves(e, c, ops[0]);
      StepStates(e, c, ops[0]);
      SendingPhase(e, b, ops[1..]);
      assert AnySend(ops) <==> ops[0].SendOp? || AnySend(ops[1..]) by {
        if AnySend(ops) && !ops[0].SendOp? {
          var i :| 0 <= i < |ops| && ops[i].SendOp?;
          assert ops[1..][i - 1].SendOp?;
        }
      }
    }
  }

  lemma StepStates(e: Edition, c: Conn, op: Op)
    requires CanApply(c, op) && !c.writeShut && c.state in {Connected, Disconnected}
    requires op.SendOp? || op.WriteOp?
    ensures var d := Apply(e, c, op);
            && !d.writeShut
            && d.state == if e == AsWritten && op.SendOp? then Disconnected else c.state
  {
    if op.SendOp? {
      TransmitKeeps(c.Entering(e), op.data, op.w);
    }
  }

  lemma TransmitKeeps(c: Conn, data: seq<Byte>, w: WriteResult)
    requires c.Possible(|data|, w)
    ensures c.Transmit(data, w).state == c.state && c.Transmit(data, w).writeShut == c.writeShut
  {
    TransmitEffect(c, data, w);
    var n := c.Written(|data|, w);
    EnqueueEffect(c.(wire := c.wire + data[..n]), data[n..]);
  }

  /** Once shutdown has taken effect, the write side is shut exactly when nothing waits. */
  lemma {:induction false} DrainingPhase(e: Edition, c: Conn, ops: seq<Op>)
    requires Open(c) && Mirrors(c) && WritesOnly(ops) && Legal(e, c, ops)
    requires if c.state == Disconnecting then c.writeShut == (c.out == []) else !c.writeShut
    ensures var d := Run(e, c, ops);
            && d.wire + d.out == c.wire + c.out && d.state == c.state
            && d.writeShut == (c.state == Disconnecting && d.out == [])
    decreases |ops|
  {
    if ops != [] {
      StepMirrors(e, c, ops[0]);
      StepConserves(e, c, ops[0]);
      DrainingPhase(e, Apply(e, c, ops[0]), ops[1..]);
    }
  }

  lemma {:induction false} RunConcat(e: Edition, c: Conn, first: seq<Op>, second: seq<Op>)
    requires Legal(e, c, first + second)
    ensures Legal(e, c, first) && Legal(e, Run(e, c, first), second)
    ensures Run(e, c, first + second) == Run(e, Run(e, c, first), second)
    decreases |first|
  {
    if first == [] {
      assert first + second == second;
    } else {
      assert (first + second)[1..] == first[1..] + second;
      RunConcat(e, Apply(e, c, first[0]), first[1..], second);
    }
  }

  /** Calls made on the loop's thread, with writable events before and after the
      shutdown. As meant, SHUT_WR comes exactly when the last byte has gone. As
      written it needs a send to have been made, and what it waits for is the first
      payload: the half-close is complete if and only if the others are empty. */
  lemma DirectHalfClose(e: Edition, c: Conn, calls: seq<Op>, events: seq<Op>)
    requires Established(c) && SendsAndWrites(calls) && WritesOnly(events)
    requires Legal(e, c, calls + ([ShutdownOp] + events))
    requires Legal(e, c, calls) && Faultless(e, c, calls)
    ensures var d := Run(e, c, calls + ([ShutdownOp] + events));
            && d.writeShut == (d.out == [] && (e == AsMeant || AnySend(calls)))
            && (d.writeShut ==>
                 (d.wire == c.wire + c.out + Payloads(calls) <==> e == AsMeant || LaterPayloads(calls) == []))
  {
    RunConcat(e, c, calls, [ShutdownOp] + events);
    SendingPhase(e, c, calls);
    assert ([ShutdownOp] + events)[1..] == events;
    ShutdownThenDrain(e, Run(e, c, calls), events);
    FirstThenLater(calls);
    OnlyTheFirst(c.wire + c.out, FirstPayload(calls), LaterPayloads(calls));
  }

  lemma ShutdownThenDrain(e: Edition, c: Conn, events: seq<Op>)
    requires Open(c) && Mirrors(c) && !c.writeShut && WritesOnly(events)
    requires Legal(e, c.Shutdown(e), events)
    requires c.state == Connected || c.state == Disconnected
    ensures var d := Run(e, c.Shutdown(e), events);
            && d.writeShut == (c.ShutdownTakes(e) && d.out == [])
            && d.wire + d.out == c.wire + c.out
            && (d.writeShut ==> d.wire == c.wire + c.out)
  {
    DrainingPhase(e, c.Shutdown(e), events);
    var d := Run(e, c.Shutdown(e), events);
    assert d.wire + [] == d.wire;
  }

  lemma OnlyTheFirst(before: seq<Byte>, first: seq<Byte>, later: seq<Byte>)
    ensures before + first == before + (first + later) <==> later == []
  {
    assert first + [] == first;
    assert |before + (first + later)| == |before + first| + |later|;
  }

  // ---------------------------------------------------------------- from the establishment on

  /** As a connection is constructed. */
  predicate Newborn(c: Conn) {
    && c.state == Connecting && c.chan.index == Registry.New && c.chan.events == {}
    && c.out == [] && c.wire == [] && !c.writeShut
  }

  /** connectEstablished makes a new connection one that sends and shuts down. */
  lemma EstablishmentConnects(c: Conn)
    requires Newborn(c)
    ensures var d := c.ConnectEstablished();
            && Established(d)
            && d.chan == Registry.Chan(c.chan.fd, {Registry.EPOLLIN, Registry.EPOLLPRI}, Registry.Added)
            && d == c.(state := Connected, chan := d.chan)
  {
    assert Registry.EPOLLIN in c.ConnectEstablished().chan.events;
    assert {} + Registry.READ_EVENT == Registry.READ_EVENT;
  }

  /** The first send after it, in either edition: what write(2) took is on the wire and
      the rest in the backlog, unless the write meets a broken pipe or a reset. */
  lemma FirstSendArrives(e: Edition, c: Conn, data: seq<Byte>, w: WriteResult)
    requires Newborn(c) && data != [] && -1 <= w.n <= |data|
    ensures var d := c.ConnectEstablished().Send(e, data, w);
            && d.wire == (if w.n > 0 then data[..w.n] else [])
            && (d.wire + d.out == data <==> w.n > 0 || w.errno !in {EPIPE, ECONNRESET})
  {
    var b := c.ConnectEstablished().Entering(e);
    EstablishmentConnects(c);
    TransmitEffect(b, data, w);
    TransmitConserves(b, data, w);
    EnqueueEffect(b.(wire := b.wire + data[..b.Written(|data|, w)]), data[b.Written(|data|, w)..]);
    assert data[..|data|] == data;
  }

  /** The half-close of a connection's whole life on its loop's thread: established,
      then sends and a shutdown among writable events. */
  lemma HalfCloseFromEstablishment(e: Edition, c: Conn, calls: seq<Op>, events: seq<Op>)
    requires Newborn(c) && SendsAndWrites(calls) && WritesOnly(events)
    requires Legal(e, c.ConnectEstablished(), calls + ([ShutdownOp] + events))
    requires Legal(e, c.ConnectEstablished(), calls) && Faultless(e, c.ConnectEstablished(), calls)
    ensures var d := Run(e, c.ConnectEstablished(), calls + ([ShutdownOp] + events));
            && d.writeShut == (d.out == [] && (e == AsMeant || AnySend(calls)))
            && (d.writeShut ==> (d.wire == Payloads(calls) <==> e == AsMeant || LaterPayloads(calls) == []))
  {
    EstablishmentConnects(c);
    DirectHalfClose(e, c.ConnectEstablished(), calls, events);
    assert c.wire + c.out + Payloads(calls) == Payloads(calls);
  }

  // ---------------------------------------------------------------- the calls travel through the queue

  /** A functor of the connection's loop; OtherFn does not concern this connection. */
  datatype Fn = SendFn(data: seq<Byte>) | ShutdownFn | OtherFn

  /** Where the thread stands that makes the calls: in send after the check, with the
      payload, or in shutdown after the store. */
  datatype Caller = Outside | InSend(data: seq<Byte>) | InShutdown

  /** The loop either dispatches events or runs the batch it has taken. */
  datatype Sys = Sys(conn: Conn, running: bool, batch: seq<Fn>, pending: seq<Fn>, caller: Caller)

  datatype Step =
    | Swap
    | RunFn(w: WriteResult)
    | EndBatch
    | WriteReady(w: WriteResult)
    | BeginSend(data: seq<Byte>)
    | PushSend
    | PushShutdown
    | PushOther

  function Payload(q: seq<Fn>): seq<Byte> {
    if q == [] then [] else (if q[0].SendFn? then q[0].data else []) + Payload(q[1..])
  }

  predicate HasSend(q: seq<Fn>) {
    exists i :: 0 <= i < |q| && q[i].SendFn?
  }

  /** The connection neither closes nor faults: those steps are not there. A send
      begins while the connection is connected, so not after the shutdown's store. */
  predicate Enabled(s: Sys, step: Step) {
    match step
    case Swap => !s.running
    case RunFn(w) => s.running && s.batch != [] &&
                     (s.batch[0].SendFn? ==> s.conn.Possible(|s.batch[0].data|, w) && !s.conn.Faults(w))
    case EndBatch => s.running && s.batch == []
    case WriteReady(w) => !s.running && s.conn.IsWriting() && s.conn.Possible(|s.conn.out|, w)
    case BeginSend(_) => s.conn.state == Connected && s.caller == Outside
    case PushSend => s.caller.InSend?
    case PushShutdown => s.caller == InShutdown
    case PushOther => true
  }

  function RunHead(e: Edition, c: Conn, f: Fn, w: WriteResult): Conn
    requires f.SendFn? ==> c.Possible(|f.data|, w)
  {
    match f
    case SendFn(data) => c.SendInLoop(e, data, w)
    case ShutdownFn => c.ShutdownInLoop()
    case OtherFn => c
  }

  function Next(e: Edition, s: Sys, step: Step): Sys
    requires Enabled(s, step)
  {
    match step
    case Swap => s.(running := true, batch := s.pending, pending := [])
    case RunFn(w) => s.(conn := RunHead(e, s.conn, s.batch[0], w), batch := s.batch[1..])
    case EndBatch => s.(running := false)
    case WriteReady(w) => s.(conn := s.conn.HandleWrite(w))
    case BeginSend(data) => s.(caller := InSend(data))
    case PushSend => s.(pending := s.pending + [SendFn(s.caller.data)], caller := Outside)
    case PushShutdown => s.(pending := s.pending + [ShutdownFn], caller := Outside)
    case PushOther => s.(pending := s.pending + [OtherFn])
  }

  predicate Schedulable(e: Edition, s: Sys, steps: seq<Step>)
    decreases |steps|
  {
    steps == [] || (Enabled(s, steps[0]) && Schedulable(e, Next(e, s, steps[0]), steps[1..]))
  }

  function After(e: Edition, s: Sys, steps: seq<Step>): Sys
    requires Schedulable(e, s, steps)
    decreases |steps|
  {
    if steps == [] then s else After(e, Next(e, s, steps[0]), steps[1..])
  }

  /** Where the caller stands when it calls shutdown from another thread: its sends
      are behind it, in the queue or already run. */
  ghost predicate AtShutdown(e: Edition, s: Sys) {
    && Open(s.conn) && Mirrors(s.conn) && !s.conn.writeShut && s.conn.ShutdownTakes(e)
    && ShutdownFn !in s.batch && ShutdownFn !in s.pending && s.caller == Outside
    && (!s.running ==> s.batch == [])
  }

  /** shutdown()'s store; its functor follows in a step of its own. */
  function StoreShutdown(s: Sys): Sys {
    s.(conn := s.conn.(state := Disconnecting), caller := InShutdown)
  }

  function Unsent(s: Sys): seq<Byte> {
    s.conn.out + Payload(s.batch) + Payload(s.pending)
  }

  /** SHUT_WR has not come before the last of the bytes. */
  predicate Complete(s: Sys, all: seq<Byte>) {
    s.conn.writeShut ==> s.conn.wire == all
  }

  /** Whatever the loop and the kernel do from the shutdown on. */
  ghost predicate WaitsFor(e: Edition, s: Sys, all: seq<Byte>) {
    forall steps | Schedulable(e, StoreShutdown(s), steps) :: Complete(After(e, StoreShutdown(s), steps), all)
  }

  ghost predicate AlwaysComplete(e: Edition, s: Sys) {
    WaitsFor(e, s, s.conn.wire + Unsent(s))
  }

  /** No writable event can drain the backlog while the state already says
      kDisconnecting and payloads are still queued for a later batch. */
  predicate SafeToShut(e: Edition, s: Sys) {
    || Payload(s.pending) == []
    || (s.conn.out == [] && (e == AsWritten || Payload(s.batch) == []))
    || (e == AsWritten && HasSend(s.batch))
  }

  // ---- the calls up to the shutdown

  /** The payloads another thread hands to send over a run, in order. */
  function Given(steps: seq<Step>): seq<Byte> {
    if steps == [] then [] else (if steps[0].BeginSend? then steps[0].data else []) + Given(steps[1..])
  }

  /** The payload of a send that has made its check and not yet queued its functor. */
  function InHand(s: Sys): seq<Byte> {
    if s.caller.InSend? then s.caller.data else []
  }

  /** All that is on its way: in the backlog, in the queue, in the caller's hand. */
  function OnTheWay(s: Sys): seq<Byte> {
    Unsent(s) + InHand(s)
  }

  /** No shutdown has been called. */
  ghost predicate Sending(e: Edition, s: Sys) {
    && Open(s.conn) && Mirrors(s.conn) && !s.conn.writeShut
    && ShutdownFn !in s.batch && ShutdownFn !in s.pending && s.caller != InShutdown
    && (!s.running ==> s.batch == [])
    && (s.conn.state == Connected || (e == AsWritten && s.conn.state == Disconnected))
  }

  lemma PushArrives(s: Sys, f: Fn)
    ensures var s' := s.(pending := s.pending + [f]);
            Unsent(s') == Unsent(s) + if f.SendFn? then f.data else []
  {
    PayloadOfConcat(s.pending, [f]);
    assert [f][1..] == [];
    assert Payload([f]) == if f.SendFn? then f.data else [];
  }

  lemma RunArrives(e: Edition, s: Sys, w: WriteResult)
    requires Sending(e, s) && Enabled(s, RunFn(w))
    ensures var s' := Next(e, s, RunFn(w));
            Sending(e, s') && s'.conn.wire + Unsent(s') == s.conn.wire + Unsent(s)
  {
    var s' := Next(e, s, RunFn(w));
    var f := s.batch[0];
    HeadEffect(e, s.conn, f, w);
    var carried := if f.SendFn? then f.data else [];
    assert Payload(s.batch) == carried + Payload(s'.batch);
    Regroup(s'.conn.wire, s'.conn.out, s.conn.wire, s.conn.out, carried, Payload(s'.batch), Payload(s.pending));
    assert f in s.batch;
  }

  lemma WriteArrives(e: Edition, s: Sys, w: WriteResult)
    requires Sending(e, s) && Enabled(s, WriteReady(w))
    ensures var s' := Next(e, s, WriteReady(w));
            Sending(e, s') && s'.conn.wire + Unsent(s') == s.conn.wire + Unsent(s)
  {
    var s' := Next(e, s, WriteReady(w));
    WriteEffect(e, s.conn, w);
    Regroup(s'.conn.wire, s'.conn.out, s.conn.wire, s.conn.out, [], Payload(s.batch), Payload(s.pending));
    assert [] + Payload(s.batch) == Payload(s.batch);
    assert s.conn.wire + s.conn.out + [] == s.conn.wire + s.conn.out;
  }

  lemma CallArrives(e: Edition, s: Sys, step: Step)
    requires Sending(e, s) && Enabled(s, step)
    ensures var s' := Next(e, s, step);
            Sending(e, s') && s'.conn.wire + OnTheWay(s') == s.conn.wire + OnTheWay(s) + Given([step])
  {
    assert [step][1..] == [];
    assert s.conn.wire + OnTheWay(s) + [] == s.conn.wire + OnTheWay(s);
    match step {
      case Swap =>
        assert Payload([]) == [];
        assert s.conn.out + [] + Payload(s.pending) == s.conn.out + Payload(s.pending) + [];
      case RunFn(w) =>
        RunArrives(e, s, w);
        SameHand(s, Next(e, s, step));
      case EndBatch =>
      case WriteReady(w) =>
        WriteArrives(e, s, w);
        SameHand(s, Next(e, s, step));
      case BeginSend(data) =>
        assert Unsent(s) + [] == Unsent(s);
        assert s.conn.wire + (Unsent(s) + data) == s.conn.wire + Unsent(s) + data;
      case PushSend =>
        PushArrives(s, SendFn(s.caller.data));
        assert Unsent(s) + s.caller.data + [] == Unsent(s) + s.caller.data;
      case PushOther => PushArrives(s, OtherFn);
      case _ =>
    }
  }

  lemma SameHand(s: Sys, t: Sys)
    requires t.caller == s.caller && t.conn.wire + Unsent(t) == s.conn.wire + Unsent(s)
    ensures t.conn.wire + OnTheWay(t) == s.conn.wire + OnTheWay(s)
  {
    assert t.conn.wire + OnTheWay(t) == t.conn.wire + Unsent(t) + InHand(t);
    assert s.conn.wire + OnTheWay(s) == s.conn.wire + Unsent(s) + InHand(s);
  }

  /** What another thread hands to send arrives on the socket, in the backlog or in the
      queue, or is in its hand, in order, whatever the loop does meanwhile. */
  lemma {:induction false} CallsArrive(e: Edition, s: Sys, calls: seq<Step>)
    requires Sending(e, s) && Schedulable(e, s, calls)
    ensures var s' := After(e, s, calls);
            Sending(e, s') && s'.conn.wire + OnTheWay(s') == s.conn.wire + OnTheWay(s) + Given(calls)
    decreases |calls|
  {
    if calls == [] {
      assert s.conn.wire + OnTheWay(s) + [] == s.conn.wire + OnTheWay(s);
    } else {
      CallArrives(e, s, calls[0]);
      CallsArrive(e, Next(e, s, calls[0]), calls[1..]);
      GivenAfter(s.conn.wire + OnTheWay(s), calls);
    }
  }

  lemma GivenAfter(before: seq<Byte>, calls: seq<Step>)
    requires calls != []
    ensures before + Given([calls[0]]) + Given(calls[1..]) == before + Given(calls)
  {
    GivenInTurn(calls);
    Associates(before, Given([calls[0]]), Given(calls[1..]));
  }

  lemma Associates(a: seq<Byte>, b: seq<Byte>, c: seq<Byte>)
    ensures a + b + c == a + (b + c)
  {
  }

  lemma GivenInTurn(calls: seq<Step>)
    requires calls != []
    ensures Given(calls) == Given([calls[0]]) + Given(calls[1..])
  {
    assert [calls[0]][1..] == [] && Given([]) == [];
  }

  // ---- what every step keeps

  predicate ShutdownIsLast(q: seq<Fn>) {
    forall i, j :: 0 <= i < j < |q| && q[i].ShutdownFn? ==> !q[j].SendFn?
  }

  predicate Holding(e: Edition, s: Sys) {
    || (e == AsWritten && s.conn.state != Disconnecting)
    || SafeToShut(e, s)
  }

  ghost predicate Inv(e: Edition, s: Sys) {
    && Open(s.conn) && Mirrors(s.conn)
    && s.conn.state in (if e == AsMeant then {Disconnecting} else {Disconnecting, Disconnected})
    && (!s.running ==> s.batch == [])
    && ShutdownIsLast(s.batch + s.pending)
    && !s.caller.InSend? && (s.caller == InShutdown ==> ShutdownFn !in s.batch + s.pending)
    && Holding(e, s)
    && (s.conn.writeShut ==> Unsent(s) == [])
  }

  lemma {:induction false} PayloadOfConcat(p: seq<Fn>, q: seq<Fn>)
    ensures Payload(p + q) == Payload(p) + Payload(q)
  {
    if p == [] {
      assert p + q == q;
    } else {
      assert (p + q)[1..] == p[1..] + q;
      PayloadOfConcat(p[1..], q);
    }
  }

  lemma {:induction false} NoSendNoPayload(q: seq<Fn>)
    requires !HasSend(q)
    ensures Payload(q) == []
  {
    if q != [] {
      assert !q[0].SendFn?;
      assert forall i :: 0 <= i < |q| - 1 ==> q[1..][i] == q[i + 1];
      NoSendNoPayload(q[1..]);
    }
  }

  /** What a functor does to the connection: nothing is lost, the channel stays open. */
  lemma HeadEffect(e: Edition, c: Conn, f: Fn, w: WriteResult)
    requires Open(c) && Mirrors(c) && !c.Refuses(e)
    requires f.SendFn? ==> c.Possible(|f.data|, w) && !c.Faults(w)
    ensures var d := RunHead(e, c, f, w);
            && Open(d) && Mirrors(d)
            && d.wire + d.out == c.wire + c.out + (if f.SendFn? then f.data else [])
            && d.state == (if f.SendFn? && e == AsWritten then Disconnected else c.state)
            && d.writeShut == (c.writeShut || (f.ShutdownFn? && c.out == []))
            && (!f.SendFn? || f.data == [] ==> d.out == c.out)
  {
    if f.SendFn? {
      StepMirrors(e, c, QueuedSendOp(f.data, w));
      StepConserves(e, c, QueuedSendOp(f.data, w));
      TransmitKeeps(c.Entering(e), f.data, w);
      if f.data == [] {
        TransmitEffect(c.Entering(e), f.data, w);
      }
    }
  }

  /** The connection before and after a handleWrite, as far as half-close cares. */
  predicate Wrote(c: Conn, d: Conn) {
    && d.wire + d.out == c.wire + c.out && d.state == c.state
    && (c.out == [] ==> d.out == [])
    && (d.writeShut && !c.writeShut ==> c.state == Disconnecting && c.out != [] && d.out == [])
    && (c.writeShut ==> d.writeShut)
    && (c.state == Disconnecting && c.out != [] && d.out == [] ==> d.writeShut)
  }

  lemma WriteEffect(e: Edition, c: Conn, w: WriteResult)
    requires Open(c) && Mirrors(c) && c.Possible(|c.out|, w)
    ensures var d := c.HandleWrite(w);
            Open(d) && Mirrors(d) && Wrote(c, d)
  {
    StepMirrors(e, c, WriteOp(w));
    StepConserves(e, c, WriteOp(w));
  }

  lemma RunFnKeepsInv(e: Edition, s: Sys, w: WriteResult)
    requires Inv(e, s) && Enabled(s, RunFn(w))
    ensures Inv(e, Next(e, s, RunFn(w)))
    ensures Next(e, s, RunFn(w)).conn.wire + Unsent(Next(e, s, RunFn(w))) == s.conn.wire + Unsent(s)
  {
    var s' := Next(e, s, RunFn(w));
    var f := s.batch[0];
    HeadEffect(e, s.conn, f, w);
    var carried := if f.SendFn? then f.data else [];
    assert Payload(s.batch) == carried + Payload(s'.batch);
    Regroup(s'.conn.wire, s'.conn.out, s.conn.wire, s.conn.out, carried, Payload(s'.batch), Payload(s.pending));
    assert (s.batch + s.pending)[1..] == s'.batch + s'.pending;
    if f.ShutdownFn? {
      AfterShutdownNothing(s.batch + s.pending);
      PayloadOfConcat(s'.batch, s'.pending);
    }
    HasSendInTail(s.batch);
    if s.conn.writeShut {
      assert carried == [] && Payload(s'.batch) == [] && Payload(s'.pending) == [];
    }
  }

  lemma Regroup(wire': seq<Byte>, out': seq<Byte>, wire: seq<Byte>, out: seq<Byte>,
                carried: seq<Byte>, batch: seq<Byte>, pending: seq<Byte>)
    requires wire' + out' == wire + out + carried
    ensures wire' + (out' + batch + pending) == wire + (out + (carried + batch) + pending)
  {
    assert wire' + (out' + batch + pending) == (wire' + out') + batch + pending;
    assert wire + (out + (carried + batch) + pending) == (wire + out + carried) + batch + pending;
  }

  lemma HasSendInTail(q: seq<Fn>)
    requires q != []
    ensures HasSend(q) <==> q[0].SendFn? || HasSend(q[1..])
  {
    if HasSend(q) && !q[0].SendFn? {
      var i :| 0 <= i < |q| && q[i].SendFn?;
      assert q[1..][i - 1].SendFn?;
    }
  }

  lemma AfterShutdownNothing(q: seq<Fn>)
    requires q != [] && q[0].ShutdownFn? && ShutdownIsLast(q)
    ensures Payload(q[1..]) == []
  {
    assert forall j :: 0 <= j < |q| - 1 ==> q[1..][j] == q[j + 1];
    NoSendNoPayload(q[1..]);
  }

  lemma WroteKeepsInv(e: Edition, s: Sys, d: Conn)
    requires Inv(e, s) && !s.running && Open(d) && Mirrors(d) && Wrote(s.conn, d)
    ensures var s' := s.(conn := d);
            Inv(e, s') && s'.conn.wire + Unsent(s') == s.conn.wire + Unsent(s)
  {
    var s' := s.(conn := d);
    assert s.conn.wire + Unsent(s) == (s.conn.wire + s.conn.out) + Payload(s.batch) + Payload(s.pending);
    assert s'.conn.wire + Unsent(s') == (d.wire + d.out) + Payload(s.batch) + Payload(s.pending);
  }

  lemma StepKeepsInv(e: Edition, s: Sys, step: Step)
    requires Inv(e, s) && Enabled(s, step)
    ensures Inv(e, Next(e, s, step))
    ensures Next(e, s, step).conn.wire + Unsent(Next(e, s, step)) == s.conn.wire + Unsent(s)
  {
    var s' := Next(e, s, step);
    match step {
      case RunFn(w) => RunFnKeepsInv(e, s, w);
      case WriteReady(w) =>
        WriteEffect(e, s.conn, w);
        WroteKeepsInv(e, s, s.conn.HandleWrite(w));
      case Swap =>
        assert s.batch + s.pending == s'.batch + s'.pending;
        assert Unsent(s') == Unsent(s);
      case EndBatch =>
      case BeginSend(_) =>
      case PushSend =>
      case PushShutdown => PushKeepsInv(e, s, ShutdownFn);
      case PushOther => PushKeepsInv(e, s, OtherFn);
    }
  }

  lemma PushKeepsInv(e: Edition, s: Sys, f: Fn)
    requires Inv(e, s) && !f.SendFn? && (f.ShutdownFn? ==> s.caller == InShutdown)
    ensures var s' := s.(pending := s.pending + [f], caller := if f.ShutdownFn? then Outside else s.caller);
            Inv(e, s') && Unsent(s') == Unsent(s)
  {
    var s' := s.(pending := s.pending + [f], caller := if f.ShutdownFn? then Outside else s.caller);
    PayloadOfConcat(s.pending, [f]);
    assert [f][1..] == [];
    assert s'.batch + s'.pending == s.batch + s.pending + [f];
  }

  lemma {:induction false} RunKeepsInv(e: Edition, s: Sys, steps: seq<Step>)
    requires Inv(e, s) && Schedulable(e, s, steps)
    ensures Inv(e, After(e, s, steps))
    ensures After(e, s, steps).conn.wire + Unsent(After(e, s, steps)) == s.conn.wire + Unsent(s)
    decreases |steps|
  {
    if steps != [] {
      StepKeepsInv(e, s, steps[0]);
      RunKeepsInv(e, Next(e, s, steps[0]), steps[1..]);
    }
  }

  // ---- what goes wrong otherwise

  const BLOCKED: WriteResult := WriteResult(-1, EWOULDBLOCK)

  /** A write that blocks leaves the whole payload in the backlog. */
  lemma BlockedHead(e: Edition, c: Conn, f: Fn)
    requires !c.Refuses(e)
    ensures var d := RunHead(e, c, f, BLOCKED);
            d.wire == c.wire && d.out == c.out + if f.SendFn? then f.data else []
  {
    if f.SendFn? {
      var b := c.Entering(e);
      TransmitEffect(b, f.data, BLOCKED);
      EnqueueEffect(b.(wire := b.wire + f.data[..0]), f.data[0..]);
      assert c.wire + f.data[..0] == c.wire && f.data[0..] == f.data && c.out + [] == c.out;
    } else {
      assert c.out + [] == c.out;
    }
  }

  /** The opposite of safe, for a shutdown that has been stored. */
  ghost predicate Exposed(e: Edition, s: Sys) {
    && Open(s.conn) && Mirrors(s.conn) && !s.conn.writeShut && s.conn.state == Disconnecting
    && ShutdownFn !in s.batch && (!s.running ==> s.batch == [])
    && Payload(s.pending) != []
    && (s.conn.out != [] || (e == AsMeant && Payload(s.batch) != []))
    && (e == AsWritten ==> !HasSend(s.batch))
  }

  lemma ExposedHead(e: Edition, s: Sys)
    requires Exposed(e, s) && s.running && s.batch != []
    ensures Enabled(s, RunFn(BLOCKED))
    ensures var s' := Next(e, s, RunFn(BLOCKED));
            Exposed(e, s') && |s'.conn.wire + Unsent(s')| == |s.conn.wire + Unsent(s)|
  {
    var f := s.batch[0];
    assert f in s.batch && !f.ShutdownFn?;
    assert !s.conn.Faults(BLOCKED);
    HeadEffect(e, s.conn, f, BLOCKED);
    BlockedHead(e, s.conn, f);
    HasSendInTail(s.batch);
    var s' := Next(e, s, RunFn(BLOCKED));
    assert Payload(s.batch) == (if f.SendFn? then f.data else []) + Payload(s'.batch);
  }

  /** The schedule: writes block until the batch is over, then the socket takes the
      whole backlog before the next batch. */
  lemma {:induction false} PrematureShutdown(e: Edition, s: Sys) returns (steps: seq<Step>)
    requires Exposed(e, s)
    ensures Schedulable(e, s, steps)
    ensures After(e, s, steps).conn.writeShut
    ensures |After(e, s, steps).conn.wire| < |s.conn.wire + Unsent(s)|
    decreases s.running, |s.batch|
  {
    if !s.running {
      var all := WriteResult(|s.conn.out|, OtherErrno);
      WriteEffect(e, s.conn, all);
      steps := [WriteReady(all)];
      assert steps[1..] == [];
      var s' := Next(e, s, WriteReady(all));
      assert After(e, s, steps) == s';
      assert |s'.conn.wire| + |s'.conn.out| == |s.conn.wire| + |s.conn.out|;
    } else if s.batch == [] {
      var rest := PrematureShutdown(e, Next(e, s, EndBatch));
      steps := [EndBatch] + rest;
      assert steps[1..] == rest;
    } else {
      ExposedHead(e, s);
      var rest := PrematureShutdown(e, Next(e, s, RunFn(BLOCKED)));
      steps := [RunFn(BLOCKED)] + rest;
      assert steps[1..] == rest;
    }
  }

  /** A shutdown called from another thread waits for every byte, under every
      schedule, if and only if it is safe where it is called. */
  lemma QueuedHalfClose(e: Edition, s: Sys)
    requires AtShutdown(e, s)
    ensures AlwaysComplete(e, s) <==> SafeToShut(e, s)
  {
    var s0 := StoreShutdown(s);
    assert Unsent(s0) == Unsent(s);
    if SafeToShut(e, s) {
      assert SafeToShut(e, s0);
      assert Inv(e, s0);
      forall steps | Schedulable(e, s0, steps)
        ensures Complete(After(e, s0, steps), s.conn.wire + Unsent(s))
      {
        RunKeepsInv(e, s0, steps);
        var d := After(e, s0, steps);
        assert d.conn.wire + [] == d.conn.wire;
      }
    } else {
      var steps := PrematureShutdown(e, s0);
      assert !Complete(After(e, s0, steps), s.conn.wire + Unsent(s));
    }
  }

  /** Several sends and then a shutdown, all by another thread: SHUT_WR waits for every
      byte they were given, under every schedule, if and only if it is safe where the
      shutdown is called. */
  lemma QueuedCalls(e: Edition, s: Sys, calls: seq<Step>)
    requires Sending(e, s) && Schedulable(e, s, calls)
    requires After(e, s, calls).caller == Outside && After(e, s, calls).conn.ShutdownTakes(e)
    ensures var s' := After(e, s, calls);
            WaitsFor(e, s', s.conn.wire + OnTheWay(s) + Given(calls)) <==> SafeToShut(e, s')
  {
    CallsArrive(e, s, calls);
    var s' := After(e, s, calls);
    assert Unsent(s') + [] == Unsent(s');
    QueuedHalfClose(e, s');
  }

  // ---- and when the shutdown does come

  /** Nothing of the caller's is under way any more. */
  predicate Quiet(s: Sys) {
    s.caller == Outside && s.batch == [] && s.pending == [] && s.conn.out == []
  }

  /** Whenever it gets quiet, the write side is shut. */
  ghost predicate AlwaysShuts(e: Edition, s: Sys) {
    forall steps | Schedulable(e, StoreShutdown(s), steps) ::
      Quiet(After(e, StoreShutdown(s), steps)) ==> After(e, StoreShutdown(s), steps).conn.writeShut
  }

  ghost predicate Stopped(s: Sys) {
    && Open(s.conn) && Mirrors(s.conn) && (!s.running ==> s.batch == [])
    && s.conn.state in {Disconnecting, Disconnected} && !s.caller.InSend?
  }

  predicate ShutQueued(s: Sys) {
    s.conn.writeShut || s.caller == InShutdown || ShutdownFn in s.batch || ShutdownFn in s.pending
  }

  /** The state still says kDisconnecting, and no send will change that. */
  ghost predicate Steady(e: Edition, s: Sys) {
    && Stopped(s) && s.conn.state == Disconnecting
    && (e == AsMeant || (!HasSend(s.batch) && !HasSend(s.pending)))
    && (ShutQueued(s) || s.conn.out != [])
  }

  /** There is nothing to send. */
  ghost predicate Hollow(e: Edition, s: Sys) {
    Stopped(s) && (e == AsMeant ==> s.conn.state == Disconnecting) && Unsent(s) == [] && ShutQueued(s)
  }

  lemma OutStays(c: Conn, data: seq<Byte>, w: WriteResult)
    requires c.out != [] && c.Possible(|data|, w)
    ensures c.Transmit(data, w).out != []
  {
    TransmitEffect(c, data, w);
    EnqueueEffect(c.(wire := c.wire + data[..c.Written(|data|, w)]), data[c.Written(|data|, w)..]);
  }

  lemma RunSteady(e: Edition, s: Sys, w: WriteResult)
    requires Steady(e, s) && Enabled(s, RunFn(w))
    ensures Steady(e, Next(e, s, RunFn(w)))
  {
    HeadEffect(e, s.conn, s.batch[0], w);
    HasSendInTail(s.batch);
    assert s.batch == [s.batch[0]] + s.batch[1..];
    if s.conn.out != [] && s.batch[0].SendFn? {
      OutStays(s.conn, s.batch[0].data, w);
    }
  }

  lemma StepSteady(e: Edition, s: Sys, step: Step)
    requires Steady(e, s) && Enabled(s, step)
    ensures Steady(e, Next(e, s, step))
  {
    match step {
      case RunFn(w) => RunSteady(e, s, w);
      case WriteReady(w) => WriteEffect(e, s.conn, w);
      case PushShutdown => assert ShutdownFn in s.pending + [ShutdownFn];
      case _ =>
    }
  }

  lemma RunHollow(e: Edition, s: Sys, w: WriteResult)
    requires Hollow(e, s) && Enabled(s, RunFn(w))
    ensures Hollow(e, Next(e, s, RunFn(w)))
  {
    HeadEffect(e, s.conn, s.batch[0], w);
    assert s.batch == [s.batch[0]] + s.batch[1..];
    assert Payload(s.batch) == (if s.batch[0].SendFn? then s.batch[0].data else []) + Payload(s.batch[1..]);
  }

  lemma StepHollow(e: Edition, s: Sys, step: Step)
    requires Hollow(e, s) && Enabled(s, step)
    ensures Hollow(e, Next(e, s, step))
  {
    match step {
      case RunFn(w) => RunHollow(e, s, w);
      case WriteReady(w) => WriteEffect(e, s.conn, w);
      case PushShutdown => PushArrives(s, ShutdownFn);
      case PushOther => PushArrives(s, OtherFn);
      case _ =>
    }
  }

  lemma {:induction false} RunShuts(e: Edition, s: Sys, steps: seq<Step>)
    requires (Steady(e, s) || Hollow(e, s)) && Schedulable(e, s, steps)
    ensures Steady(e, After(e, s, steps)) || Hollow(e, After(e, s, steps))
    decreases |steps|
  {
    if steps != [] {
      if Steady(e, s) {
        StepSteady(e, s, steps[0]);
      } else {
        StepHollow(e, s, steps[0]);
      }
      RunShuts(e, Next(e, s, steps[0]), steps[1..]);
    }
  }

  /** A batch whose writes all block leaves its payloads in the backlog, and its sends,
      as written, the state at kDisconnected. */
  lemma {:induction false} BlockedBatch(s: Sys) returns (steps: seq<Step>, t: Sys)
    requires Stopped(s) && s.running && !s.conn.writeShut
    requires ShutdownFn in s.batch ==> s.batch[|s.batch| - 1].ShutdownFn? && ShutdownFn !in s.batch[..|s.batch| - 1]
    requires ShutdownFn in s.batch ==> s.conn.out + Payload(s.batch) != []
    ensures Schedulable(AsWritten, s, steps) && After(AsWritten, s, steps) == t
    ensures Stopped(t) && t.batch == [] && !t.running && !t.conn.writeShut
    ensures t.conn.wire == s.conn.wire && t.conn.out == s.conn.out + Payload(s.batch)
    ensures t.pending == s.pending && t.caller == s.caller
    ensures t.conn.state == if HasSend(s.batch) then Disconnected else s.conn.state
    decreases |s.batch|
  {
    if s.batch == [] {
      steps := [EndBatch];
      assert steps[1..] == [];
      t := Next(AsWritten, s, EndBatch);
      assert s.conn.out + Payload(s.batch) == s.conn.out;
    } else {
      var u := BlockedOne(s);
      var rest;
      rest, t := BlockedBatch(u);
      steps := [RunFn(BLOCKED)] + rest;
      assert steps[1..] == rest;
      HasSendInTail(s.batch);
      BlockedPayload(s, u);
    }
  }

  lemma BlockedPayload(s: Sys, u: Sys)
    requires s.batch != [] && u.batch == s.batch[1..]
    requires u.conn.out == s.conn.out + if s.batch[0].SendFn? then s.batch[0].data else []
    ensures u.conn.out + Payload(u.batch) == s.conn.out + Payload(s.batch)
  {
    var head := if s.batch[0].SendFn? then s.batch[0].data else [];
    assert Payload(s.batch) == head + Payload(u.batch);
    assert s.conn.out + (head + Payload(u.batch)) == s.conn.out + head + Payload(u.batch);
  }

  lemma BlockedOne(s: Sys) returns (u: Sys)
    requires Stopped(s) && s.running && !s.conn.writeShut && s.batch != []
    requires ShutdownFn in s.batch ==> s.batch[|s.batch| - 1].ShutdownFn? && ShutdownFn !in s.batch[..|s.batch| - 1]
    requires ShutdownFn in s.batch ==> s.conn.out + Payload(s.batch) != []
    ensures Enabled(s, RunFn(BLOCKED)) && u == Next(AsWritten, s, RunFn(BLOCKED))
    ensures Stopped(u) && u.running && !u.conn.writeShut && u.batch == s.batch[1..]
    ensures u.conn.wire == s.conn.wire
    ensures u.conn.out == s.conn.out + if s.batch[0].SendFn? then s.batch[0].data else []
    ensures u.conn.state == if s.batch[0].SendFn? then Disconnected else s.conn.state
    ensures u.pending == s.pending && u.caller == s.caller
    ensures ShutdownFn in u.batch ==> u.batch[|u.batch| - 1].ShutdownFn? && ShutdownFn !in u.batch[..|u.batch| - 1]
    ensures ShutdownFn in u.batch ==> u.conn.out + Payload(u.batch) != []
  {
    var f := s.batch[0];
    assert !s.conn.Faults(BLOCKED);
    HeadEffect(AsWritten, s.conn, f, BLOCKED);
    BlockedHead(AsWritten, s.conn, f);
    u := Next(AsWritten, s, RunFn(BLOCKED));
    BlockedPayload(s, u);
    assert f in s.batch;
    if f.ShutdownFn? {
      FirstIsNotLast(s.batch);
      assert Payload(s.batch) == [] + Payload([]);
    }
    ShutdownStaysLast(s.batch);
  }

  lemma FirstIsNotLast(q: seq<Fn>)
    ensures |q| > 1 ==> q[0] in q[..|q| - 1]
  {
    if |q| > 1 {
      assert q[..|q| - 1][0] == q[0];
    }
  }

  lemma ShutdownStaysLast(q: seq<Fn>)
    requires q != [] && (ShutdownFn in q ==> q[|q| - 1].ShutdownFn? && ShutdownFn !in q[..|q| - 1])
    ensures var r := q[1..];
            ShutdownFn in r ==> ShutdownFn in q && r[|r| - 1].ShutdownFn? && ShutdownFn !in r[..|r| - 1]
  {
    var r := q[1..];
    if ShutdownFn in r {
      assert r[|r| - 1] == q[|q| - 1];
      assert r[..|r| - 1] == q[..|q| - 1][1..];
    }
  }

  /** A run that ends quiet with the write side open. */
  ghost predicate StaysOpen(s: Sys) {
    exists steps: seq<Step> :: Schedulable(AsWritten, s, steps) && LeftOpen(After(AsWritten, s, steps))
  }

  predicate LeftOpen(s: Sys) {
    Quiet(s) && !s.conn.writeShut
  }

  lemma {:induction false} OpenAfter(s: Sys, steps: seq<Step>)
    requires Schedulable(AsWritten, s, steps) && StaysOpen(After(AsWritten, s, steps))
    ensures StaysOpen(s)
    decreases |steps|
  {
    if steps != [] {
      OpenAfter(Next(AsWritten, s, steps[0]), steps[1..]);
      var rest: seq<Step> :| Schedulable(AsWritten, Next(AsWritten, s, steps[0]), rest)
                             && LeftOpen(After(AsWritten, Next(AsWritten, s, steps[0]), rest));
      var all := [steps[0]] + rest;
      assert all[1..] == rest;
      assert Schedulable(AsWritten, s, all) && LeftOpen(After(AsWritten, s, all));
    }
  }

  lemma OpenAfterStep(s: Sys, step: Step)
    requires Enabled(s, step) && StaysOpen(Next(AsWritten, s, step))
    ensures StaysOpen(s)
  {
    var s', steps := Next(AsWritten, s, step), [step];
    assert steps[0] == step && steps[1..] == [];
    assert Schedulable(AsWritten, s', []) && After(AsWritten, s', []) == s';
    assert Schedulable(AsWritten, s, steps) && After(AsWritten, s, steps) == s';
    OpenAfter(s, steps);
  }

  /** The backlog goes out after a send has reset the state. */
  lemma DrainedOpen(s: Sys)
    requires Stopped(s) && !s.running && s.pending == [] && s.caller == Outside && !s.conn.writeShut
    requires s.conn.state == Disconnected && s.conn.out != []
    ensures StaysOpen(s)
  {
    var all := WriteResult(|s.conn.out|, OtherErrno);
    WriteEffect(AsWritten, s.conn, all);
    var t := Next(AsWritten, s, WriteReady(all));
    assert LeftOpen(t);
    assert Schedulable(AsWritten, t, []) && After(AsWritten, t, []) == t;
    OpenAfterStep(s, WriteReady(all));
  }

  /** The last batch: what is queued, and the shutdown behind it. */
  lemma LastBatchOpen(s: Sys)
    requires Stopped(s) && !s.running && s.caller == InShutdown && !s.conn.writeShut && ShutdownFn !in s.pending
    requires s.conn.out + Payload(s.pending) != [] && (s.conn.state == Disconnected || HasSend(s.pending))
    ensures StaysOpen(s)
  {
    var u := Next(AsWritten, s, PushShutdown);
    var v := Next(AsWritten, u, Swap);
    PayloadOfConcat(s.pending, [ShutdownFn]);
    assert [ShutdownFn][1..] == [] && Payload([ShutdownFn]) == [];
    assert Payload(v.batch) == Payload(s.pending) + [];
    assert v.batch[..|v.batch| - 1] == s.pending;
    if HasSend(s.pending) {
      var i :| 0 <= i < |s.pending| && s.pending[i].SendFn?;
      assert v.batch[i].SendFn?;
    }
    var steps, t := BlockedBatch(v);
    DrainedOpen(t);
    OpenAfter(v, steps);
    OpenAfterStep(u, Swap);
    OpenAfterStep(s, PushShutdown);
  }

  lemma SendBehindOpens(s: Sys)
    requires AtShutdown(AsWritten, s) && (HasSend(s.batch) || HasSend(s.pending)) && Unsent(s) != []
    ensures StaysOpen(StoreShutdown(s))
  {
    var s0 := StoreShutdown(s);
    if s.running {
      var steps, t := BlockedBatch(s0);
      assert t.conn.out + Payload(t.pending) == Unsent(s);
      LastBatchOpen(t);
      OpenAfter(s0, steps);
    } else {
      assert Payload(s.batch) == [] && !HasSend(s.batch);
      assert s.conn.out + [] + Payload(s.pending) == s.conn.out + Payload(s.pending);
      LastBatchOpen(s0);
    }
  }

  /** When SHUT_WR comes, exactly: as meant it always has once the queue and the backlog
      are empty; as written if and only if no send was queued where the shutdown was
      called, or nothing at all was left to write. */
  lemma QuietMeansShut(e: Edition, s: Sys)
    requires AtShutdown(e, s)
    ensures AlwaysShuts(e, s)
            <==> e == AsMeant || (!HasSend(s.batch) && !HasSend(s.pending)) || Unsent(s) == []
  {
    var s0 := StoreShutdown(s);
    assert Unsent(s0) == Unsent(s);
    if e == AsMeant || (!HasSend(s.batch) && !HasSend(s.pending)) || Unsent(s) == [] {
      forall steps | Schedulable(e, s0, steps)
        ensures Quiet(After(e, s0, steps)) ==> After(e, s0, steps).conn.writeShut
      {
        RunShuts(e, s0, steps);
      }
    } else {
      SendBehindOpens(s);
      var steps: seq<Step> :| Schedulable(AsWritten, s0, steps) && LeftOpen(After(AsWritten, s0, steps));
      assert Quiet(After(e, s0, steps)) && !After(e, s0, steps).conn.writeShut;
    }
  }
}
