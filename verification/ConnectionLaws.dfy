/** What the handlers do to a connection, said from the flags, the mask, the backlog
    and the results of the system calls alone. */
module ConnectionLaws {
  import BufferModel
  import Registry
  import opened ConnectionSpec

  type Byte = BufferModel.Byte
  type ReadResult = BufferModel.ReadResult
  type Mask = Registry.Mask

  // ---------------------------------------------------------------- one dispatch

  /** The channel asks for room to write. */
  predicate Watches(c: Conn) {
    Registry.EPOLLOUT in c.chan.events
  }

  predicate HangsUp(revents: Mask) {
    Registry.EPOLLHUP in revents && Registry.EPOLLIN !in revents
  }

  predicate Readable(revents: Mask) {
    Registry.EPOLLIN in revents || Registry.EPOLLPRI in revents
  }

  predicate Ends(revents: Mask, r: ReadResult) {
    Readable(revents) && r == BufferModel.Received([])
  }

  /** How much of the backlog one event moves to the wire: what the socket took, if it
      was asked at all. A channel that has closed is not watching any more. */
  function EventMoves(c: Conn, revents: Mask, r: ReadResult, w: WriteResult): nat {
    if Registry.EPOLLOUT in revents && Watches(c) && !HangsUp(revents) && !Ends(revents, r) && w.n > 0
    then w.n
    else 0
  }

  function AfterRead(c: Conn, revents: Mask, r: ReadResult): Conn {
    var closed := if HangsUp(revents) then c.HandleClose() else c;
    if Readable(revents) then closed.HandleRead(r) else closed
  }

  lemma DispatchInTurn(c: Conn, revents: Mask, r: ReadResult, w: WriteResult)
    requires c.Possible(|c.out|, w)
    ensures var read := AfterRead(c, revents, r);
            && read.Possible(|read.out|, w)
            && Dispatch(c, revents, r, w)
               == if Registry.EPOLLOUT in revents then read.HandleWrite(w) else read
  {
  }

  lemma ReadLeaves(c: Conn, revents: Mask, r: ReadResult)
    ensures var d, closed := AfterRead(c, revents, r), HangsUp(revents) || Ends(revents, r);
            && d.closes == c.closes + (if HangsUp(revents) then 1 else 0) + (if Ends(revents, r) then 1 else 0)
            && d.input == c.input + (if Readable(revents) && r.Received? then r.data else [])
            && d.state == (if closed then Disconnected else c.state)
            && d.chan.events == (if closed then {} else c.chan.events)
            && d == c.(closes := d.closes, input := d.input, state := d.state, chan := d.chan)
  {
    assert c.input + [] == c.input;
  }

  lemma WriteMoves(c: Conn, w: WriteResult)
    requires c.Possible(|c.out|, w)
    ensures var d, moved := c.HandleWrite(w), if Watches(c) && w.n > 0 then w.n else 0;
            var drained := moved > 0 && moved == |c.out|;
            && moved <= |c.out| && d.wire == c.wire + c.out[..moved] && d.out == c.out[moved..]
            && d.chan.events == (if drained then c.chan.events - {Registry.EPOLLOUT} else c.chan.events)
            && d.writeShut == (c.writeShut || (drained && c.state == Disconnecting))
            && d.notices == c.notices + (if drained && c.hasWriteComplete then [WriteComplete] else [])
            && d.state == c.state && d.closes == c.closes && d.input == c.input
  {
    assert c.out[..0] == [] && c.wire + [] == c.wire && c.out[0..] == c.out && c.notices + [] == c.notices;
  }

  /** One reported event, from its flags: a hang-up without input closes, and so does
      the end of the file that input or urgent data turned out to be; what was received
      is behind the unread input, what was sent has left the backlog from the front. */
  lemma DispatchFromFlags(c: Conn, revents: Mask, r: ReadResult, w: WriteResult)
    requires c.Possible(|c.out|, w)
    ensures var d, moved := Dispatch(c, revents, r, w), EventMoves(c, revents, r, w);
            && d.closes == c.closes + (if HangsUp(revents) then 1 else 0) + (if Ends(revents, r) then 1 else 0)
            && d.input == c.input + (if Readable(revents) && r.Received? then r.data else [])
            && moved <= |c.out| && d.wire == c.wire + c.out[..moved] && d.out == c.out[moved..]
  {
    DispatchInTurn(c, revents, r, w);
    ReadLeaves(c, revents, r);
    WriteMoves(AfterRead(c, revents, r), w);
    assert c.out[..0] == [] && c.wire + [] == c.wire && c.out[0..] == c.out;
  }

  /** And what becomes of state, mask and write side. The write side is shut by the
      event that empties the backlog of a connection that is disconnecting. */
  lemma DispatchSettles(c: Conn, revents: Mask, r: ReadResult, w: WriteResult)
    requires c.Possible(|c.out|, w)
    ensures var d, moved := Dispatch(c, revents, r, w), EventMoves(c, revents, r, w);
            var closed, drained := HangsUp(revents) || Ends(revents, r), moved > 0 && moved == |c.out|;
            && d.state == (if closed then Disconnected else c.state)
            && d.chan.events
               == (if closed then {} else if drained then c.chan.events - {Registry.EPOLLOUT} else c.chan.events)
            && d.writeShut == (c.writeShut || (drained && c.state == Disconnecting))
            && d.notices == c.notices + if drained && c.hasWriteComplete then [WriteComplete] else []
  {
    DispatchInTurn(c, revents, r, w);
    ReadLeaves(c, revents, r);
    WriteMoves(AfterRead(c, revents, r), w);
    assert c.notices + [] == c.notices;
  }

  // ---------------------------------------------------------------- events are runs

  datatype Report = Report(revents: Mask, r: ReadResult, w: WriteResult)

  /** The handlers one event runs, by its flags. */
  function HandlersOf(report: Report): seq<Op> {
    (if HangsUp(report.revents) then [CloseOp] else [])
    + (if Readable(report.revents) then [ReadOp(report.r)] else [])
    + (if Registry.EPOLLOUT in report.revents then [WriteOp(report.w)] else [])
  }

  function HandlersOfAll(reports: seq<Report>): seq<Op> {
    if reports == [] then [] else HandlersOf(reports[0]) + HandlersOfAll(reports[1..])
  }

  predicate PossibleAll(c: Conn, reports: seq<Report>)
    decreases |reports|
  {
    reports == [] ||
    (c.Possible(|c.out|, reports[0].w) &&
     PossibleAll(Dispatch(c, reports[0].revents, reports[0].r, reports[0].w), reports[1..]))
  }

  function DispatchAll(c: Conn, reports: seq<Report>): Conn
    decreases |reports|
  {
    if reports == [] then c
    else DispatchAll(Dispatch(c, reports[0].revents, reports[0].r, reports[0].w), reports[1..])
  }

  lemma {:induction false} RunsConcat(e: Edition, c: Conn, first: seq<Op>, second: seq<Op>)
    requires Legal(e, c, first) && Legal(e, Run(e, c, first), second)
    ensures Legal(e, c, first + second)
    ensures Run(e, c, first + second) == Run(e, Run(e, c, first), second)
    decreases |first|
  {
    if first == [] {
      assert first + second == second;
    } else {
      assert (first + second)[1..] == first[1..] + second;
      RunsConcat(e, Apply(e, c, first[0]), first[1..], second);
    }
  }

  lemma OptionalOp(e: Edition, c: Conn, op: Op, runs: bool)
    requires CanApply(c, op)
    ensures Legal(e, c, if runs then [op] else [])
    ensures Run(e, c, if runs then [op] else []) == if runs then Apply(e, c, op) else c
  {
    assert [op][1..] == [];
  }

  /** The handlers of an event in turn. */
  lemma DispatchIsRun(e: Edition, c: Conn, report: Report)
    requires c.Possible(|c.out|, report.w)
    ensures Legal(e, c, HandlersOf(report))
    ensures Run(e, c, HandlersOf(report)) == Dispatch(c, report.revents, report.r, report.w)
  {
    var closed := if HangsUp(report.revents) then c.HandleClose() else c;
    var read := AfterRead(c, report.revents, report.r);
    DispatchInTurn(c, report.revents, report.r, report.w);
    OptionalOp(e, c, CloseOp, HangsUp(report.revents));
    OptionalOp(e, closed, ReadOp(report.r), Readable(report.revents));
    OptionalOp(e, read, WriteOp(report.w), Registry.EPOLLOUT in report.revents);
    var close := if HangsUp(report.revents) then [CloseOp] else [];
    var input := if Readable(report.revents) then [ReadOp(report.r)] else [];
    RunsConcat(e, c, close, input);
    RunsConcat(e, c, close + input, if Registry.EPOLLOUT in report.revents then [WriteOp(report.w)] else []);
  }

  /** So every law about runs is one about events, whatever their flags. */
  lemma {:induction false} EventsAreRuns(e: Edition, c: Conn, reports: seq<Report>)
    requires PossibleAll(c, reports)
    ensures Legal(e, c, HandlersOfAll(reports))
    ensures Run(e, c, HandlersOfAll(reports)) == DispatchAll(c, reports)
    decreases |reports|
  {
    if reports != [] {
      DispatchIsRun(e, c, reports[0]);
      EventsAreRuns(e, Dispatch(c, reports[0].revents, reports[0].r, reports[0].w), reports[1..]);
      RunsConcat(e, c, HandlersOf(reports[0]), HandlersOfAll(reports[1..]));
    }
  }

  // ---------------------------------------------------------------- input

  /** What the successful reads of a run delivered, in order. */
  function Delivered(ops: seq<Op>): seq<Byte> {
    if ops == [] then []
    else (if ops[0].ReadOp? && ops[0].r.Received? then ops[0].r.data else []) + Delivered(ops[1..])
  }

  lemma StepInput(e: Edition, c: Conn, op: Op)
    requires CanApply(c, op)
    ensures Apply(e, c, op).input == c.input + if op.ReadOp? && op.r.Received? then op.r.data else []
  {
    assert c.input + [] == c.input;
    if op.SendOp? || op.QueuedSendOp? {
      TransmitLeaves(c.Entering(e), op.data, op.w);
    }
  }

  lemma TransmitLeaves(c: Conn, data: seq<Byte>, w: WriteResult)
    requires c.Possible(|data|, w)
    ensures var d := c.Transmit(data, w);
            && d.input == c.input && d.state == c.state && d.closes == c.closes && d.writeShut == c.writeShut
            && (|| d.chan.events == c.chan.events
                || (d.out != c.out && d.chan.events == c.chan.events + {Registry.EPOLLOUT}))
  {
    TransmitEffect(c, data, w);
    var n := c.Written(|data|, w);
    if !c.Faults(w) && n < |data| {
      EnqueueEffect(c.(wire := c.wire + data[..n]), data[n..]);
      assert |c.out + data[n..]| > |c.out|;
    }
  }

  /** Input conservation: the unread input is what it was and then what the reads of
      the run delivered; writes, sends, shutdowns, closes and failed reads leave it. */
  lemma {:induction false} InputConservation(e: Edition, c: Conn, ops: seq<Op>)
    requires Legal(e, c, ops)
    ensures Run(e, c, ops).input == c.input + Delivered(ops)
    decreases |ops|
  {
    if ops == [] {
      assert c.input + [] == c.input;
    } else {
      StepInput(e, c, ops[0]);
      InputConservation(e, Apply(e, c, ops[0]), ops[1..]);
    }
  }

  /** What the socket received over a sequence of events that asked for a read. */
  function Arrived(reports: seq<Report>): seq<Byte> {
    if reports == [] then []
    else (if Readable(reports[0].revents) && reports[0].r.Received? then reports[0].r.data else [])
         + Arrived(reports[1..])
  }

  /** The same over dispatched events. */
  lemma {:induction false} EventsConserveInput(c: Conn, reports: seq<Report>)
    requires PossibleAll(c, reports)
    ensures DispatchAll(c, reports).input == c.input + Arrived(reports)
    decreases |reports|
  {
    if reports == [] {
      assert c.input + [] == c.input;
    } else {
      var report := reports[0];
      var d := Dispatch(c, report.revents, report.r, report.w);
      DispatchFromFlags(c, report.revents, report.r, report.w);
      EventsConserveInput(d, reports[1..]);
      var first := if Readable(report.revents) && report.r.Received? then report.r.data else [];
      assert d.input == c.input + first;
      assert c.input + first + Arrived(reports[1..]) == c.input + (first + Arrived(reports[1..]));
    }
  }

  // ---------------------------------------------------------------- output

  /** Whether a step calls write(2): a send with nothing waiting and no room watched
      for, a writable event of a channel that watches for it. */
  predicate Writes(e: Edition, c: Conn, op: Op) {
    match op
    case SendOp(_, _) => c.state == Connected && !Watches(c) && c.out == []
    case QueuedSendOp(_, _) =>
      !(e == AsMeant && c.state == Disconnected) && !Watches(c) && c.out == []
    case WriteOp(_) => Watches(c)
    case _ => false
  }

  /** What that call took. */
  function Took(e: Edition, c: Conn, op: Op): nat {
    if Writes(e, c, op) && (op.SendOp? || op.QueuedSendOp? || op.WriteOp?) && op.w.n > 0 then op.w.n else 0
  }

  function TookInAll(e: Edition, c: Conn, ops: seq<Op>): nat
    requires Legal(e, c, ops)
    decreases |ops|
  {
    if ops == [] then 0 else Took(e, c, ops[0]) + TookInAll(e, Apply(e, c, ops[0]), ops[1..])
  }

  /** What the call was offered: the backlog if anything waits, the payload otherwise. */
  function Offered(c: Conn, op: Op): seq<Byte> {
    if op.SendOp? || op.QueuedSendOp? then op.data else c.out
  }

  lemma StepMoves(e: Edition, c: Conn, op: Op)
    requires CanApply(c, op)
    ensures Took(e, c, op) <= |Offered(c, op)|
    ensures Apply(e, c, op).wire == c.wire + Offered(c, op)[..Took(e, c, op)]
  {
    assert Offered(c, op)[..0] == [] && c.wire + [] == c.wire;
    if op.SendOp? || op.QueuedSendOp? {
      TransmitMoves(c.Entering(e), op.data, op.w);
    }
  }

  lemma TransmitMoves(c: Conn, data: seq<Byte>, w: WriteResult)
    requires c.Possible(|data|, w)
    ensures var n := if !Watches(c) && c.out == [] && w.n > 0 then w.n else 0;
            n <= |data| && c.Transmit(data, w).wire == c.wire + data[..n]
  {
    TransmitEffect(c, data, w);
    var n := c.Written(|data|, w);
    assert data[..|data|] == data && data[..0] == [] && c.wire + [] == c.wire;
    EnqueueEffect(c.(wire := c.wire + data[..n]), data[n..]);
  }

  /** Over every run the wire grows by exactly what the writes made took, direct ones
      included, and those bytes are the next ones of what was accepted, in order. */
  lemma BytesMove(e: Edition, c: Conn, ops: seq<Op>)
    requires Legal(e, c, ops)
    ensures var d, sent := Run(e, c, ops), |c.wire| + TookInAll(e, c, ops);
            && sent <= |c.wire + c.out + Accepted(e, c, ops)|
            && d.wire == (c.wire + c.out + Accepted(e, c, ops))[..sent]
            && d.out == (c.wire + c.out + Accepted(e, c, ops))[sent..]
  {
    OutputConservation(e, c, ops);
    BytesAreCounted(e, c, ops);
    var d := Run(e, c, ops);
    assert (d.wire + d.out)[..|d.wire|] == d.wire && (d.wire + d.out)[|d.wire|..] == d.out;
  }

  lemma {:induction false} BytesAreCounted(e: Edition, c: Conn, ops: seq<Op>)
    requires Legal(e, c, ops)
    ensures |Run(e, c, ops).wire| == |c.wire| + TookInAll(e, c, ops)
    decreases |ops|
  {
    if ops != [] {
      StepMoves(e, c, ops[0]);
      BytesAreCounted(e, Apply(e, c, ops[0]), ops[1..]);
    }
  }

  /** A broken pipe or a reset where nothing waits gives the payload up; every other
      outcome of the write, another errno included, keeps all of it. */
  lemma PayloadKept(e: Edition, c: Conn, data: seq<Byte>, w: WriteResult)
    requires c.Possible(|data|, w) && !(e == AsMeant && c.state == Disconnected)
    ensures var d := c.SendInLoop(e, data, w);
            var broken := !Watches(c) && c.out == [] && w.n <= 0 && w.errno in {EPIPE, ECONNRESET};
            d.wire + d.out == c.wire + c.out + if broken then [] else data
  {
    SendConserves(e, c, data, w);
  }

  /** A payload is accepted by exactly the calls that find the connection connected, or
      that were queued and, as meant, find it not yet disconnected, and meet no such
      write. */
  lemma AcceptedWhen(e: Edition, c: Conn, op: Op)
    requires CanApply(c, op) && (op.SendOp? || op.QueuedSendOp?) && op.data != []
    ensures AcceptedBy(e, c, op) == op.data
            <==> (if op.SendOp? then c.state == Connected else e == AsWritten || c.state != Disconnected)
                 && (op.w.errno in {EPIPE, ECONNRESET} ==> Watches(c) || c.out != [] || op.w.n > 0)
  {
  }

  // ---------------------------------------------------------------- state, closes, write side

  /** The state a step leaves, its closes, and whether it shuts the write side. As
      written a send leaves the connection disconnected, and a shutdown takes effect
      on a disconnected one. */
  lemma StatesMove(e: Edition, c: Conn, op: Op)
    requires CanApply(c, op)
    ensures var d := Apply(e, c, op);
            && (d.state == Connecting ==> c.state == Connecting) && (d.state == Connected ==> c.state == Connected)
            && (d.state == Disconnecting <==>
                 if op == ShutdownOp
                 then c.state == (if e == AsWritten then Disconnected else Connected) || c.state == Disconnecting
                 else c.state == Disconnecting && !Closes(op) && !(e == AsWritten && op.QueuedSendOp?))
            && (d.state == Disconnected <==>
                 || Closes(op)
                 || (e == AsWritten && (op.QueuedSendOp? || (op.SendOp? && c.state == Connected)))
                 || (c.state == Disconnected && !(e == AsWritten && op == ShutdownOp)))
            && d.closes == c.closes + if Closes(op) then 1 else 0
  {
    if op.SendOp? || op.QueuedSendOp? {
      TransmitLeaves(c.Entering(e), op.data, op.w);
    }
  }

  /** The write side is shut by a shutdown that takes effect, or is queued, while no
      room is watched for, and by the write that empties the backlog afterwards. */
  lemma WriteSideIsShut(e: Edition, c: Conn, op: Op)
    requires CanApply(c, op)
    ensures Apply(e, c, op).writeShut
            <==> || c.writeShut
                 || (!Watches(c)
                     && (|| op == QueuedShutdownOp
                         || (op == ShutdownOp && c.state == (if e == AsWritten then Disconnected else Connected))))
                 || (Watches(c) && op.WriteOp? && op.w.n > 0 && op.w.n == |c.out|
                     && c.state == Disconnecting)
  {
    if op.SendOp? || op.QueuedSendOp? {
      TransmitLeaves(c.Entering(e), op.data, op.w);
    }
  }

  function Closings(ops: seq<Op>): nat {
    if ops == [] then 0 else (if Closes(ops[0]) then 1 else 0) + Closings(ops[1..])
  }

  /** The close callback runs once for each close and each end of file, over every run. */
  lemma {:induction false} ClosesAreCounted(e: Edition, c: Conn, ops: seq<Op>)
    requires Legal(e, c, ops)
    ensures Run(e, c, ops).closes == c.closes + Closings(ops)
    decreases |ops|
  {
    if ops != [] {
      StatesMove(e, c, ops[0]);
      ClosesAreCounted(e, Apply(e, c, ops[0]), ops[1..]);
    }
  }

  /** A connection that is destroyed is not connected, and its channel is unknown to the
      poller; only one that was still connected has its mask cleared on the way. */
  lemma DestroyedIsGone(c: Conn)
    ensures var d := c.ConnectDestroyed();
            && d.chan == Registry.Chan(c.chan.fd, if c.state == Connected then {} else c.chan.events, Registry.New)
            && d.state == (if c.state == Connected then Disconnected else c.state)
            && d == c.(state := d.state, chan := d.chan)
  {
  }
}
