/** What the handlers of one connection do to its state, channel, output buffer and
    socket, as functions, and what holds over every run of them. */
module ConnectionSpec {
  import opened BufferModel
  import opened Registry

  /** TcpConnection.cc:193 assigns where the text of its branch means to compare, and
      line 285 tests kDisconnected where kConnected is meant. AsWritten takes the two
      lines literally, AsMeant reads them the other way; all else is the same. */
  datatype Edition = AsWritten | AsMeant

  datatype StateE = Disconnected | Connecting | Connected | Disconnecting

  datatype Errno = EWOULDBLOCK | EPIPE | ECONNRESET | OtherErrno

  /** What write(2) returned, and errno as it stands afterwards. */
  datatype WriteResult = WriteResult(n: int, errno: Errno)

  /** What is queued on the connection's own loop: callbacks by its handlers, and calls
      by other threads. */
  datatype Notice = WriteComplete | HighWater(backlog: nat) | SendCall(data: seq<Byte>) | ShutdownCall

  /** `wire` is what the socket took, `closes` counts the calls of the close callback. */
  datatype Conn = Conn(
    state: StateE,
    chan: Chan,
    input: seq<Byte>,
    out: seq<Byte>,
    wire: seq<Byte>,
    writeShut: bool,
    notices: seq<Notice>,
    closes: nat,
    hasWriteComplete: bool,
    hasHighWater: bool,
    mark: nat)
  {
    predicate IsWriting() {
      EPOLLOUT in chan.events
    }

    function SetMask(mask: Mask): Conn {
      this.(chan := Touched(chan, mask))
    }

    function Post(notice: Notice): Conn {
      this.(notices := notices + [notice])
    }

    /** The kernel takes at most what it is offered, and nothing after SHUT_WR. */
    predicate Possible(len: nat, w: WriteResult) {
      -1 <= w.n <= len && (writeShut ==> w.n <= 0)
    }

    /** sendInLoop writes at once when nothing is waiting. */
    predicate WritesDirectly() {
      !IsWriting() && out == []
    }

    predicate Faults(w: WriteResult) {
      WritesDirectly() && w.n <= 0 && w.errno in {EPIPE, ECONNRESET}
    }

    /** How much of the payload the direct write took. */
    function Written(len: nat, w: WriteResult): (n: nat)
      requires Possible(len, w)
      ensures n <= len
    {
      if WritesDirectly() && w.n > 0 then w.n else 0
    }

    function DirectWrite(data: seq<Byte>, w: WriteResult): Conn
      requires Possible(|data|, w)
    {
      var n := Written(|data|, w);
      var c := this.(wire := wire + data[..n]);
      if n > 0 && n == |data| && hasWriteComplete then c.Post(WriteComplete) else c
    }

    /** Queues the high-water callback when the backlog is about to rise through the mark. */
    function Noted(added: nat): Conn {
      var backlog := |out| + added;
      if backlog >= mark && |out| < mark && hasHighWater then Post(HighWater(backlog)) else this
    }

    function Watched(): Conn {
      if IsWriting() then this else SetMask(chan.events + WRITE_EVENT)
    }

    /** The rest of a payload goes to the backlog, and the channel watches for room. */
    function Enqueue(rest: seq<Byte>): Conn {
      Noted(|rest|).(out := out + rest).Watched()
    }

    predicate Refuses(e: Edition) {
      e == AsMeant && state == Disconnected
    }

    /** Writes what the socket takes now and leaves the rest to the backlog; a fault
        gives the payload up. */
    function Transmit(data: seq<Byte>, w: WriteResult): Conn
      requires Possible(|data|, w)
    {
      var n := Written(|data|, w);
      if !Faults(w) && n < |data|
      then DirectWrite(data, w).Enqueue(data[n..])
      else DirectWrite(data, w)
    }

    /** The assignment of line 193 leaves the connection disconnected. */
    function Entering(e: Edition): Conn {
      if e == AsWritten then this.(state := Disconnected) else this
    }

    function SendInLoop(e: Edition, data: seq<Byte>, w: WriteResult): Conn
      requires Possible(|data|, w)
    {
      if Refuses(e) then this else Entering(e).Transmit(data, w)
    }

    /** send() called on the loop's own thread. */
    function Send(e: Edition, data: seq<Byte>, w: WriteResult): Conn
      requires Possible(|data|, w)
    {
      if state == Connected then SendInLoop(e, data, w) else this
    }

    /** send() called on any thread: the loop's own writes, another queues the payload. */
    function SendFrom(e: Edition, own: bool, data: seq<Byte>, w: WriteResult): Conn
      requires Possible(|data|, w)
    {
      if own then Send(e, data, w) else if state == Connected then Post(SendCall(data)) else this
    }

    function ShutdownInLoop(): Conn {
      if IsWriting() then this else this.(writeShut := true)
    }

    predicate ShutdownTakes(e: Edition) {
      state == if e == AsWritten then Disconnected else Connected
    }

    /** shutdown() called on the loop's own thread. */
    function Shutdown(e: Edition): Conn {
      if ShutdownTakes(e) then this.(state := Disconnecting).ShutdownInLoop() else this
    }

    /** shutdown() called on any thread: the state is stored at once in either case. */
    function ShutdownFrom(e: Edition, own: bool): Conn {
      if own then Shutdown(e)
      else if ShutdownTakes(e) then this.(state := Disconnecting).Post(ShutdownCall) else this
    }

    /** The loop runs what was queued: a call of another thread is carried out, a
        callback is the user's. */
    function Perform(e: Edition, notice: Notice, w: WriteResult): Conn
      requires notice.SendCall? ==> Possible(|notice.data|, w)
    {
      match notice
      case SendCall(data) => SendInLoop(e, data, w)
      case ShutdownCall => ShutdownInLoop()
      case WriteComplete => this
      case HighWater(_) => this
    }

    function Drained(): Conn {
      var c := SetMask(chan.events - WRITE_EVENT);
      var d := if hasWriteComplete then c.Post(WriteComplete) else c;
      if state == Disconnecting then d.ShutdownInLoop() else d
    }

    function HandleWrite(w: WriteResult): Conn
      requires Possible(|out|, w)
    {
      if IsWriting() && w.n > 0 then
        var c := this.(wire := wire + out[..w.n], out := out[w.n..]);
        if c.out == [] then c.Drained() else c
      else this
    }

    function HandleClose(): Conn {
      this.(state := Disconnected, closes := closes + 1).SetMask(NONE_EVENT)
    }

    function HandleRead(r: ReadResult): Conn {
      if r.ReadError? then this
      else if r.data == [] then HandleClose()
      else this.(input := input + r.data)
    }

    function ConnectEstablished(): Conn {
      this.(state := Connected).SetMask(chan.events + READ_EVENT)
    }

    /** The channel's removal from the poller. */
    function Remove(): Conn {
      this.(chan := chan.(index := New))
    }

    function ConnectDestroyed(): Conn {
      (if state == Connected then this.(state := Disconnected).SetMask(NONE_EVENT) else this).Remove()
    }
  }

  // ---------------------------------------------------------------- runs

  datatype Op =
    | SendOp(data: seq<Byte>, w: WriteResult)
    | QueuedSendOp(data: seq<Byte>, w: WriteResult)
    | WriteOp(w: WriteResult)
    | ReadOp(r: ReadResult)
    | ShutdownOp
    | QueuedShutdownOp
    | CloseOp

  predicate CanApply(c: Conn, op: Op) {
    match op
    case SendOp(data, w) => c.Possible(|data|, w)
    case QueuedSendOp(data, w) => c.Possible(|data|, w)
    case WriteOp(w) => c.Possible(|c.out|, w)
    case _ => true
  }

  function Apply(e: Edition, c: Conn, op: Op): Conn
    requires CanApply(c, op)
  {
    match op
    case SendOp(data, w) => c.Send(e, data, w)
    case QueuedSendOp(data, w) => c.SendInLoop(e, data, w)
    case WriteOp(w) => c.HandleWrite(w)
    case ReadOp(r) => c.HandleRead(r)
    case ShutdownOp => c.Shutdown(e)
    case QueuedShutdownOp => c.ShutdownInLoop()
    case CloseOp => c.HandleClose()
  }

  predicate Legal(e: Edition, c: Conn, ops: seq<Op>)
    decreases |ops|
  {
    ops == [] || (CanApply(c, ops[0]) && Legal(e, Apply(e, c, ops[0]), ops[1..]))
  }

  function Run(e: Edition, c: Conn, ops: seq<Op>): Conn
    requires Legal(e, c, ops)
    decreases |ops|
  {
    if ops == [] then c else Run(e, Apply(e, c, ops[0]), ops[1..])
  }

  // ---------------------------------------------------------------- conservation

  /** The payload a step accepts without a fault: all of it or nothing. */
  function AcceptedBy(e: Edition, c: Conn, op: Op): seq<Byte> {
    match op
    case SendOp(data, w) => if c.state == Connected && !c.Faults(w) then data else []
    case QueuedSendOp(data, w) => if !c.Refuses(e) && !c.Faults(w) then data else []
    case _ => []
  }

  function Accepted(e: Edition, c: Conn, ops: seq<Op>): seq<Byte>
    requires Legal(e, c, ops)
    decreases |ops|
  {
    if ops == [] then []
    else AcceptedBy(e, c, ops[0]) + Accepted(e, Apply(e, c, ops[0]), ops[1..])
  }

  lemma EnqueueEffect(c: Conn, rest: seq<Byte>)
    ensures var d := c.Enqueue(rest);
            && d.wire == c.wire && d.out == c.out + rest && d.IsWriting()
            && d.chan == (if c.IsWriting() then c.chan else Touched(c.chan, c.chan.events + WRITE_EVENT))
            && d.notices == c.notices
                            + (if c.hasHighWater && Crosses(|c.out|, |d.out|, c.mark) then [HighWater(|d.out|)] else [])
            && d == Conn(c.state, d.chan, c.input, d.out, c.wire, c.writeShut, d.notices, c.closes,
                         c.hasWriteComplete, c.hasHighWater, c.mark)
  {
    assert c.notices + [] == c.notices;
  }

  /** What a transmission does, by how much of the payload the socket took. */
  lemma TransmitEffect(c: Conn, data: seq<Byte>, w: WriteResult)
    requires c.Possible(|data|, w)
    ensures var n := c.Written(|data|, w);
            var d := c.Transmit(data, w);
            if n > 0 && n == |data| then
              && c.WritesDirectly()
              && d == c.(wire := c.wire + data,
                         notices := c.notices + if c.hasWriteComplete then [WriteComplete] else [])
            else if c.Faults(w) || data == [] then
              n == 0 && d == c
            else
              n < |data| && (n > 0 ==> c.WritesDirectly()) && d == c.(wire := c.wire + data[..n]).Enqueue(data[n..])
  {
    var n := c.Written(|data|, w);
    assert n == |data| ==> data[..n] == data;
    assert n == 0 ==> c.wire + data[..n] == c.wire;
    assert c.notices + [] == c.notices;
  }

  lemma SendConserves(e: Edition, c: Conn, data: seq<Byte>, w: WriteResult)
    requires c.Possible(|data|, w)
    ensures var d := c.SendInLoop(e, data, w);
            d.wire + d.out == c.wire + c.out + if !c.Refuses(e) && !c.Faults(w) then data else []
  {
    if !c.Refuses(e) {
      TransmitConserves(c.Entering(e), data, w);
    }
  }

  lemma TransmitConserves(c: Conn, data: seq<Byte>, w: WriteResult)
    requires c.Possible(|data|, w)
    ensures var d := c.Transmit(data, w);
            d.wire + d.out == c.wire + c.out + if c.Faults(w) then [] else data
  {
    TransmitEffect(c, data, w);
    var n := c.Written(|data|, w);
    if !c.Faults(w) && n < |data| {
      EnqueueEffect(c.(wire := c.wire + data[..n]), data[n..]);
      assert data[..n] + data[n..] == data;
      assert c.wire + data[..n] + (c.out + data[n..]) == c.wire + c.out + data;
    }
  }

  lemma StepConserves(e: Edition, c: Conn, op: Op)
    requires CanApply(c, op)
    ensures var d := Apply(e, c, op);
            d.wire + d.out == c.wire + c.out + AcceptedBy(e, c, op)
  {
    match op
    case SendOp(data, w) => SendConserves(e, c, data, w);
    case QueuedSendOp(data, w) => SendConserves(e, c, data, w);
    case WriteOp(w) =>
      if c.IsWriting() && w.n > 0 {
        assert c.wire + c.out[..w.n] + c.out[w.n..] == c.wire + c.out;
      }
    case _ =>
  }

  /** Output conservation: over every run of partial, blocked and failed writes, what
      the socket took and then the backlog is exactly what was accepted, in order. */
  lemma {:induction false} OutputConservation(e: Edition, c: Conn, ops: seq<Op>)
    requires Legal(e, c, ops)
    ensures var d := Run(e, c, ops);
            d.wire + d.out == c.wire + c.out + Accepted(e, c, ops)
    decreases |ops|
  {
    if ops != [] {
      StepConserves(e, c, ops[0]);
      OutputConservation(e, Apply(e, c, ops[0]), ops[1..]);
    }
  }

  // ---------------------------------------------------------------- write interest

  /** Established and not closed: the kernel watches the fd, for reading at least. */
  predicate Open(c: Conn) {
    c.chan.index == Added && READ_EVENT <= c.chan.events
  }

  predicate Mirrors(c: Conn) {
    c.IsWriting() <==> c.out != []
  }

  /** The step runs the close handler, itself or on end of file. */
  predicate Closes(op: Op) {
    op == CloseOp || (op.ReadOp? && op.r == Received([]))
  }

  lemma TransmitMirrors(c: Conn, data: seq<Byte>, w: WriteResult)
    requires Open(c) && Mirrors(c) && c.Possible(|data|, w)
    ensures Open(c.Transmit(data, w)) && Mirrors(c.Transmit(data, w))
  {
    TransmitEffect(c, data, w);
    var n := c.Written(|data|, w);
    if !c.Faults(w) && n < |data| {
      EnqueueEffect(c.(wire := c.wire + data[..n]), data[n..]);
      assert EPOLLIN in c.chan.events;
    }
  }

  lemma StepMirrors(e: Edition, c: Conn, op: Op)
    requires Open(c) && Mirrors(c) && CanApply(c, op) && !Closes(op)
    ensures Open(Apply(e, c, op)) && Mirrors(Apply(e, c, op))
  {
    match op
    case SendOp(data, w) => TransmitMirrors(c.Entering(e), data, w);
    case QueuedSendOp(data, w) => TransmitMirrors(c.Entering(e), data, w);
    case WriteOp(w) => assert EPOLLIN in c.chan.events - WRITE_EVENT;
    case _ =>
  }

  /** Between establishment and close the channel asks for EPOLLOUT exactly while the
      backlog is non-empty, after every handler. */
  lemma {:induction false} WriteInterestMirrorsBacklog(e: Edition, c: Conn, ops: seq<Op>)
    requires c.chan.index == New && c.chan.events == NONE_EVENT && c.out == []
    requires Legal(e, c.ConnectEstablished(), ops)
    requires forall i :: 0 <= i < |ops| ==> !Closes(ops[i])
    ensures var d := Run(e, c.ConnectEstablished(), ops);
            Open(d) && (d.IsWriting() <==> d.out != [])
  {
    RunMirrors(e, c.ConnectEstablished(), ops);
  }

  lemma {:induction false} RunMirrors(e: Edition, c: Conn, ops: seq<Op>)
    requires Open(c) && Mirrors(c) && Legal(e, c, ops)
    requires forall i :: 0 <= i < |ops| ==> !Closes(ops[i])
    ensures Open(Run(e, c, ops)) && Mirrors(Run(e, c, ops))
    decreases |ops|
  {
    if ops != [] {
      StepMirrors(e, c, ops[0]);
      RunMirrors(e, Apply(e, c, ops[0]), ops[1..]);
    }
  }

  // ---------------------------------------------------------------- notices

  function Crosses(before: nat, after: nat, mark: nat): bool {
    before < mark <= after
  }

  /** How often the backlog rises through the mark over a run. */
  function Crossings(e: Edition, c: Conn, ops: seq<Op>): nat
    requires Legal(e, c, ops)
    decreases |ops|
  {
    if ops == [] then 0
    else
      var d := Apply(e, c, ops[0]);
      (if Crosses(|c.out|, |d.out|, c.mark) then 1 else 0) + Crossings(e, d, ops[1..])
  }

  function HighWaters(notices: seq<Notice>): nat {
    if notices == [] then 0
    else HighWaters(notices[..|notices| - 1]) + if notices[|notices| - 1].HighWater? then 1 else 0
  }

  lemma HighWatersAppend(notices: seq<Notice>, notice: Notice)
    ensures HighWaters(notices + [notice]) == HighWaters(notices) + if notice.HighWater? then 1 else 0
  {
    assert (notices + [notice])[..|notices|] == notices;
  }

  lemma StepHighWater(e: Edition, c: Conn, op: Op)
    requires CanApply(c, op) && c.hasHighWater
    ensures var d := Apply(e, c, op);
            && d.hasHighWater && d.mark == c.mark
            && HighWaters(d.notices) == HighWaters(c.notices) + if Crosses(|c.out|, |d.out|, c.mark) then 1 else 0
  {
    match op
    case SendOp(data, w) => TransmitHighWater(c.Entering(e), data, w);
    case QueuedSendOp(data, w) => TransmitHighWater(c.Entering(e), data, w);
    case WriteOp(w) => WriteHighWater(c, w);
    case _ =>
  }

  lemma WriteHighWater(c: Conn, w: WriteResult)
    requires c.Possible(|c.out|, w)
    ensures var d := c.HandleWrite(w);
            && d.hasHighWater == c.hasHighWater && d.mark == c.mark && |d.out| <= |c.out|
            && HighWaters(d.notices) == HighWaters(c.notices)
  {
    HighWatersAppend(c.notices, WriteComplete);
  }

  lemma TransmitHighWater(c: Conn, data: seq<Byte>, w: WriteResult)
    requires c.Possible(|data|, w) && c.hasHighWater
    ensures var d := c.Transmit(data, w);
            && d.hasHighWater && d.mark == c.mark
            && HighWaters(d.notices) == HighWaters(c.notices) + if Crosses(|c.out|, |d.out|, c.mark) then 1 else 0
  {
    TransmitEffect(c, data, w);
    HighWatersAppend(c.notices, WriteComplete);
    assert c.notices + [] == c.notices;
    var n := c.Written(|data|, w);
    if !c.Faults(w) && n < |data| {
      EnqueueEffect(c.(wire := c.wire + data[..n]), data[n..]);
      HighWatersAppend(c.notices, HighWater(|c.Transmit(data, w).out|));
    }
  }

  /** With a fixed mark the high-water callback is queued once per upward crossing:
      between two of them the backlog has been below the mark. */
  lemma {:induction false} HighWaterOncePerCrossing(e: Edition, c: Conn, ops: seq<Op>)
    requires Legal(e, c, ops) && c.hasHighWater
    ensures HighWaters(Run(e, c, ops).notices) == HighWaters(c.notices) + Crossings(e, c, ops)
    decreases |ops|
  {
    if ops != [] {
      StepHighWater(e, c, ops[0]);
      HighWaterOncePerCrossing(e, Apply(e, c, ops[0]), ops[1..]);
    }
  }

  predicate PostsWriteComplete(c: Conn, d: Conn) {
    d.notices == c.notices + [WriteComplete]
  }

  lemma TransmitWriteComplete(c: Conn, data: seq<Byte>, w: WriteResult)
    requires c.Possible(|data|, w) && c.hasWriteComplete
    ensures var d := c.Transmit(data, w);
            PostsWriteComplete(c, d) <==> |d.wire| > |c.wire| && d.out == []
  {
    TransmitEffect(c, data, w);
    var n := c.Written(|data|, w);
    if !c.Faults(w) && n < |data| {
      EnqueueEffect(c.(wire := c.wire + data[..n]), data[n..]);
      var d := c.Transmit(data, w);
      assert |d.out| > 0;
      assert d.notices == c.notices || d.notices[|c.notices|].HighWater?;
    }
  }

  /** Write-complete is queued by exactly the steps that send a last byte: the socket
      took something and nothing waits any more. */
  lemma WriteCompleteExactly(e: Edition, c: Conn, op: Op)
    requires CanApply(c, op) && c.hasWriteComplete
    ensures var d := Apply(e, c, op);
            PostsWriteComplete(c, d) <==> |d.wire| > |c.wire| && d.out == []
  {
    match op
    case SendOp(data, w) => TransmitWriteComplete(c.Entering(e), data, w);
    case QueuedSendOp(data, w) => TransmitWriteComplete(c.Entering(e), data, w);
    case _ =>
  }

  lemma {:induction false} RunSplit(e: Edition, c: Conn, ops: seq<Op>, op: Op)
    requires Legal(e, c, ops + [op])
    ensures Legal(e, c, ops) && CanApply(Run(e, c, ops), op)
    ensures Run(e, c, ops + [op]) == Apply(e, Run(e, c, ops), op)
    decreases |ops|
  {
    if ops == [] {
      assert ops + [op] == [op] && [op][1..] == [];
    } else {
      assert (ops + [op])[1..] == ops[1..] + [op];
      RunSplit(e, Apply(e, c, ops[0]), ops[1..], op);
    }
  }

  lemma TransmitKeepsCallback(c: Conn, data: seq<Byte>, w: WriteResult)
    requires c.Possible(|data|, w)
    ensures c.Transmit(data, w).hasWriteComplete == c.hasWriteComplete
  {
    TransmitEffect(c, data, w);
    var n := c.Written(|data|, w);
    EnqueueEffect(c.(wire := c.wire + data[..n]), data[n..]);
  }

  lemma {:induction false} RunKeepsCallback(e: Edition, c: Conn, ops: seq<Op>)
    requires Legal(e, c, ops)
    ensures Run(e, c, ops).hasWriteComplete == c.hasWriteComplete
    decreases |ops|
  {
    if ops != [] {
      if ops[0].SendOp? || ops[0].QueuedSendOp? {
        TransmitKeepsCallback(c.Entering(e), ops[0].data, ops[0].w);
      }
      RunKeepsCallback(e, Apply(e, c, ops[0]), ops[1..]);
    }
  }

  /** Of two runs, one a step longer than the other, the step queues write-complete. */
  predicate LastPosts(e: Edition, c: Conn, ops: seq<Op>, op: Op)
    requires Legal(e, c, ops + [op])
  {
    RunSplit(e, c, ops, op);
    PostsWriteComplete(Run(e, c, ops), Run(e, c, ops + [op]))
  }

  /** When write-complete is queued, every byte accepted so far is on the wire. */
  lemma WriteCompleteMeansAllWritten(e: Edition, c: Conn, ops: seq<Op>, op: Op)
    requires c.hasWriteComplete && Legal(e, c, ops + [op]) && LastPosts(e, c, ops, op)
    ensures Run(e, c, ops + [op]).wire == c.wire + c.out + Accepted(e, c, ops + [op])
  {
    RunSplit(e, c, ops, op);
    RunKeepsCallback(e, c, ops);
    WriteCompleteExactly(e, Run(e, c, ops), op);
    OutputConservation(e, c, ops + [op]);
  }

  // ---------------------------------------------------------------- the two slips

  /** The state is read by no part of a transmission. */
  lemma TransmitIgnoresState(c: Conn, data: seq<Byte>, w: WriteResult, state: StateE)
    requires c.Possible(|data|, w)
    ensures c.(state := state).Transmit(data, w) == c.Transmit(data, w).(state := state)
  {
    TransmitEffect(c, data, w);
    TransmitEffect(c.(state := state), data, w);
    var n := c.Written(|data|, w);
    EnqueueEffect(c.(wire := c.wire + data[..n]), data[n..]);
    EnqueueEffect(c.(state := state, wire := c.wire + data[..n]), data[n..]);
  }

  /** One send and one shutdown, as in the echo server's message handler: the two
      slips cancel, to the last field. */
  lemma SlipsCancelAfterOneSend(c: Conn, data: seq<Byte>, w: WriteResult)
    requires c.state == Connected && c.Possible(|data|, w)
    ensures c.Send(AsWritten, data, w).Shutdown(AsWritten) == c.Send(AsMeant, data, w).Shutdown(AsMeant)
  {
    TransmitIgnoresState(c, data, w, Disconnected);
    var written, meant := c.Send(AsWritten, data, w), c.Send(AsMeant, data, w);
    assert written == meant.(state := Disconnected);
    assert meant == written.(state := Connected);
  }

  /** As written, a connection takes one send: it is disconnected for the next one,
      which leaves no trace. */
  lemma SecondSendIsDropped(c: Conn, data: seq<Byte>, w: WriteResult, more: seq<Byte>, v: WriteResult)
    requires c.state == Connected && c.Possible(|data|, w)
    requires c.Send(AsWritten, data, w).Possible(|more|, v)
    ensures var d := c.Send(AsWritten, data, w);
            d.state == Disconnected && d.Send(AsWritten, more, v) == d
  {
  }

  // ---------------------------------------------------------------- one dispatch

  const ALL_HANDLERS: set<Handler> := {CloseHandler, ErrorHandler, ReadHandler, WriteHandler}

  /** One callback of the channel, given what the system calls in it return. */
  function Handle(c: Conn, h: Handler, r: ReadResult, w: WriteResult): Conn {
    match h
    case CloseHandler => c.HandleClose()
    case ErrorHandler => c
    case ReadHandler => c.HandleRead(r)
    case WriteHandler => if c.Possible(|c.out|, w) then c.HandleWrite(w) else c
  }

  function HandleAll(c: Conn, calls: seq<Handler>, r: ReadResult, w: WriteResult): Conn
    decreases |calls|
  {
    if calls == [] then c else HandleAll(Handle(c, calls[0], r, w), calls[1..], r, w)
  }

  function HandleWhen(c: Conn, revents: Mask, h: Handler, r: ReadResult, w: WriteResult): Conn {
    if Triggers(revents, h) then Handle(c, h, r, w) else c
  }

  /** What a connection makes of one reported event: it closes, then reads, then
      writes, each when its flags are up. */
  function Dispatch(c: Conn, revents: Mask, r: ReadResult, w: WriteResult): Conn {
    var closed := HandleWhen(c, revents, CloseHandler, r, w);
    var read := HandleWhen(closed, revents, ReadHandler, r, w);
    HandleWhen(read, revents, WriteHandler, r, w)
  }

  lemma {:induction false} HandleInTurn(
    c: Conn, first: seq<Handler>, second: seq<Handler>, r: ReadResult, w: WriteResult)
    ensures HandleAll(c, first + second, r, w) == HandleAll(HandleAll(c, first, r, w), second, r, w)
    decreases |first|
  {
    if first == [] {
      assert first + second == second;
    } else {
      assert (first + second)[1..] == first[1..] + second;
      HandleInTurn(Handle(c, first[0], r, w), first[1..], second, r, w);
    }
  }

  /** Running the callbacks a channel calls, one after the other, is that dispatch. */
  lemma DispatchRunsWhatIsCalled(c: Conn, revents: Mask, r: ReadResult, w: WriteResult)
    ensures HandleAll(c, Called(revents, ALL_HANDLERS), r, w) == Dispatch(c, revents, r, w)
  {
    var close, error := When(CloseHandler, revents, ALL_HANDLERS), When(ErrorHandler, revents, ALL_HANDLERS);
    var read, write := When(ReadHandler, revents, ALL_HANDLERS), When(WriteHandler, revents, ALL_HANDLERS);
    HandleInTurn(c, close + error + read, write, r, w);
    HandleInTurn(c, close + error, read, r, w);
    HandleInTurn(c, close, error, r, w);
  }

  /** The one readiness that closes twice in a dispatch: a hang-up reported with
      urgent data but no ordinary input, on a socket at end of file. */
  predicate ClosesTwice(revents: Mask, r: ReadResult) {
    EPOLLHUP in revents && EPOLLIN !in revents && EPOLLPRI in revents && r == Received([])
  }

  /** One dispatch closes a connection at most once, exactly outside that case. */
  lemma ClosedAtMostOncePerDispatch(c: Conn, revents: Mask, r: ReadResult, w: WriteResult)
    requires c.Possible(|c.out|, w)
    ensures Dispatch(c, revents, r, w).closes <= c.closes + 1 <==> !ClosesTwice(revents, r)
  {
  }

  /** A close that came with the event leaves the channel deleted and the wire as it
      was, whatever else was reported; closing twice puts it back into the kernel's
      set with nothing to watch. */
  lemma DispatchAfterClose(c: Conn, revents: Mask, r: ReadResult, w: WriteResult)
    requires Open(c) && c.Possible(|c.out|, w) && Triggers(revents, CloseHandler)
    ensures var d := Dispatch(c, revents, r, w);
            && d.state == Disconnected && d.wire == c.wire && d.chan.events == NONE_EVENT
            && d.chan.index == if ClosesTwice(revents, r) then Added else Deleted
  {
    assert EPOLLIN in c.chan.events;
  }
}
