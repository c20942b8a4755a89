/** Another thread's sends and shutdowns of a connection: what they leave in the queue
    of its loop, what becomes of it when the loop performs it, and the half-close they
    make together. */
module CallQueue {
  import BufferModel
  import opened ConnectionSpec
  import HalfClose

  type Byte = BufferModel.Byte

  /** The payloads that wait in a queue, in order. */
  function Carried(notices: seq<Notice>): seq<Byte> {
    if notices == [] then []
    else (if notices[0].SendCall? then notices[0].data else []) + Carried(notices[1..])
  }

  lemma {:induction false} CarriedConcat(p: seq<Notice>, q: seq<Notice>)
    ensures Carried(p + q) == Carried(p) + Carried(q)
  {
    if p == [] {
      assert p + q == q;
    } else {
      assert (p + q)[1..] == p[1..] + q;
      CarriedConcat(p[1..], q);
    }
  }

  lemma CarriedOne(notice: Notice)
    ensures Carried([notice]) == if notice.SendCall? then notice.data else []
  {
    assert [notice][1..] == [];
  }

  // ---------------------------------------------------------------- the calls alone

  datatype Call = SendIt(data: seq<Byte>) | ShutIt

  /** Another thread writes nothing itself. */
  const NO_WRITE: WriteResult := WriteResult(-1, EWOULDBLOCK)

  function Calling(e: Edition, c: Conn, call: Call): Conn {
    match call
    case SendIt(data) => c.SendFrom(e, false, data, NO_WRITE)
    case ShutIt => c.ShutdownFrom(e, false)
  }

  function CallAll(e: Edition, c: Conn, calls: seq<Call>): Conn
    decreases |calls|
  {
    if calls == [] then c else CallAll(e, Calling(e, c, calls[0]), calls[1..])
  }

  /** What a connected connection is given, up to the shutdown that takes effect; as
      written, none does while it is connected. */
  function GivenTo(e: Edition, calls: seq<Call>): seq<Byte> {
    if calls == [] then []
    else match calls[0]
         case SendIt(data) => data + GivenTo(e, calls[1..])
         case ShutIt => if e == AsMeant then [] else GivenTo(e, calls[1..])
  }

  /** The sends among them. */
  function Sends(e: Edition, calls: seq<Call>): seq<Notice> {
    if calls == [] then []
    else match calls[0]
         case SendIt(data) => [SendCall(data)] + Sends(e, calls[1..])
         case ShutIt => if e == AsMeant then [] else Sends(e, calls[1..])
  }

  lemma {:induction false} SendsCarry(e: Edition, calls: seq<Call>)
    ensures Carried(Sends(e, calls)) == GivenTo(e, calls)
    ensures forall i :: 0 <= i < |Sends(e, calls)| ==> Sends(e, calls)[i].SendCall?
  {
    if calls != [] {
      SendsCarry(e, calls[1..]);
      if calls[0].SendIt? {
        CarriedOne(SendCall(calls[0].data));
        CarriedConcat([SendCall(calls[0].data)], Sends(e, calls[1..]));
      }
    }
  }

  /** A shutdown among the calls takes effect: as meant on a connected connection, as
      written on a disconnected one. */
  predicate Takes(e: Edition, state: StateE, calls: seq<Call>) {
    state == (if e == AsWritten then Disconnected else Connected) && ShutIt in calls
  }

  /** What the calls leave in the queue: the payloads given while the connection is
      connected, in order, and one shutdown behind them. */
  function Queued(e: Edition, state: StateE, calls: seq<Call>): seq<Notice> {
    (if state == Connected then Sends(e, calls) else [])
    + if Takes(e, state, calls) then [ShutdownCall] else []
  }

  function StateAfter(e: Edition, state: StateE, calls: seq<Call>): StateE {
    if Takes(e, state, calls) then Disconnecting else state
  }

  lemma OneQueued(e: Edition, state: StateE, call: Call)
    ensures StateAfter(e, state, [call]) == (if call == ShutIt && Takes(e, state, [call]) then Disconnecting else state)
    ensures Queued(e, state, [call])
            == (match call
                case SendIt(data) => if state == Connected then [SendCall(data)] else []
                case ShutIt => if Takes(e, state, [call]) then [ShutdownCall] else [])
  {
    assert [call][1..] == [];
    assert Sends(e, []) == [];
  }

  lemma QueuedInTurn(e: Edition, state: StateE, calls: seq<Call>)
    requires calls != []
    ensures StateAfter(e, state, calls) == StateAfter(e, StateAfter(e, state, [calls[0]]), calls[1..])
    ensures Queued(e, state, calls)
            == Queued(e, state, [calls[0]]) + Queued(e, StateAfter(e, state, [calls[0]]), calls[1..])
  {
    OneQueued(e, state, calls[0]);
    assert ShutIt in calls <==> calls[0] == ShutIt || ShutIt in calls[1..];
  }

  /** What a connection is with its state stored and something posted. */
  function Posted(c: Conn, state: StateE, notices: seq<Notice>): Conn {
    c.(state := state, notices := c.notices + notices)
  }

  lemma CallingEffect(e: Edition, c: Conn, call: Call)
    ensures Calling(e, c, call) == Posted(c, StateAfter(e, c.state, [call]), Queued(e, c.state, [call]))
  {
    OneQueued(e, c.state, call);
    assert ShutIt in [call] <==> call == ShutIt;
    assert c.notices + [] == c.notices;
  }

  lemma NothingPosted(c: Conn)
    ensures Posted(c, c.state, []) == c
  {
    assert c.notices + [] == c.notices;
  }

  lemma PostedInTurn(c: Conn, state: StateE, p: seq<Notice>, final: StateE, q: seq<Notice>)
    ensures Posted(Posted(c, state, p), final, q) == Posted(c, final, p + q)
  {
    assert c.notices + p + q == c.notices + (p + q);
  }

  /** Any sequence of calls by another thread, exactly: beside that queue and the stored
      state nothing is touched. */
  lemma {:induction false} ForeignCalls(e: Edition, c: Conn, calls: seq<Call>)
    ensures CallAll(e, c, calls) == Posted(c, StateAfter(e, c.state, calls), Queued(e, c.state, calls))
    decreases |calls|
  {
    if calls == [] {
      NothingPosted(c);
    } else {
      var state := StateAfter(e, c.state, [calls[0]]);
      CallingEffect(e, c, calls[0]);
      ForeignCalls(e, Calling(e, c, calls[0]), calls[1..]);
      QueuedInTurn(e, c.state, calls);
      PostedInTurn(c, state, Queued(e, c.state, [calls[0]]), StateAfter(e, state, calls[1..]),
                   Queued(e, state, calls[1..]));
    }
  }

  // ---------------------------------------------------------------- and the loop performs them

  predicate CanPerform(e: Edition, c: Conn, notices: seq<Notice>, results: seq<WriteResult>)
    decreases |notices|
  {
    notices == [] ||
    (&& results != [] && (notices[0].SendCall? ==> c.Possible(|notices[0].data|, results[0]))
     && CanPerform(e, c.Perform(e, notices[0], results[0]), notices[1..], results[1..]))
  }

  function PerformAll(e: Edition, c: Conn, notices: seq<Notice>, results: seq<WriteResult>): Conn
    requires CanPerform(e, c, notices, results)
    decreases |notices|
  {
    if notices == [] then c
    else PerformAll(e, c.Perform(e, notices[0], results[0]), notices[1..], results[1..])
  }

  /** No write of them meets a broken pipe or a reset. */
  predicate Unbroken(results: seq<WriteResult>) {
    forall i :: 0 <= i < |results| ==> results[i].n > 0 || results[i].errno !in {EPIPE, ECONNRESET}
  }

  lemma PerformDelivers(e: Edition, c: Conn, notice: Notice, w: WriteResult)
    requires notice.SendCall? ==> c.Possible(|notice.data|, w)
    requires w.n > 0 || w.errno !in {EPIPE, ECONNRESET}
    requires e == AsMeant ==> c.state != Disconnected
    ensures var d := c.Perform(e, notice, w);
            && d.wire + d.out == c.wire + c.out + Carried([notice])
            && (e == AsMeant ==> d.state != Disconnected)
  {
    CarriedOne(notice);
    assert c.wire + c.out + [] == c.wire + c.out;
    if notice.SendCall? {
      SendConserves(e, c, notice.data, w);
      HalfClose.TransmitKeeps(c.Entering(e), notice.data, w);
    }
  }

  /** Performing a queue delivers every payload in it, to the socket or the backlog. */
  lemma {:induction false} QueueDelivers(
    e: Edition, c: Conn, notices: seq<Notice>, results: seq<WriteResult>)
    requires CanPerform(e, c, notices, results) && Unbroken(results)
    requires e == AsMeant ==> c.state != Disconnected
    ensures var d := PerformAll(e, c, notices, results);
            d.wire + d.out == c.wire + c.out + Carried(notices)
    decreases |notices|
  {
    if notices == [] {
      assert c.wire + c.out + [] == c.wire + c.out;
    } else {
      var b := c.Perform(e, notices[0], results[0]);
      PerformDelivers(e, c, notices[0], results[0]);
      QueueDelivers(e, b, notices[1..], results[1..]);
      CarriedConcat([notices[0]], notices[1..]);
      assert [notices[0]] + notices[1..] == notices;
      assert c.wire + c.out + (Carried([notices[0]]) + Carried(notices[1..]))
          == c.wire + c.out + Carried([notices[0]]) + Carried(notices[1..]);
    }
  }

  lemma QueuedCarries(e: Edition, c: Conn, calls: seq<Call>)
    requires c.state == Connected
    ensures Carried(c.notices + Queued(e, c.state, calls)) == Carried(c.notices) + GivenTo(e, calls)
  {
    var shut := if Takes(e, c.state, calls) then [ShutdownCall] else [];
    SendsCarry(e, calls);
    CarriedOne(ShutdownCall);
    CarriedConcat(Sends(e, calls), shut);
    CarriedConcat(c.notices, Queued(e, c.state, calls));
  }

  /** What another thread gave a connected connection arrives when the loop takes the
      queue and performs it, in order, behind what was there. */
  lemma ForeignCallsDeliver(e: Edition, c: Conn, calls: seq<Call>, results: seq<WriteResult>)
    requires c.state == Connected && Unbroken(results)
    requires var d := CallAll(e, c, calls); CanPerform(e, d.(notices := []), d.notices, results)
    ensures var d := CallAll(e, c, calls);
            var done := PerformAll(e, d.(notices := []), d.notices, results);
            done.wire + done.out == c.wire + c.out + Carried(c.notices) + GivenTo(e, calls)
  {
    var d := CallAll(e, c, calls);
    ForeignCalls(e, c, calls);
    QueueDelivers(e, d.(notices := []), d.notices, results);
    QueuedCarries(e, c, calls);
    assert c.wire + c.out + (Carried(c.notices) + GivenTo(e, calls))
        == c.wire + c.out + Carried(c.notices) + GivenTo(e, calls);
  }

  // ---------------------------------------------------------------- calls among the loop's own steps

  /** The loop of a connection dispatches events or runs the batch it has taken. */
  datatype Served = Served(conn: Conn, running: bool, batch: seq<Notice>)

  datatype Move =
    | Send(data: seq<Byte>)
    | TakeQueue
    | PerformNext(w: WriteResult)
    | EndBatch
    | WriteReady(w: WriteResult)

  /** As in the half-close, no send meets a fault. */
  predicate CanMove(q: Served, m: Move) {
    match m
    case Send(_) => true
    case TakeQueue => !q.running
    case PerformNext(w) => && q.running && q.batch != []
                           && (q.batch[0].SendCall? ==> q.conn.Possible(|q.batch[0].data|, w) && !q.conn.Faults(w))
    case EndBatch => q.running && q.batch == []
    case WriteReady(w) => !q.running && q.conn.IsWriting() && q.conn.Possible(|q.conn.out|, w)
  }

  function Moved(e: Edition, q: Served, m: Move): Served
    requires CanMove(q, m)
  {
    match m
    case Send(data) => q.(conn := q.conn.SendFrom(e, false, data, NO_WRITE))
    case TakeQueue => Served(q.conn.(notices := []), true, q.conn.notices)
    case PerformNext(w) => q.(conn := q.conn.Perform(e, q.batch[0], w), batch := q.batch[1..])
    case EndBatch => q.(running := false)
    case WriteReady(w) => q.(conn := q.conn.HandleWrite(w))
  }

  predicate CanMoveAll(e: Edition, q: Served, moves: seq<Move>)
    decreases |moves|
  {
    moves == [] || (CanMove(q, moves[0]) && CanMoveAll(e, Moved(e, q, moves[0]), moves[1..]))
  }

  function MovedAll(e: Edition, q: Served, moves: seq<Move>): Served
    requires CanMoveAll(e, q, moves)
    decreases |moves|
  {
    if moves == [] then q else MovedAll(e, Moved(e, q, moves[0]), moves[1..])
  }

  /** The payloads another thread gave while the connection was connected. */
  function GivenIn(e: Edition, q: Served, moves: seq<Move>): seq<Byte>
    requires CanMoveAll(e, q, moves)
    decreases |moves|
  {
    if moves == [] then []
    else (if moves[0].Send? && q.conn.state == Connected then moves[0].data else [])
         + GivenIn(e, Moved(e, q, moves[0]), moves[1..])
  }

  // ---- the same steps in the half-close's terms

  function FnOf(notice: Notice): HalfClose.Fn {
    match notice
    case SendCall(data) => HalfClose.SendFn(data)
    case ShutdownCall => HalfClose.ShutdownFn
    case WriteComplete => HalfClose.OtherFn
    case HighWater(_) => HalfClose.OtherFn
  }

  function Fns(notices: seq<Notice>): (fns: seq<HalfClose.Fn>)
    ensures |fns| == |notices| && forall i :: 0 <= i < |notices| ==> fns[i] == FnOf(notices[i])
  {
    if notices == [] then [] else [FnOf(notices[0])] + Fns(notices[1..])
  }

  lemma FnsConcat(p: seq<Notice>, q: seq<Notice>)
    ensures Fns(p + q) == Fns(p) + Fns(q)
  {
  }

  /** The queue of the half-close is the connection's own. */
  predicate Shows(s: HalfClose.Sys, q: Served) {
    && s.conn == q.conn.(notices := s.conn.notices)
    && s.running == q.running && s.batch == Fns(q.batch) && s.pending == Fns(q.conn.notices)
    && s.caller == HalfClose.Outside
  }

  predicate Callbacks(notices: seq<Notice>) {
    forall i :: 0 <= i < |notices| ==> !notices[i].SendCall? && !notices[i].ShutdownCall?
  }

  /** What a handler posts are callbacks, and what else it does does not depend on what
      is queued. */
  predicate PostsOnly(c: Conn, d: Conn, c': Conn, d': Conn) {
    && d' == d.(notices := d'.notices)
    && c.notices <= d.notices && Callbacks(d.notices[|c.notices|..])
  }

  lemma TransmitPosts(c: Conn, c': Conn, data: seq<Byte>, w: WriteResult)
    requires c' == c.(notices := c'.notices) && c.Possible(|data|, w)
    ensures PostsOnly(c, c.Transmit(data, w), c', c'.Transmit(data, w))
  {
    TransmitEffect(c, data, w);
    TransmitEffect(c', data, w);
    var n := c.Written(|data|, w);
    EnqueueEffect(c.(wire := c.wire + data[..n]), data[n..]);
    EnqueueEffect(c'.(wire := c.wire + data[..n]), data[n..]);
  }

  lemma PerformPosts(e: Edition, c: Conn, c': Conn, notice: Notice, w: WriteResult)
    requires c' == c.(notices := c'.notices)
    requires notice.SendCall? ==> c.Possible(|notice.data|, w)
    ensures PostsOnly(c, c.Perform(e, notice, w), c', HalfClose.RunHead(e, c', FnOf(notice), w))
  {
    if notice.SendCall? {
      TransmitPosts(c.Entering(e), c'.Entering(e), notice.data, w);
    }
  }

  lemma WritePosts(c: Conn, c': Conn, w: WriteResult)
    requires c' == c.(notices := c'.notices) && c.Possible(|c.out|, w)
    ensures PostsOnly(c, c.HandleWrite(w), c', c'.HandleWrite(w))
  {
  }

  function Others(notices: seq<Notice>): seq<HalfClose.Step> {
    if notices == [] then [] else [HalfClose.PushOther] + Others(notices[1..])
  }

  lemma {:induction false} CallbacksArePushed(e: Edition, s: HalfClose.Sys, notices: seq<Notice>)
    requires Callbacks(notices)
    ensures HalfClose.Schedulable(e, s, Others(notices))
    ensures HalfClose.After(e, s, Others(notices)) == s.(pending := s.pending + Fns(notices))
    decreases |notices|
  {
    if notices == [] {
      assert s.pending + [] == s.pending;
    } else {
      var s' := HalfClose.Next(e, s, HalfClose.PushOther);
      CallbacksArePushed(e, s', notices[1..]);
      assert Others(notices)[1..] == Others(notices[1..]);
      PushedInTurn(s.pending, notices);
    }
  }

  lemma PushedInTurn(pending: seq<HalfClose.Fn>, notices: seq<Notice>)
    requires notices != [] && Callbacks(notices)
    ensures pending + [HalfClose.OtherFn] + Fns(notices[1..]) == pending + Fns(notices)
  {
    assert FnOf(notices[0]) == HalfClose.OtherFn;
    assert [HalfClose.OtherFn] + Fns(notices[1..]) == Fns(notices);
  }

  lemma {:induction false} CallbacksGiveNothing(notices: seq<Notice>)
    ensures HalfClose.Given(Others(notices)) == []
  {
    if notices != [] {
      CallbacksGiveNothing(notices[1..]);
      assert Others(notices)[1..] == Others(notices[1..]);
    }
  }

  /** A step of the half-close, then what it posted. */
  lemma StepThenPosts(e: Edition, s: HalfClose.Sys, step: HalfClose.Step, posts: seq<Notice>)
    requires HalfClose.Enabled(s, step) && Callbacks(posts) && !step.BeginSend?
    ensures var steps, next := [step] + Others(posts), HalfClose.Next(e, s, step);
            && HalfClose.Schedulable(e, s, steps) && HalfClose.Given(steps) == []
            && HalfClose.After(e, s, steps) == next.(pending := next.pending + Fns(posts))
  {
    CallbacksArePushed(e, HalfClose.Next(e, s, step), posts);
    CallbacksGiveNothing(posts);
    assert ([step] + Others(posts))[1..] == Others(posts);
  }

  /** What a step of the loop adds to its own queue. */
  function NewPosts(e: Edition, q: Served, m: Move): seq<Notice>
    requires CanMove(q, m)
  {
    var d := Moved(e, q, m);
    if |q.conn.notices| <= |d.conn.notices| then d.conn.notices[|q.conn.notices|..] else []
  }

  /** One step of the loop, or one call, in steps of the half-close. */
  function StepsOf(e: Edition, q: Served, m: Move): seq<HalfClose.Step>
    requires CanMove(q, m)
  {
    match m
    case Send(data) => if q.conn.state == Connected then [HalfClose.BeginSend(data), HalfClose.PushSend] else []
    case TakeQueue => [HalfClose.Swap]
    case PerformNext(w) => [HalfClose.RunFn(w)] + Others(NewPosts(e, q, m))
    case EndBatch => [HalfClose.EndBatch]
    case WriteReady(w) => [HalfClose.WriteReady(w)] + Others(NewPosts(e, q, m))
  }

  /** A handler ran: it posted callbacks, and a notice may have left the batch. */
  lemma HandledShows(s: HalfClose.Sys, q: Served, c': Conn, d: Served)
    requires Shows(s, q) && PostsOnly(q.conn, d.conn, s.conn, c') && d.running == q.running
    ensures var posts := d.conn.notices[|q.conn.notices|..];
            Shows(s.(conn := c', batch := Fns(d.batch), pending := s.pending + Fns(posts)), d)
  {
    var posts := d.conn.notices[|q.conn.notices|..];
    assert d.conn.notices == q.conn.notices + posts;
    FnsConcat(q.conn.notices, posts);
  }

  lemma PerformEnabled(s: HalfClose.Sys, q: Served, w: WriteResult)
    requires Shows(s, q) && CanMove(q, PerformNext(w))
    ensures HalfClose.Enabled(s, HalfClose.RunFn(w)) && s.batch[0] == FnOf(q.batch[0])
    ensures s.batch[1..] == Fns(q.batch[1..])
  {
  }

  lemma PerformShows(e: Edition, s: HalfClose.Sys, q: Served, w: WriteResult)
    requires Shows(s, q) && CanMove(q, PerformNext(w))
    ensures HalfClose.Enabled(s, HalfClose.RunFn(w))
    ensures var next, posts := HalfClose.Next(e, s, HalfClose.RunFn(w)), NewPosts(e, q, PerformNext(w));
            Callbacks(posts) && Shows(next.(pending := next.pending + Fns(posts)), Moved(e, q, PerformNext(w)))
  {
    PerformEnabled(s, q, w);
    PerformPosts(e, q.conn, s.conn, q.batch[0], w);
    HandledShows(s, q, HalfClose.RunHead(e, s.conn, FnOf(q.batch[0]), w), Moved(e, q, PerformNext(w)));
  }

  lemma WriteShows(e: Edition, s: HalfClose.Sys, q: Served, w: WriteResult)
    requires Shows(s, q) && CanMove(q, WriteReady(w))
    ensures HalfClose.Enabled(s, HalfClose.WriteReady(w))
    ensures var next, posts := HalfClose.Next(e, s, HalfClose.WriteReady(w)), NewPosts(e, q, WriteReady(w));
            Callbacks(posts) && Shows(next.(pending := next.pending + Fns(posts)), Moved(e, q, WriteReady(w)))
  {
    WritePosts(q.conn, s.conn, w);
    HandledShows(s, q, s.conn.HandleWrite(w), Moved(e, q, WriteReady(w)));
  }

  /** A send by another thread is the half-close's check and push in turn. */
  lemma SendShows(e: Edition, s: HalfClose.Sys, q: Served, data: seq<Byte>)
    requires Shows(s, q)
    ensures var steps := StepsOf(e, q, Send(data));
            && HalfClose.Schedulable(e, s, steps)
            && HalfClose.Given(steps) == (if q.conn.state == Connected then data else [])
            && Shows(HalfClose.After(e, s, steps), Moved(e, q, Send(data)))
  {
    if q.conn.state == Connected {
      var steps := StepsOf(e, q, Send(data));
      var s' := HalfClose.Next(e, s, HalfClose.BeginSend(data));
      assert steps[1..] == [HalfClose.PushSend] && steps[1..][1..] == [];
      assert HalfClose.After(e, s', steps[1..]) == HalfClose.Next(e, s', HalfClose.PushSend);
      assert HalfClose.Given(steps[1..]) == [] + HalfClose.Given([]);
      FnsConcat(q.conn.notices, [SendCall(data)]);
      assert Fns([SendCall(data)]) == [HalfClose.SendFn(data)];
    }
  }

  lemma PlainShows(e: Edition, s: HalfClose.Sys, q: Served, m: Move)
    requires Shows(s, q) && CanMove(q, m) && (m == TakeQueue || m == EndBatch)
    ensures var steps := StepsOf(e, q, m);
            && HalfClose.Schedulable(e, s, steps) && HalfClose.Given(steps) == []
            && Shows(HalfClose.After(e, s, steps), Moved(e, q, m))
  {
    var step := if m == TakeQueue then HalfClose.Swap else HalfClose.EndBatch;
    assert [step][1..] == [];
    assert HalfClose.After(e, s, [step]) == HalfClose.Next(e, s, step);
  }

  /** Each step keeps the queue and the half-close's pending the same. */
  lemma MoveShows(e: Edition, s: HalfClose.Sys, q: Served, m: Move)
    requires Shows(s, q) && CanMove(q, m)
    ensures var steps := StepsOf(e, q, m);
            && HalfClose.Schedulable(e, s, steps)
            && HalfClose.Given(steps) == (if m.Send? && q.conn.state == Connected then m.data else [])
            && Shows(HalfClose.After(e, s, steps), Moved(e, q, m))
  {
    match m
    case Send(data) => SendShows(e, s, q, data);
    case TakeQueue => PlainShows(e, s, q, m);
    case EndBatch => PlainShows(e, s, q, m);
    case PerformNext(w) =>
      PerformShows(e, s, q, w);
      StepThenPosts(e, s, HalfClose.RunFn(w), NewPosts(e, q, m));
    case WriteReady(w) =>
      WriteShows(e, s, q, w);
      StepThenPosts(e, s, HalfClose.WriteReady(w), NewPosts(e, q, m));
  }

  lemma {:induction false} AfterConcat(
    e: Edition, s: HalfClose.Sys, first: seq<HalfClose.Step>, second: seq<HalfClose.Step>)
    requires HalfClose.Schedulable(e, s, first) && HalfClose.Schedulable(e, HalfClose.After(e, s, first), second)
    ensures HalfClose.Schedulable(e, s, first + second)
    ensures HalfClose.After(e, s, first + second) == HalfClose.After(e, HalfClose.After(e, s, first), second)
    decreases |first|
  {
    if first == [] {
      assert first + second == second;
    } else {
      var both := first + second;
      assert both[0] == first[0] && both[1..] == first[1..] + second;
      AfterConcat(e, HalfClose.Next(e, s, first[0]), first[1..], second);
      assert HalfClose.Schedulable(e, s, both);
    }
  }

  lemma {:induction false} GivenConcat(first: seq<HalfClose.Step>, second: seq<HalfClose.Step>)
    ensures HalfClose.Given(first + second) == HalfClose.Given(first) + HalfClose.Given(second)
  {
    if first == [] {
      assert first + second == second;
    } else {
      assert (first + second)[1..] == first[1..] + second;
      GivenConcat(first[1..], second);
    }
  }

  function StepsOfAll(e: Edition, q: Served, moves: seq<Move>): seq<HalfClose.Step>
    requires CanMoveAll(e, q, moves)
    decreases |moves|
  {
    if moves == [] then [] else StepsOf(e, q, moves[0]) + StepsOfAll(e, Moved(e, q, moves[0]), moves[1..])
  }

  /** Every run of calls and loop steps is a run of the half-close with the same
      payloads given. */
  lemma {:induction false} MovesShow(e: Edition, s: HalfClose.Sys, q: Served, moves: seq<Move>)
    requires Shows(s, q) && CanMoveAll(e, q, moves)
    ensures var steps := StepsOfAll(e, q, moves);
            && HalfClose.Schedulable(e, s, steps)
            && HalfClose.Given(steps) == GivenIn(e, q, moves)
            && Shows(HalfClose.After(e, s, steps), MovedAll(e, q, moves))
    decreases |moves|
  {
    if moves != [] {
      var first := StepsOf(e, q, moves[0]);
      var q' := Moved(e, q, moves[0]);
      MoveShows(e, s, q, moves[0]);
      MovesShow(e, HalfClose.After(e, s, first), q', moves[1..]);
      AfterConcat(e, s, first, StepsOfAll(e, q', moves[1..]));
      GivenConcat(first, StepsOfAll(e, q', moves[1..]));
    }
  }

  // ---- what arrives

  lemma {:induction false} FnsCarry(notices: seq<Notice>)
    ensures HalfClose.Payload(Fns(notices)) == Carried(notices)
  {
    if notices != [] {
      assert Fns(notices)[1..] == Fns(notices[1..]);
      FnsCarry(notices[1..]);
    }
  }

  /** The connection in the half-close's terms. */
  function Shown(q: Served): HalfClose.Sys {
    HalfClose.Sys(q.conn, q.running, Fns(q.batch), Fns(q.conn.notices), HalfClose.Outside)
  }

  /** Established, with no shutdown called yet. */
  ghost predicate Sending(e: Edition, q: Served) {
    && Open(q.conn) && Mirrors(q.conn) && !q.conn.writeShut
    && ShutdownCall !in q.batch && ShutdownCall !in q.conn.notices
    && (!q.running ==> q.batch == [])
    && (q.conn.state == Connected || (e == AsWritten && q.conn.state == Disconnected))
  }

  lemma SendingShows(e: Edition, q: Served)
    requires Sending(e, q)
    ensures Shows(Shown(q), q) && HalfClose.Sending(e, Shown(q))
  {
    NoShutdown(q.batch);
    NoShutdown(q.conn.notices);
  }

  lemma NoShutdown(notices: seq<Notice>)
    requires ShutdownCall !in notices
    ensures HalfClose.ShutdownFn !in Fns(notices)
  {
    forall i | 0 <= i < |notices|
      ensures Fns(notices)[i] != HalfClose.ShutdownFn
    {
      assert notices[i] in notices;
    }
  }

  /** All that is on its way to the socket. */
  function OnItsWay(q: Served): seq<Byte> {
    q.conn.out + Carried(q.batch) + Carried(q.conn.notices)
  }

  lemma WaysAgree(s: HalfClose.Sys, q: Served)
    requires Shows(s, q)
    ensures HalfClose.OnTheWay(s) == OnItsWay(q) && HalfClose.Unsent(s) == OnItsWay(q)
  {
    FnsCarry(q.batch);
    FnsCarry(q.conn.notices);
    assert HalfClose.Unsent(s) + [] == HalfClose.Unsent(s);
  }

  /** Whatever the loop does meanwhile, socket, backlog, batch and queue together grow
      by exactly the payloads another thread gave while the connection was connected. */
  lemma GivenArrives(e: Edition, q: Served, moves: seq<Move>)
    requires Sending(e, q) && CanMoveAll(e, q, moves)
    ensures var d := MovedAll(e, q, moves);
            d.conn.wire + OnItsWay(d) == q.conn.wire + OnItsWay(q) + GivenIn(e, q, moves)
  {
    SendingShows(e, q);
    MovesShow(e, Shown(q), q, moves);
    HalfClose.CallsArrive(e, Shown(q), StepsOfAll(e, q, moves));
    WaysAgree(Shown(q), q);
    WaysAgree(HalfClose.After(e, Shown(q), StepsOfAll(e, q, moves)), MovedAll(e, q, moves));
  }

  // ---- and when the write side is shut

  /** shutdown() by another thread. */
  function ShutBehind(e: Edition, q: Served): Served {
    q.(conn := q.conn.ShutdownFrom(e, false))
  }

  /** It is the half-close's store and push in turn. */
  lemma ShutdownShows(e: Edition, s: HalfClose.Sys, q: Served)
    requires Shows(s, q) && q.conn.ShutdownTakes(e)
    ensures HalfClose.Enabled(HalfClose.StoreShutdown(s), HalfClose.PushShutdown)
    ensures Shows(HalfClose.Next(e, HalfClose.StoreShutdown(s), HalfClose.PushShutdown), ShutBehind(e, q))
  {
    FnsConcat(q.conn.notices, [ShutdownCall]);
    assert Fns([ShutdownCall]) == [HalfClose.ShutdownFn];
  }

  /** No run from here shuts the write side before the last of the bytes. */
  ghost predicate WaitsFor(e: Edition, q: Served, all: seq<Byte>) {
    forall moves | CanMoveAll(e, q, moves) ::
      MovedAll(e, q, moves).conn.writeShut ==> MovedAll(e, q, moves).conn.wire == all
  }

  /** The half-close's condition, on the queue itself. */
  predicate SafeToShut(e: Edition, q: Served) {
    || Carried(q.conn.notices) == []
    || (q.conn.out == [] && (e == AsWritten || Carried(q.batch) == []))
    || (e == AsWritten && exists i :: 0 <= i < |q.batch| && q.batch[i].SendCall?)
  }

  lemma SafetyAgrees(e: Edition, s: HalfClose.Sys, q: Served)
    requires Shows(s, q)
    ensures SafeToShut(e, q) <==> HalfClose.SafeToShut(e, s)
  {
    FnsCarry(q.batch);
    FnsCarry(q.conn.notices);
    assert forall i :: 0 <= i < |q.batch| ==> (s.batch[i].SendFn? <==> q.batch[i].SendCall?);
    if exists i :: 0 <= i < |q.batch| && q.batch[i].SendCall? {
      var i :| 0 <= i < |q.batch| && q.batch[i].SendCall?;
      assert s.batch[i].SendFn?;
    }
  }

  /** When it is safe, no run from the shutdown on shuts early. */
  lemma SafeWaits(e: Edition, s: HalfClose.Sys, q: Served, all: seq<Byte>)
    requires Shows(s, q) && q.conn.ShutdownTakes(e) && HalfClose.WaitsFor(e, s, all)
    ensures WaitsFor(e, ShutBehind(e, q), all)
  {
    ShutdownShows(e, s, q);
    var s0 := HalfClose.StoreShutdown(s);
    var s1 := HalfClose.Next(e, s0, HalfClose.PushShutdown);
    forall moves | CanMoveAll(e, ShutBehind(e, q), moves)
      ensures var d := MovedAll(e, ShutBehind(e, q), moves);
              d.conn.writeShut ==> d.conn.wire == all
    {
      MovesShow(e, s1, ShutBehind(e, q), moves);
      var steps := [HalfClose.PushShutdown] + StepsOfAll(e, ShutBehind(e, q), moves);
      assert steps[1..] == StepsOfAll(e, ShutBehind(e, q), moves);
      assert HalfClose.Schedulable(e, s0, steps);
      assert HalfClose.Complete(HalfClose.After(e, s0, steps), all);
    }
  }

  lemma {:induction false} CallbacksCarryNothing(notices: seq<Notice>)
    requires Callbacks(notices)
    ensures HalfClose.Payload(Fns(notices)) == []
  {
    assert !HalfClose.HasSend(Fns(notices));
    HalfClose.NoSendNoPayload(Fns(notices));
  }

  /** The schedule of the half-close that shuts early, as moves. */
  lemma {:induction false} PrematureMoves(e: Edition, s: HalfClose.Sys, q: Served) returns (moves: seq<Move>)
    requires HalfClose.Exposed(e, s) && Shows(s, q)
    ensures CanMoveAll(e, q, moves) && MovedAll(e, q, moves).conn.writeShut
    ensures |MovedAll(e, q, moves).conn.wire| < |s.conn.wire + HalfClose.Unsent(s)|
    decreases s.running, |s.batch|
  {
    if !s.running {
      moves := DrainsEarly(e, s, q);
    } else {
      var m := if s.batch == [] then EndBatch else PerformNext(HalfClose.BLOCKED);
      var s' := ExposedMove(e, s, q, m);
      var rest := PrematureMoves(e, s', Moved(e, q, m));
      moves := [m] + rest;
      assert moves[1..] == rest;
    }
  }

  lemma DrainsEarly(e: Edition, s: HalfClose.Sys, q: Served) returns (moves: seq<Move>)
    requires HalfClose.Exposed(e, s) && Shows(s, q) && !s.running
    ensures CanMoveAll(e, q, moves) && MovedAll(e, q, moves).conn.writeShut
    ensures |MovedAll(e, q, moves).conn.wire| < |s.conn.wire + HalfClose.Unsent(s)|
  {
    var all := WriteResult(|q.conn.out|, OtherErrno);
    HalfClose.WriteEffect(e, q.conn, all);
    moves := [WriteReady(all)];
    assert moves[1..] == [];
    var d := Moved(e, q, WriteReady(all));
    assert MovedAll(e, q, moves) == d;
    assert |d.conn.wire| + |d.conn.out| == |q.conn.wire| + |q.conn.out|;
  }

  lemma ExposedMove(e: Edition, s: HalfClose.Sys, q: Served, m: Move) returns (s': HalfClose.Sys)
    requires HalfClose.Exposed(e, s) && Shows(s, q) && s.running
    requires m == if s.batch == [] then EndBatch else PerformNext(HalfClose.BLOCKED)
    ensures CanMove(q, m) && HalfClose.Exposed(e, s') && Shows(s', Moved(e, q, m))
    ensures |s'.conn.wire + HalfClose.Unsent(s')| == |s.conn.wire + HalfClose.Unsent(s)|
    ensures if s.batch == [] then !s'.running else s'.running && |s'.batch| < |s.batch|
  {
    if s.batch == [] {
      s' := HalfClose.Next(e, s, HalfClose.EndBatch);
    } else {
      HalfClose.ExposedHead(e, s);
      var next := HalfClose.Next(e, s, HalfClose.RunFn(HalfClose.BLOCKED));
      PerformShows(e, s, q, HalfClose.BLOCKED);
      var posts := NewPosts(e, q, m);
      s' := next.(pending := next.pending + Fns(posts));
      CallbacksCarryNothing(posts);
      HalfClose.PayloadOfConcat(next.pending, Fns(posts));
    }
  }

  /** Any calls of send by another thread among the loop's steps, then its shutdown: the
      write side waits for every byte given while connected, under every schedule, if
      and only if it is safe where the shutdown is called. */
  lemma ForeignHalfClose(e: Edition, q: Served, moves: seq<Move>)
    requires Sending(e, q) && CanMoveAll(e, q, moves) && MovedAll(e, q, moves).conn.ShutdownTakes(e)
    ensures var d := MovedAll(e, q, moves);
            WaitsFor(e, ShutBehind(e, d), q.conn.wire + OnItsWay(q) + GivenIn(e, q, moves)) <==> SafeToShut(e, d)
  {
    var d := MovedAll(e, q, moves);
    var s, steps := Shown(q), StepsOfAll(e, q, moves);
    SendingShows(e, q);
    MovesShow(e, s, q, moves);
    var s' := HalfClose.After(e, s, steps);
    HalfClose.CallsArrive(e, s, steps);
    HalfClose.QueuedCalls(e, s, steps);
    WaysAgree(s, q);
    SafetyAgrees(e, s', d);
    var all := q.conn.wire + OnItsWay(q) + GivenIn(e, q, moves);
    if SafeToShut(e, d) {
      SafeWaits(e, s', d, all);
    } else {
      ShutsEarly(e, s', d);
      WaysAgree(s', d);
    }
  }

  lemma ShutsEarly(e: Edition, s: HalfClose.Sys, q: Served)
    requires Shows(s, q) && HalfClose.Sending(e, s) && q.conn.ShutdownTakes(e) && !SafeToShut(e, q)
    ensures !WaitsFor(e, ShutBehind(e, q), s.conn.wire + HalfClose.Unsent(s))
  {
    SafetyAgrees(e, s, q);
    ShutdownShows(e, s, q);
    var s0 := HalfClose.StoreShutdown(s);
    var s1 := HalfClose.Next(e, s0, HalfClose.PushShutdown);
    HalfClose.PushArrives(s0, HalfClose.ShutdownFn);
    HalfClose.PayloadOfConcat(s.pending, [HalfClose.ShutdownFn]);
    var moves := PrematureMoves(e, s1, ShutBehind(e, q));
  }
}
