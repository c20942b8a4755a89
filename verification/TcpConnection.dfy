/** A connection as an object over its channel, its poller, its buffers and its
    loop. Every handler equals the function of the same name on what they hold. */
module TcpConnectionModel {
  import opened BufferModel
  import opened Registry
  import opened PollerModel
  import opened EventLoopModel
  import opened ConnectionSpec
  import ConnectionLaws
  import LoopProtocol

  class TcpConnection {
    const edition: Edition
    const loop: EventLoop<Notice>
    const channel: Channel
    const inputBuffer: Buffer
    const outputBuffer: Buffer
    const hasWriteComplete: bool
    var hasHighWater: bool
    var highWaterMark: nat
    var state: StateE
    /** The socket: what it has taken, and whether its write side is shut. */
    var wire: seq<Byte>
    var writeShut: bool
    /** The calls of the close callback. */
    var closes: nat

    ghost predicate Valid()
      reads this, loop, channel, channel.poller, channel.poller.live`events, channel.poller.live`index
      reads inputBuffer, outputBuffer
    {
      && loop.Valid() && LoopProtocol.UserCodeRuns(loop.proto)
      && channel.Registered() && channel.callbacks == ALL_HANDLERS
      && inputBuffer.Valid() && outputBuffer.Valid()
      && inputBuffer != outputBuffer && inputBuffer.buffer != outputBuffer.buffer
    }

    ghost function View(): Conn
      requires Valid()
      reads this, loop, channel, channel.poller, channel.poller.live`events, channel.poller.live`index
      reads inputBuffer, outputBuffer, inputBuffer.buffer, outputBuffer.buffer
    {
      Conn(state, Chan(channel.fd, channel.events, channel.index),
           inputBuffer.View().content, outputBuffer.View().content,
           wire, writeShut, loop.pending, closes, hasWriteComplete, hasHighWater, highWaterMark)
    }

    /** What the parts outside a handler's reach keep. */
    twostate predicate SameParts()
      reads channel.poller, loop
    {
      && channel.poller.live == old(channel.poller.live)
      && loop.proto.pc == old(loop.proto.pc)
    }

    constructor (edition: Edition, loop: EventLoop<Notice>, poller: EPollPoller, sockfd: int, hasWriteComplete: bool)
      requires loop.Valid() && LoopProtocol.UserCodeRuns(loop.proto)
      requires poller.Valid() && forall c :: c in poller.live ==> c.fd != sockfd
      modifies poller`live
      ensures Valid() && channel.poller == poller && this.loop == loop && this.edition == edition
      ensures View() == Conn(Connecting, Chan(sockfd, NONE_EVENT, New), [], [], [], false, loop.pending, 0,
                             hasWriteComplete, false, 64 * 1024 * 1024)
      ensures poller.live == old(poller.live) + {channel}
      ensures fresh(channel) && fresh(inputBuffer) && fresh(outputBuffer)
      ensures fresh(inputBuffer.buffer) && fresh(outputBuffer.buffer)
    {
      this.edition := edition;
      this.loop := loop;
      this.hasWriteComplete := hasWriteComplete;
      hasHighWater := false;
      highWaterMark := 64 * 1024 * 1024;
      state := Connecting;
      wire, writeShut, closes := [], false, 0;
      var input := new Buffer();
      var output := new Buffer();
      var socketChannel := new Channel(poller, sockfd);
      socketChannel.SetCallbacks(ALL_HANDLERS);
      inputBuffer := input;
      outputBuffer := output;
      channel := socketChannel;
    }

    predicate IsConnected()
      reads this
    {
      state == Connected
    }

    method SetHighWaterMarkCallback(mark: nat)
      modifies this`hasHighWater, this`highWaterMark
      ensures hasHighWater && highWaterMark == mark
    {
      hasHighWater := true;
      highWaterMark := mark;
    }

    // ------------------------------------------------------------ steps of the handlers

    method PostNotice(notice: Notice)
      requires Valid()
      modifies loop`pending, loop`evt, loop`proto
      ensures Valid() && SameParts() && View() == old(View()).Post(notice)
    {
      loop.QueueInLoop(notice, loop.threadId);
    }

    method StoreMask(mask: Mask)
      requires Valid()
      modifies channel`events, channel`index, channel.poller
      ensures Valid() && SameParts() && View() == old(View()).SetMask(mask)
    {
      SetEventsAgrees(channel.poller.View(), channel, mask);
      channel.StoreAndUpdate(mask);
      assert channel.poller.View().chans[channel] == Touched(old(View()).chan, mask);
    }

    method RemoveChannel()
      requires Valid()
      modifies channel`index, channel.poller
      ensures Valid() && SameParts() && View() == old(View()).Remove()
    {
      RemoveChannelAgrees(channel.poller.View(), channel);
      ghost var before := channel.poller.View();
      channel.Remove();
      assert channel.poller.View().chans[channel] == before.chans[channel].(index := New);
    }

    // ------------------------------------------------------------ handlers

    /** The write at the head of sendInLoop, tried only when nothing waits. */
    method DirectWrite(data: seq<Byte>, w: WriteResult) returns (nwrote: nat, faultError: bool)
      requires Valid() && View().Possible(|data|, w)
      modifies this`wire, loop`pending, loop`evt, loop`proto
      ensures Valid() && SameParts()
      ensures nwrote == old(View()).Written(|data|, w) && faultError == old(View()).Faults(w)
      ensures View() == old(View()).DirectWrite(data, w)
    {
      nwrote := 0;
      faultError := false;
      assert data[..0] == [] && wire + [] == wire;
      if !channel.IsWriting() && outputBuffer.ReadableBytes() == 0 {
        if w.n > 0 {
          nwrote := w.n;
          wire := wire + data[..nwrote];
          if nwrote == |data| && hasWriteComplete {
            PostNotice(WriteComplete);
          }
        } else if w.errno != EWOULDBLOCK {
          if w.errno == EPIPE || w.errno == ECONNRESET {
            faultError := true;
          }
        }
      }
    }

    method AppendOutput(rest: seq<Byte>)
      requires Valid()
      modifies outputBuffer, outputBuffer.buffer
      ensures Valid() && SameParts() && View() == old(View()).(out := old(View()).out + rest)
      ensures outputBuffer.buffer == old(outputBuffer.buffer) || fresh(outputBuffer.buffer)
    {
      outputBuffer.Append(rest);
    }

    method NoteBacklog(added: nat)
      requires Valid()
      modifies loop`pending, loop`evt, loop`proto
      ensures Valid() && SameParts() && View() == old(View()).Noted(added)
    {
      var oldLen := outputBuffer.ReadableBytes();
      if oldLen + added >= highWaterMark && oldLen < highWaterMark && hasHighWater {
        PostNotice(HighWater(oldLen + added));
      }
    }

    method WatchForRoom()
      requires Valid()
      modifies channel`events, channel`index, channel.poller
      ensures Valid() && SameParts() && View() == old(View()).Watched()
    {
      if !channel.IsWriting() {
        StoreMask(channel.events + WRITE_EVENT);
      }
    }

    method Enqueue(rest: seq<Byte>)
      requires Valid()
      modifies loop`pending, loop`evt, loop`proto, channel`events, channel`index, channel.poller
      modifies outputBuffer, outputBuffer.buffer
      ensures Valid() && SameParts() && View() == old(View()).Enqueue(rest)
      ensures outputBuffer.buffer == old(outputBuffer.buffer) || fresh(outputBuffer.buffer)
    {
      NoteBacklog(|rest|);
      AppendOutput(rest);
      WatchForRoom();
    }

    method Transmit(data: seq<Byte>, w: WriteResult)
      requires Valid() && View().Possible(|data|, w)
      modifies this`wire, loop`pending, loop`evt, loop`proto
      modifies channel`events, channel`index, channel.poller
      modifies outputBuffer, outputBuffer.buffer
      ensures Valid() && SameParts() && View() == old(View()).Transmit(data, w)
      ensures outputBuffer.buffer == old(outputBuffer.buffer) || fresh(outputBuffer.buffer)
    {
      var nwrote, faultError := DirectWrite(data, w);
      var remaining := |data| - nwrote;
      if !faultError && remaining > 0 {
        Enqueue(data[nwrote..]);
      }
    }

    method SendInLoop(data: seq<Byte>, w: WriteResult)
      requires Valid() && View().Possible(|data|, w)
      modifies this`state, this`wire, loop`pending, loop`evt, loop`proto
      modifies channel`events, channel`index, channel.poller
      modifies outputBuffer, outputBuffer.buffer
      ensures Valid() && SameParts() && View() == old(View()).SendInLoop(edition, data, w)
      ensures outputBuffer.buffer == old(outputBuffer.buffer) || fresh(outputBuffer.buffer)
    {
      if edition == AsWritten {
        state := Disconnected;
      } else if state == Disconnected {
        return;
      }
      assert View() == old(View()).Entering(edition);
      Transmit(data, w);
    }

    /** On the loop's own thread the payload is written at once, from any other it is
        queued. */
    method Send(tid: LoopProtocol.Tid, data: seq<Byte>, w: WriteResult)
      requires Valid() && View().Possible(|data|, w)
      modifies this`state, this`wire, loop`pending, loop`evt, loop`proto
      modifies channel`events, channel`index, channel.poller
      modifies outputBuffer, outputBuffer.buffer
      ensures Valid() && SameParts() && View() == old(View()).SendFrom(edition, tid == loop.threadId, data, w)
      ensures tid != loop.threadId && old(state) == Connected ==>
                loop.evt > 0 && loop.pending == old(loop.pending) + [SendCall(data)]
      ensures outputBuffer.buffer == old(outputBuffer.buffer) || fresh(outputBuffer.buffer)
    {
      if state == Connected {
        if loop.IsInLoopThread(tid) {
          SendInLoop(data, w);
        } else {
          loop.QueueInLoop(SendCall(data), tid);
        }
      }
    }

    method ShutdownInLoop()
      requires Valid()
      modifies this`writeShut
      ensures Valid() && SameParts() && View() == old(View()).ShutdownInLoop()
    {
      if !channel.IsWriting() {
        writeShut := true;
      }
    }

    /** The state is stored on the calling thread, whichever it is. */
    method Shutdown(tid: LoopProtocol.Tid)
      requires Valid()
      modifies this`state, this`writeShut, loop`pending, loop`evt, loop`proto
      ensures Valid() && SameParts() && View() == old(View()).ShutdownFrom(edition, tid == loop.threadId)
      ensures tid != loop.threadId && old(View()).ShutdownTakes(edition) ==>
                state == Disconnecting && loop.pending == old(loop.pending) + [ShutdownCall]
    {
      if state == (if edition == AsWritten then Disconnected else Connected) {
        state := Disconnecting;
        var runNow := loop.RunInLoop(ShutdownCall, tid);
        if runNow {
          ShutdownInLoop();
        }
      }
    }

    /** Run by the loop when the notice comes out of its queue. */
    method Perform(notice: Notice, w: WriteResult)
      requires Valid() && (notice.SendCall? ==> View().Possible(|notice.data|, w))
      modifies this`state, this`wire, this`writeShut, loop`pending, loop`evt, loop`proto
      modifies channel`events, channel`index, channel.poller
      modifies outputBuffer, outputBuffer.buffer
      ensures Valid() && SameParts() && View() == old(View()).Perform(edition, notice, w)
      ensures outputBuffer.buffer == old(outputBuffer.buffer) || fresh(outputBuffer.buffer)
    {
      match notice
      case SendCall(data) => SendInLoop(data, w);
      case ShutdownCall => ShutdownInLoop();
      case WriteComplete =>
      case HighWater(_) =>
    }

    method Drained()
      requires Valid()
      modifies this`writeShut, loop`pending, loop`evt, loop`proto
      modifies channel`events, channel`index, channel.poller
      ensures Valid() && SameParts() && View() == old(View()).Drained()
    {
      StoreMask(channel.events - WRITE_EVENT);
      if hasWriteComplete {
        PostNotice(WriteComplete);
      }
      if state == Disconnecting {
        ShutdownInLoop();
      }
    }

    method HandleWrite(w: WriteResult)
      requires Valid() && View().Possible(|View().out|, w)
      modifies this`wire, this`writeShut, loop`pending, loop`evt, loop`proto
      modifies channel`events, channel`index, channel.poller
      modifies outputBuffer
      ensures Valid() && SameParts() && View() == old(View()).HandleWrite(w)
      ensures |wire| == |old(wire)| + if EPOLLOUT in old(channel.events) && w.n > 0 then w.n else 0
      ensures outputBuffer.buffer == old(outputBuffer.buffer)
    {
      if channel.IsWriting() {
        if w.n > 0 {
          wire := wire + outputBuffer.buffer[outputBuffer.readerIndex..outputBuffer.readerIndex + w.n];
          assert wire == old(wire) + old(View()).out[..w.n];
          outputBuffer.Retrieve(w.n);
          assert View() == old(View()).(wire := wire, out := old(View()).out[w.n..]);
          if outputBuffer.ReadableBytes() == 0 {
            Drained();
          }
        }
      }
    }

    method HandleClose()
      requires Valid()
      modifies this`state, this`closes, channel`events, channel`index, channel.poller
      ensures Valid() && SameParts() && View() == old(View()).HandleClose()
    {
      state := Disconnected;
      StoreMask(NONE_EVENT);
      closes := closes + 1;
    }

    method HandleRead(r: ReadResult)
      requires Valid() && (r.Received? ==> |r.data| <= inputBuffer.View().ReadCapacity())
      modifies this`state, this`closes, channel`events, channel`index, channel.poller
      modifies inputBuffer, inputBuffer.buffer
      ensures Valid() && SameParts() && View() == old(View()).HandleRead(r)
      ensures inputBuffer.View().content
              == old(inputBuffer.View().content) + if r.Received? then r.data else []
      ensures inputBuffer.buffer == old(inputBuffer.buffer) || fresh(inputBuffer.buffer)
    {
      ghost var before := inputBuffer.View();
      var n, savedErrno := inputBuffer.ReadFd(r);
      if r.Received? {
        ScatterReadIsAppend(before, r.data);
        assert before.content + [] == before.content;
      }
      if n == 0 {
        HandleClose();
      }
    }

    method ConnectEstablished()
      requires Valid()
      modifies this`state, channel`tied, channel`events, channel`index, channel.poller
      ensures Valid() && SameParts() && View() == old(View()).ConnectEstablished() && channel.tied
      ensures state == Connected && channel.events == old(channel.events) + {EPOLLIN, EPOLLPRI}
    {
      state := Connected;
      channel.Tie();
      StoreMask(channel.events + READ_EVENT);
    }

    method ConnectDestroyed()
      requires Valid()
      modifies this`state, channel`events, channel`index, channel.poller
      ensures Valid() && SameParts() && View() == old(View()).ConnectDestroyed()
      ensures !channel.poller.HasChannel(channel)
    {
      if state == Connected {
        state := Disconnected;
        StoreMask(NONE_EVENT);
      }
      RemoveChannel();
      HasChannelIsNotNew(channel.poller.View(), channel);
    }

    method HandleCall(h: Handler, r: ReadResult, w: WriteResult)
      requires Valid() && (h == WriteHandler ==> View().Possible(|View().out|, w))
      requires h == ReadHandler && r.Received? ==> |r.data| <= inputBuffer.View().ReadCapacity()
      modifies this`state, this`closes, this`wire, this`writeShut, loop`pending, loop`evt, loop`proto
      modifies channel`events, channel`index, channel.poller
      modifies inputBuffer, inputBuffer.buffer, outputBuffer
      ensures Valid() && SameParts() && View() == Handle(old(View()), h, r, w)
      ensures inputBuffer.buffer == old(inputBuffer.buffer) || fresh(inputBuffer.buffer)
      ensures outputBuffer.buffer == old(outputBuffer.buffer)
      ensures h != ReadHandler ==> inputBuffer.View() == old(inputBuffer.View())
    {
      match h
      case CloseHandler => HandleClose();
      case ErrorHandler =>
      case ReadHandler => HandleRead(r);
      case WriteHandler => HandleWrite(w);
    }

    method HandleIfCalled(calls: seq<Handler>, h: Handler, r: ReadResult, w: WriteResult)
      requires Valid() && (h == WriteHandler ==> View().Possible(|View().out|, w))
      requires h == ReadHandler && r.Received? ==> |r.data| <= inputBuffer.View().ReadCapacity()
      requires calls == Called(channel.revents, channel.callbacks)
      modifies this`state, this`closes, this`wire, this`writeShut, loop`pending, loop`evt, loop`proto
      modifies channel`events, channel`index, channel.poller
      modifies inputBuffer, inputBuffer.buffer, outputBuffer
      ensures Valid() && SameParts() && View() == HandleWhen(old(View()), channel.revents, h, r, w)
      ensures inputBuffer.buffer == old(inputBuffer.buffer) || fresh(inputBuffer.buffer)
      ensures outputBuffer.buffer == old(outputBuffer.buffer)
      ensures h != ReadHandler ==> inputBuffer.View() == old(inputBuffer.View())
      ensures h != WriteHandler ==> View().out == old(View()).out && writeShut == old(writeShut)
    {
      CalledWhenTriggered(channel.revents, channel.callbacks, h);
      if h in calls {
        HandleCall(h, r, w);
      }
    }

    /** One reported event, from the channel's dispatch to the handlers it calls. Once
        tied, nothing happens to a connection whose owners have gone. */
    method HandleEvent(ownerAlive: bool, r: ReadResult, w: WriteResult)
      requires Valid() && View().Possible(|View().out|, w)
      requires r.Received? ==> |r.data| <= inputBuffer.View().ReadCapacity()
      modifies this`state, this`closes, this`wire, this`writeShut, loop`pending, loop`evt, loop`proto
      modifies channel`events, channel`index, channel.poller
      modifies inputBuffer, inputBuffer.buffer, outputBuffer
      ensures Valid() && SameParts()
      ensures View()
              == if channel.tied && !ownerAlive then old(View()) else Dispatch(old(View()), channel.revents, r, w)
      ensures !channel.tied || ownerAlive ==>
                && closes == old(closes) + (if ConnectionLaws.HangsUp(channel.revents) then 1 else 0)
                             + (if ConnectionLaws.Ends(channel.revents, r) then 1 else 0)
                && inputBuffer.View().content
                   == old(inputBuffer.View().content)
                      + (if ConnectionLaws.Readable(channel.revents) && r.Received? then r.data else [])
                && |wire| == |old(wire)| + ConnectionLaws.EventMoves(old(View()), channel.revents, r, w)
    {
      var calls := channel.HandleEvent(ownerAlive);
      if !channel.tied || ownerAlive {
        ConnectionLaws.DispatchFromFlags(View(), channel.revents, r, w);
        RunHandlers(calls, r, w);
      }
    }

    method RunHandlers(calls: seq<Handler>, r: ReadResult, w: WriteResult)
      requires Valid() && View().Possible(|View().out|, w)
      requires r.Received? ==> |r.data| <= inputBuffer.View().ReadCapacity()
      requires calls == Called(channel.revents, channel.callbacks)
      modifies this`state, this`closes, this`wire, this`writeShut, loop`pending, loop`evt, loop`proto
      modifies channel`events, channel`index, channel.poller
      modifies inputBuffer, inputBuffer.buffer, outputBuffer
      ensures Valid() && SameParts() && View() == Dispatch(old(View()), channel.revents, r, w)
    {
      HandleIfCalled(calls, CloseHandler, r, w);
      HandleIfCalled(calls, ReadHandler, r, w);
      HandleIfCalled(calls, WriteHandler, r, w);
    }

    /** Across buffer, channel and poller: while a connection is open, the kernel's
        mask for its fd asks for EPOLLOUT exactly when bytes wait. */
    lemma KernelMirrorsBacklog()
      requires Valid() && Open(View()) && Mirrors(View())
      ensures channel.fd in channel.poller.kernel
      ensures channel.poller.kernel[channel.fd].ptr == channel
      ensures EPOLLOUT in channel.poller.kernel[channel.fd].mask <==> outputBuffer.ReadableBytes() > 0
    {
      assert channel.poller.View().ChanAgrees(channel);
    }
  }
}
