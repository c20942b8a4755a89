/** Channels and the epoll poller as objects, each method equal to the registry
    function of the same name on what the objects hold. */
module PollerModel {
  import opened Registry

  const INIT_EVENT_LIST_SIZE: nat := 16

  /** One entry of epoll_wait's result. */
  datatype Ready = Ready(fd: int, revents: Mask)

  datatype WaitResult = Events(list: seq<Ready>) | WaitError(errno: int)

  class Channel {
    const poller: EPollPoller
    const fd: int
    var events: Mask
    var revents: Mask
    var index: Index
    var tied: bool
    var callbacks: set<Handler>

    constructor (poller: EPollPoller, fd: int)
      requires poller.Valid()
      requires forall c :: c in poller.live ==> c.fd != fd
      modifies poller`live
      ensures this.poller == poller && this.fd == fd && !tied && callbacks == {}
      ensures events == NONE_EVENT && revents == NONE_EVENT && index == New
      ensures poller.live == old(poller.live) + {this} && poller.Valid()
      ensures poller.View() == Apply(old(poller.View()), Create(this, fd))
    {
      this.poller := poller;
      this.fd := fd;
      events, revents := NONE_EVENT, NONE_EVENT;
      index := New;
      tied := false;
      callbacks := {};
      new;
      CreateAgrees(old(poller.View()), this, fd);
      poller.live := poller.live + {this};
      assert poller.View() == Apply(old(poller.View()), Create(this, fd));
    }

    predicate IsNoneEvent()
      reads this
    {
      events == NONE_EVENT
    }

    predicate IsWriting(): (b: bool)
      reads this
      ensures b <==> EPOLLOUT in events
    {
      assert EPOLLOUT in events <==> EPOLLOUT in events * WRITE_EVENT;
      events * WRITE_EVENT != {}
    }

    predicate IsReading(): (b: bool)
      reads this
      ensures b <==> EPOLLIN in events || EPOLLPRI in events
    {
      assert forall e <- READ_EVENT :: e in events <==> e in events * READ_EVENT;
      events * READ_EVENT != {}
    }

    /** Keeps the owner's weak pointer; from now on an event finds its owner first. */
    method Tie()
      modifies this`tied
      ensures tied
    {
      tied := true;
    }

    method SetCallbacks(handlers: set<Handler>)
      modifies this`callbacks
      ensures callbacks == old(callbacks) + handlers
    {
      callbacks := callbacks + handlers;
    }

    /** Runs nothing when the owner a channel is tied to has gone. The result lists the
        callbacks that ran. */
    method HandleEvent(ownerAlive: bool) returns (calls: seq<Handler>)
      ensures calls == if tied && !ownerAlive then [] else Called(revents, callbacks)
      ensures !tied || ownerAlive ==>
                && (CloseHandler in calls
                    <==> EPOLLHUP in revents && EPOLLIN !in revents && CloseHandler in callbacks)
                && (ErrorHandler in calls <==> EPOLLERR in revents && ErrorHandler in callbacks)
                && (ReadHandler in calls
                    <==> (EPOLLIN in revents || EPOLLPRI in revents) && ReadHandler in callbacks)
                && (WriteHandler in calls <==> EPOLLOUT in revents && WriteHandler in callbacks)
      ensures forall i, j :: 0 <= i < j < |calls| ==> Rank(calls[i]) < Rank(calls[j])
    {
      CalledByFlags(revents, callbacks);
      calls := [];
      if tied {
        var guard := ownerAlive;
        if guard {
          calls := HandleEventWithGuard();
        }
      } else {
        calls := HandleEventWithGuard();
      }
    }

    method HandleEventWithGuard() returns (calls: seq<Handler>)
      ensures calls == Called(revents, callbacks)
    {
      calls := [];
      if EPOLLHUP in revents && EPOLLIN !in revents {
        if CloseHandler in callbacks {
          calls := calls + [CloseHandler];
        }
      }
      if EPOLLERR in revents {
        if ErrorHandler in callbacks {
          calls := calls + [ErrorHandler];
        }
      }
      if EPOLLIN in revents || EPOLLPRI in revents {
        if ReadHandler in callbacks {
          calls := calls + [ReadHandler];
        }
      }
      if EPOLLOUT in revents {
        if WriteHandler in callbacks {
          calls := calls + [WriteHandler];
        }
      }
    }

    ghost predicate Registered()
      reads poller, poller.live`events, poller.live`index
    {
      this in poller.live && poller.Valid()
    }

    method EnableReading()
      requires Registered()
      modifies this`events, this`index, poller
      ensures Registered() && poller.live == old(poller.live)
      ensures poller.View() == old(poller.View()).SetEvents(this, old(events) + READ_EVENT)
    {
      StoreAndUpdate(events + READ_EVENT);
    }

    method DisableReading()
      requires Registered()
      modifies this`events, this`index, poller
      ensures Registered() && poller.live == old(poller.live)
      ensures poller.View() == old(poller.View()).SetEvents(this, old(events) - READ_EVENT)
    {
      StoreAndUpdate(events - READ_EVENT);
    }

    method EnableWriting()
      requires Registered()
      modifies this`events, this`index, poller
      ensures Registered() && poller.live == old(poller.live)
      ensures poller.View() == old(poller.View()).SetEvents(this, old(events) + WRITE_EVENT)
    {
      StoreAndUpdate(events + WRITE_EVENT);
    }

    method DisableWriting()
      requires Registered()
      modifies this`events, this`index, poller
      ensures Registered() && poller.live == old(poller.live)
      ensures poller.View() == old(poller.View()).SetEvents(this, old(events) - WRITE_EVENT)
    {
      StoreAndUpdate(events - WRITE_EVENT);
    }

    method DisableAll()
      requires Registered()
      modifies this`events, this`index, poller
      ensures Registered() && poller.live == old(poller.live)
      ensures poller.View() == old(poller.View()).SetEvents(this, NONE_EVENT)
    {
      StoreAndUpdate(NONE_EVENT);
    }

    method StoreAndUpdate(mask: Mask)
      requires Registered()
      modifies this`events, this`index, poller
      ensures Registered() && poller.live == old(poller.live)
      ensures poller.View() == old(poller.View()).SetEvents(this, mask)
    {
      ghost var before := poller.View();
      events := mask;
      assert poller.View() == before.(chans := before.chans[this := before.chans[this].(events := mask)]);
      poller.UpdateChannel(this);
      SetEventsAgrees(before, this, mask);
    }

    method Remove()
      requires Registered()
      modifies this`index, poller
      ensures Registered() && poller.live == old(poller.live)
      ensures poller.View() == old(poller.View()).RemoveChannel(this)
    {
      RemoveChannelAgrees(poller.View(), this);
      poller.RemoveChannel(this);
    }
  }

  class EPollPoller {
    var channels: map<int, Channel>
    var kernel: map<int, Interest<Channel>>
    var failed: seq<Ctl>
    var fatal: bool
    var eventListSize: nat
    /** The channels of this poller's loop that exist. */
    ghost var live: set<Channel>

    ghost function View(): Reg<Channel>
      reads this, live`events, live`index
    {
      Reg(map c | c in live :: Chan(c.fd, c.events, c.index), channels, kernel, failed, fatal)
    }

    ghost predicate Valid()
      reads this, live`events, live`index
    {
      && View().Agrees()
      && (forall c :: c in live ==> c.poller == this)
      && 0 < eventListSize
    }

    constructor ()
      ensures Valid() && live == {} && View() == Empty()
    {
      channels, kernel, failed, fatal := map[], map[], [], false;
      eventListSize := INIT_EVENT_LIST_SIZE;
      live := {};
    }

    predicate HasChannel(channel: Channel)
      reads this
    {
      channel.fd in channels && channels[channel.fd] == channel
    }

    /** One epoll_ctl call. */
    method Update(op: Ctl, channel: Channel)
      requires channel in live
      modifies this`kernel, this`failed, this`fatal
      ensures View() == old(View()).Update(op, channel)
    {
      var refused := (op == CtlAdd) == (channel.fd in kernel);
      if refused {
        failed := failed + [op];
        if op != CtlDel {
          fatal := true;
        }
      } else if op == CtlDel {
        kernel := kernel - {channel.fd};
      } else {
        kernel := kernel[channel.fd := Interest(channel.events, channel)];
      }
    }

    method SetIndex(channel: Channel, index: Index)
      requires channel in live
      modifies channel`index
      ensures View() == old(View()).SetIndex(channel, index)
    {
      channel.index := index;
    }

    method UpdateChannel(channel: Channel)
      requires channel in live
      modifies this`channels, this`kernel, this`failed, this`fatal, channel`index
      ensures View() == old(View()).UpdateChannel(channel)
    {
      var index := channel.index;
      ghost var before := View();
      if index == New || index == Deleted {
        if index == New {
          channels := channels[channel.fd := channel];
        }
        assert View() == before.(channels := channels);
        SetIndex(channel, Added);
        Update(CtlAdd, channel);
      } else {
        if channel.IsNoneEvent() {
          Update(CtlDel, channel);
          SetIndex(channel, Deleted);
        } else {
          Update(CtlMod, channel);
        }
      }
    }

    method RemoveChannel(channel: Channel)
      requires channel in live
      modifies this`channels, this`kernel, this`failed, this`fatal, channel`index
      ensures View() == old(View()).RemoveChannel(channel)
    {
      var index := channel.index;
      ghost var before := View();
      channels := channels - {channel.fd};
      assert View() == before.(channels := before.channels - {channel.fd});
      if index == Added {
        Update(CtlDel, channel);
      }
      SetIndex(channel, New);
    }

    /** What epoll_wait may deliver: registered fds, each at most once, no more than
        the event list holds. */
    predicate Deliverable(list: seq<Ready>)
      reads this
    {
      && |list| <= eventListSize
      && (forall i :: 0 <= i < |list| ==> list[i].fd in kernel)
      && (forall i, j :: 0 <= i < j < |list| ==> list[i].fd != list[j].fd)
    }

    method FillActiveChannels(list: seq<Ready>) returns (active: seq<Channel>)
      requires Valid() && Deliverable(list)
      modifies live`revents
      ensures View() == old(View())
      ensures |active| == |list|
      ensures forall i :: 0 <= i < |list| ==>
                && active[i] == kernel[list[i].fd].ptr
                && active[i].fd == list[i].fd && active[i].revents == list[i].revents
    {
      active := [];
      for i := 0 to |list|
        invariant View() == old(View())
        invariant |active| == i
        invariant forall j :: 0 <= j < i ==>
                    && active[j] == kernel[list[j].fd].ptr
                    && active[j].fd == list[j].fd && active[j].revents == list[j].revents
      {
        var channel := kernel[list[i].fd].ptr;
        ghost var entry := View().channels[list[i].fd];
        assert View().ChanAgrees(entry);
        assert entry == channel && channel in live;
        channel.revents := list[i].revents;
        active := active + [channel];
      }
    }

    /** The active list names every reported channel once, each of them still added,
        and the event list doubles exactly when it came back full. */
    method Poll(env: WaitResult) returns (active: seq<Channel>)
      requires Valid() && (env.Events? ==> Deliverable(env.list))
      modifies this`eventListSize, live`revents
      ensures Valid() && View() == old(View())
      ensures env.WaitError? || env.list == [] ==> active == []
      ensures env.Events? ==>
                && |active| == |env.list|
                && (forall i :: 0 <= i < |active| ==>
                      active[i].fd == env.list[i].fd && active[i].revents == env.list[i].revents)
      ensures forall i :: 0 <= i < |active| ==> active[i] in live && active[i].index == Added
      ensures forall i, j :: 0 <= i < j < |active| ==> active[i] != active[j]
      ensures eventListSize == (if |active| == old(eventListSize) then 2 else 1) * old(eventListSize)
    {
      active := [];
      if env.Events? && |env.list| > 0 {
        active := FillActiveChannels(env.list);
        forall i | 0 <= i < |active|
          ensures active[i] in live && active[i].index == Added
        {
          var entry := View().channels[env.list[i].fd];
          assert View().ChanAgrees(entry);
        }
        if |env.list| == eventListSize {
          eventListSize := eventListSize * 2;
        }
      }
    }
  }
}
