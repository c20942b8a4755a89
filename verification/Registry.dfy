/** What the poller's fd map, the channels' indices and the kernel's interest set
    say about one another, for channels identified by any type. */
module Registry {

  datatype Event = EPOLLIN | EPOLLPRI | EPOLLOUT | EPOLLERR | EPOLLHUP

  /** An events_ or revents_ word, as the set of its flags. */
  type Mask = set<Event>

  const NONE_EVENT: Mask := {}
  const READ_EVENT: Mask := {EPOLLIN, EPOLLPRI}
  const WRITE_EVENT: Mask := {EPOLLOUT}

  /** The four callbacks of a channel, in the order a dispatch considers them. */
  datatype Handler = CloseHandler | ErrorHandler | ReadHandler | WriteHandler

  predicate Triggers(revents: Mask, h: Handler) {
    match h
    case CloseHandler => EPOLLHUP in revents && EPOLLIN !in revents
    case ErrorHandler => EPOLLERR in revents
    case ReadHandler => EPOLLIN in revents || EPOLLPRI in revents
    case WriteHandler => EPOLLOUT in revents
  }

  function When(h: Handler, revents: Mask, callbacks: set<Handler>): seq<Handler> {
    if Triggers(revents, h) && h in callbacks then [h] else []
  }

  /** The callbacks one dispatch runs, in order. */
  function Called(revents: Mask, callbacks: set<Handler>): seq<Handler> {
    When(CloseHandler, revents, callbacks) + When(ErrorHandler, revents, callbacks)
    + When(ReadHandler, revents, callbacks) + When(WriteHandler, revents, callbacks)
  }

  lemma CalledWhenTriggered(revents: Mask, callbacks: set<Handler>, h: Handler)
    ensures h in Called(revents, callbacks) <==> Triggers(revents, h) && h in callbacks
  {
    assert When(h, revents, callbacks) == [h] || When(h, revents, callbacks) == [];
  }

  /** The place of a callback in a dispatch. */
  function Rank(h: Handler): nat {
    match h
    case CloseHandler => 0
    case ErrorHandler => 1
    case ReadHandler => 2
    case WriteHandler => 3
  }

  /** The callbacks of one dispatch, flag by flag: a hang-up without input closes, an
      error is reported, input or urgent data is read, room is written to; in this
      order, each once. */
  lemma CalledByFlags(revents: Mask, callbacks: set<Handler>)
    ensures var calls := Called(revents, callbacks);
            && (CloseHandler in calls <==> EPOLLHUP in revents && EPOLLIN !in revents && CloseHandler in callbacks)
            && (ErrorHandler in calls <==> EPOLLERR in revents && ErrorHandler in callbacks)
            && (ReadHandler in calls <==> (EPOLLIN in revents || EPOLLPRI in revents) && ReadHandler in callbacks)
            && (WriteHandler in calls <==> EPOLLOUT in revents && WriteHandler in callbacks)
            && forall i, j :: 0 <= i < j < |calls| ==> Rank(calls[i]) < Rank(calls[j])
  {
    forall h: Handler
      ensures h in Called(revents, callbacks) <==> Triggers(revents, h) && h in callbacks
    {
      CalledWhenTriggered(revents, callbacks, h);
    }
  }

  datatype Index = New | Added | Deleted

  datatype Chan = Chan(fd: int, events: Mask, index: Index)

  datatype Interest<!C(==)> = Interest(mask: Mask, ptr: C)

  datatype Ctl = CtlAdd | CtlMod | CtlDel

  /** `failed` lists the epoll_ctl calls the kernel refused, `fatal` says that a
      refused ADD or MOD has ended the process. */
  datatype Reg<!C(==)> = Reg(
    chans: map<C, Chan>,
    channels: map<int, C>,
    kernel: map<int, Interest<C>>,
    failed: seq<Ctl>,
    fatal: bool)
  {
    /** epoll_ctl refuses to add a registered fd and to change or delete any other. */
    predicate Accepts(op: Ctl, fd: int) {
      op == CtlAdd <==> fd !in kernel
    }

    function Update(op: Ctl, c: C): Reg<C>
      requires c in chans
    {
      var fd := chans[c].fd;
      if !Accepts(op, fd) then this.(failed := failed + [op], fatal := fatal || op != CtlDel)
      else if op == CtlDel then this.(kernel := kernel - {fd})
      else this.(kernel := kernel[fd := Interest(chans[c].events, c)])
    }

    function SetIndex(c: C, index: Index): Reg<C>
      requires c in chans
    {
      this.(chans := chans[c := chans[c].(index := index)])
    }

    function UpdateChannel(c: C): Reg<C>
      requires c in chans
    {
      var chan := chans[c];
      if chan.index == New || chan.index == Deleted then
        (if chan.index == New then this.(channels := channels[chan.fd := c]) else this)
          .SetIndex(c, Added).Update(CtlAdd, c)
      else if chan.events == NONE_EVENT then
        Update(CtlDel, c).SetIndex(c, Deleted)
      else
        Update(CtlMod, c)
    }

    function RemoveChannel(c: C): Reg<C>
      requires c in chans
    {
      var erased := this.(channels := channels - {chans[c].fd});
      (if chans[c].index == Added then erased.Update(CtlDel, c) else erased).SetIndex(c, New)
    }

    predicate HasChannel(c: C)
      requires c in chans
    {
      chans[c].fd in channels && channels[chans[c].fd] == c
    }

    /** Every enable or disable function of a channel: store the mask, then update. */
    function SetEvents(c: C, events: Mask): Reg<C>
      requires c in chans
    {
      this.(chans := chans[c := chans[c].(events := events)]).UpdateChannel(c)
    }

    // -------------------------------------------------------------- agreement

    ghost predicate OneChannelPerFd() {
      forall c, d :: c in chans && d in chans && chans[c].fd == chans[d].fd ==> c == d
    }

    /** What a channel's index says about the map and the kernel. */
    ghost predicate ChanAgrees(c: C)
      requires c in chans
    {
      var chan := chans[c];
      match chan.index
      case New => chan.fd !in channels && chan.fd !in kernel
      case Added => HasChannel(c) && chan.fd in kernel && kernel[chan.fd] == Interest(chan.events, c)
      case Deleted => HasChannel(c) && chan.fd !in kernel && chan.events == NONE_EVENT
    }

    ghost predicate Agrees() {
      && OneChannelPerFd()
      && (forall c :: c in chans ==> ChanAgrees(c))
      && (forall fd :: fd in channels ==> channels[fd] in chans && chans[channels[fd]].fd == fd)
      && (forall fd :: fd in kernel ==> fd in channels)
    }

    /** The part of the agreement that the poller's own map has no share in. */
    ghost predicate InSync() {
      && OneChannelPerFd()
      && (forall c :: c in chans ==> (chans[c].index == Added <==> chans[c].fd in kernel))
      && (forall fd :: fd in kernel ==> kernel[fd].ptr in chans && chans[kernel[fd].ptr].fd == fd)
    }

    /** No epoll_ctl call was refused so far. */
    predicate Clean() {
      failed == [] && !fatal
    }
  }

  function Empty<C(==)>(): Reg<C> {
    Reg(map[], map[], map[], [], false)
  }

  /** What becomes of the channel itself when its mask is stored and updated. */
  function Touched(chan: Chan, events: Mask): Chan {
    Chan(chan.fd, events,
         if chan.index == Added && events == NONE_EVENT then Deleted else Added)
  }

  /** What the calls do to the channels themselves does not depend on the rest. */
  lemma ChansEffect<C>(r: Reg<C>, c: C, events: Mask)
    requires c in r.chans
    ensures r.SetEvents(c, events).chans == r.chans[c := Touched(r.chans[c], events)]
    ensures r.RemoveChannel(c).chans == r.chans[c := r.chans[c].(index := New)]
  {
  }

  /** A channel and the kernel's set alone are enough for no call to be refused. */
  lemma SetEventsInSync<C>(r: Reg<C>, c: C, events: Mask)
    requires r.InSync() && c in r.chans
    ensures r.SetEvents(c, events).InSync()
    ensures r.SetEvents(c, events).failed == r.failed && r.SetEvents(c, events).fatal == r.fatal
  {
    var s := r.SetEvents(c, events);
    ChansEffect(r, c, events);
    assert forall d :: d in r.chans && d != c ==> r.chans[d].fd != r.chans[c].fd;
    assert s.kernel == if s.chans[c].index == Added
                       then r.kernel[r.chans[c].fd := Interest(events, c)]
                       else r.kernel - {r.chans[c].fd};
  }

  lemma RemoveChannelInSync<C>(r: Reg<C>, c: C)
    requires r.InSync() && c in r.chans
    ensures r.RemoveChannel(c).InSync()
    ensures r.RemoveChannel(c).failed == r.failed && r.RemoveChannel(c).fatal == r.fatal
  {
    var s := r.RemoveChannel(c);
    ChansEffect(r, c, NONE_EVENT);
    assert forall d :: d in r.chans && d != c ==> r.chans[d].fd != r.chans[c].fd;
    assert s.kernel == r.kernel - {r.chans[c].fd};
  }

  lemma CreateInSync<C>(r: Reg<C>, c: C, fd: int)
    requires r.InSync() && c !in r.chans && forall d :: d in r.chans ==> r.chans[d].fd != fd
    ensures r.(chans := r.chans[c := Chan(fd, NONE_EVENT, New)]).InSync()
  {
    assert fd !in r.kernel;
  }

  /** The kernel reports added channels only. */
  lemma ReportedInSync<C>(r: Reg<C>, c: C)
    requires r.InSync() && exists fd :: fd in r.kernel && r.kernel[fd].ptr == c
    ensures c in r.chans && r.chans[c].index == Added
  {
  }

  lemma SetEventsEffect<C>(r: Reg<C>, c: C, events: Mask)
    requires r.Agrees() && c in r.chans
    ensures var s := r.SetEvents(c, events);
            && s.chans == r.chans[c := Touched(r.chans[c], events)]
            && s.failed == r.failed && s.fatal == r.fatal
            && s.channels == r.channels[r.chans[c].fd := c]
            && s.kernel == if s.chans[c].index == Added
                           then r.kernel[r.chans[c].fd := Interest(events, c)]
                           else r.kernel - {r.chans[c].fd}
  {
    assert r.ChanAgrees(c);
  }

  /** A mask with something in it is what the kernel watches; an empty one takes a
      channel that was added out of the kernel's set. Other fds are left alone. */
  lemma StoredMaskIsWatched<C>(r: Reg<C>, c: C, events: Mask)
    requires r.Agrees() && c in r.chans
    ensures var s, fd := r.SetEvents(c, events), r.chans[c].fd;
            && (events != {} ==> fd in s.kernel && s.kernel[fd] == Interest(events, c))
            && (events == {} && fd in r.kernel ==> fd !in s.kernel)
            && fd in s.channels && s.channels[fd] == c && s.chans[c].events == events
            && (forall g :: g != fd ==> (g in s.kernel <==> g in r.kernel) && (g in s.channels <==> g in r.channels))
            && (forall g :: g != fd && g in r.kernel ==> s.kernel[g] == r.kernel[g])
  {
    SetEventsEffect(r, c, events);
    assert r.ChanAgrees(c);
  }

  /** A removed channel is in neither map, and no other is touched. */
  lemma RemovedIsForgotten<C>(r: Reg<C>, c: C)
    requires r.Agrees() && c in r.chans
    ensures var s, fd := r.RemoveChannel(c), r.chans[c].fd;
            && fd !in s.kernel && fd !in s.channels
            && s.kernel == r.kernel - {fd} && s.channels == r.channels - {fd}
  {
    assert r.ChanAgrees(c);
  }

  lemma SetEventsAgrees<C>(r: Reg<C>, c: C, events: Mask)
    requires r.Agrees() && c in r.chans
    ensures r.SetEvents(c, events).Agrees()
    ensures r.SetEvents(c, events).chans == r.chans[c := Touched(r.chans[c], events)]
    ensures r.SetEvents(c, events).failed == r.failed && r.SetEvents(c, events).fatal == r.fatal
  {
    SetEventsEffect(r, c, events);
    var s := r.SetEvents(c, events);
    forall d | d in s.chans
      ensures s.ChanAgrees(d)
    {
      assert r.ChanAgrees(d);
      assert d != c ==> s.chans[d].fd != r.chans[c].fd;
    }
  }

  lemma RemoveChannelAgrees<C>(r: Reg<C>, c: C)
    requires r.Agrees() && c in r.chans
    ensures r.RemoveChannel(c).Agrees()
    ensures r.RemoveChannel(c).chans == r.chans[c := r.chans[c].(index := New)]
    ensures r.RemoveChannel(c).failed == r.failed && r.RemoveChannel(c).fatal == r.fatal
  {
    var s := r.RemoveChannel(c);
    assert r.ChanAgrees(c);
    forall d | d in s.chans
      ensures s.ChanAgrees(d)
    {
      assert r.ChanAgrees(d);
      assert d != c ==> s.chans[d].fd != r.chans[c].fd;
    }
    forall fd | fd in s.channels
      ensures s.channels[fd] in s.chans && s.chans[s.channels[fd]].fd == fd
    {
    }
  }

  // ---------------------------------------------------------------- runs

  datatype Op<!C(==)> =
    | Create(c: C, fd: int)
    | Set(c: C, events: Mask)
    | Remove(c: C)
    | Destroy(c: C)

  /** A new channel's fd belongs to no living channel; a channel is destroyed only
      after its removal. Everything else may come in any order. */
  predicate CanApply<C>(r: Reg<C>, op: Op<C>) {
    match op
    case Create(c, fd) => c !in r.chans && forall d <- r.chans :: r.chans[d].fd != fd
    case Set(c, _) => c in r.chans
    case Remove(c) => c in r.chans
    case Destroy(c) => c in r.chans && r.chans[c].index == New
  }

  function Apply<C>(r: Reg<C>, op: Op<C>): Reg<C>
    requires CanApply(r, op)
  {
    match op
    case Create(c, fd) => r.(chans := r.chans[c := Chan(fd, NONE_EVENT, New)])
    case Set(c, events) => r.SetEvents(c, events)
    case Remove(c) => r.RemoveChannel(c)
    case Destroy(c) => r.(chans := r.chans - {c})
  }

  lemma CreateAgrees<C>(r: Reg<C>, c: C, fd: int)
    requires r.Agrees() && c !in r.chans && forall d :: d in r.chans ==> r.chans[d].fd != fd
    ensures Apply(r, Create(c, fd)).Agrees()
  {
    var s := Apply(r, Create(c, fd));
    forall d | d in s.chans
      ensures s.ChanAgrees(d)
    {
      assert d != c ==> r.ChanAgrees(d);
    }
  }

  lemma DestroyAgrees<C>(r: Reg<C>, c: C)
    requires r.Agrees() && c in r.chans && r.chans[c].index == New
    ensures Apply(r, Destroy(c)).Agrees()
  {
    var s := Apply(r, Destroy(c));
    assert r.ChanAgrees(c);
    forall d | d in s.chans
      ensures s.ChanAgrees(d)
    {
      assert r.ChanAgrees(d);
    }
    forall fd | fd in s.channels
      ensures s.channels[fd] in s.chans && s.chans[s.channels[fd]].fd == fd
    {
      assert s.channels[fd] != c;
    }
  }

  predicate Legal<C>(r: Reg<C>, ops: seq<Op<C>>)
    decreases |ops|
  {
    ops == [] || (CanApply(r, ops[0]) && Legal(Apply(r, ops[0]), ops[1..]))
  }

  function Run<C>(r: Reg<C>, ops: seq<Op<C>>): Reg<C>
    requires Legal(r, ops)
    decreases |ops|
  {
    if ops == [] then r else Run(Apply(r, ops[0]), ops[1..])
  }

  /** Over any sequence of channel updates and removals the three views agree, and
      no ADD hits a registered fd, no MOD or DEL an absent one. */
  lemma {:induction false} RunAgrees<C>(r: Reg<C>, ops: seq<Op<C>>)
    requires r.Agrees() && r.Clean() && Legal(r, ops)
    ensures Run(r, ops).Agrees() && Run(r, ops).Clean()
    decreases |ops|
  {
    if ops != [] {
      match ops[0] {
        case Create(c, fd) => CreateAgrees(r, c, fd);
        case Set(c, events) => SetEventsAgrees(r, c, events);
        case Remove(c) => RemoveChannelAgrees(r, c);
        case Destroy(c) => DestroyAgrees(r, c);
      }
      RunAgrees(Apply(r, ops[0]), ops[1..]);
    }
  }

  /** A refusal needs two living channels on one fd: with them, adding both ends the
      process, whatever the kernel had for the fd before. */
  lemma SharedFdIsFatal<C>(r: Reg<C>, c: C, d: C, mask: Mask, other: Mask)
    requires c in r.chans && d in r.chans && c != d && r.chans[c].fd == r.chans[d].fd
    requires r.chans[c].index == New && r.chans[d].index == New
    ensures var s := r.SetEvents(c, mask).SetEvents(d, other);
            s.failed == r.failed + (if r.chans[c].fd in r.kernel then [CtlAdd, CtlAdd] else [CtlAdd]) && s.fatal
  {
    ChansEffect(r, c, mask);
    assert r.chans[c].fd in r.SetEvents(c, mask).kernel;
    assert r.failed + [CtlAdd] + [CtlAdd] == r.failed + [CtlAdd, CtlAdd];
  }

  /** The membership test of the poller is the index: only a channel at kNew is unknown. */
  lemma HasChannelIsNotNew<C>(r: Reg<C>, c: C)
    requires r.Agrees() && c in r.chans
    ensures r.HasChannel(c) <==> r.chans[c].index != New
  {
    assert r.ChanAgrees(c);
  }

  /** The kernel reports a channel exactly when its index is kAdded. */
  lemma ReportedIsAdded<C>(r: Reg<C>, c: C)
    requires r.Agrees() && c in r.chans
    ensures (exists fd :: fd in r.kernel && r.kernel[fd].ptr == c) <==> r.chans[c].index == Added
  {
    assert r.ChanAgrees(c);
    forall fd | fd in r.kernel && r.kernel[fd].ptr == c
      ensures r.chans[c].index == Added
    {
      var d := r.channels[fd];
      assert r.ChanAgrees(d);
    }
  }

  /** Clearing the mask of a channel that was never added, or is already deleted,
      adds it to the kernel with nothing to watch: kAdded does not mean that
      something is watched. */
  lemma ClearingTwiceAdds<C>(r: Reg<C>, c: C)
    requires r.Agrees() && c in r.chans
    ensures r.SetEvents(c, NONE_EVENT).chans[c].index == Added <==> r.chans[c].index != Added
    ensures r.chans[c].index != Added ==>
              var s := r.SetEvents(c, NONE_EVENT);
              s.chans[c].fd in s.kernel && s.kernel[s.chans[c].fd] == Interest(NONE_EVENT, c)
  {
    SetEventsAgrees(r, c, NONE_EVENT);
    assert r.SetEvents(c, NONE_EVENT).ChanAgrees(c);
  }
}
