/** What every step keeps but a reviving send: each connection goes through its
    milestones in order, one token at a time, and its channel follows, or does so again
    before anybody can notice. */
module LifetimeOrder {
  import opened Registry
  import opened Lifetime
  import opened LifetimeSanity
  import C = ConnectionSpec

  function IndexAt(stage: nat): Index {
    if stage == 1 then Added else if stage == 2 || stage == 3 then Deleted else New
  }

  /** The one token that moves a closed connection on: with a thread on a stack, or
      queued on the loop it has to run on, and nowhere else. */
  predicate TokensOk(s: Sys, c: CId)
    requires c in s.recs && s.recs[c].loop < |s.loops|
  {
    var io := s.recs[c].loop;
    && (forall l :: 0 <= l < |s.loops| ==>
          && Tokens(s.loops[l], UnlistFn(c)) == If(Stage(s, c) == 2 && l == 0 && s.loops[io].frame != Closing(c))
          && Tokens(s.loops[l], DestroyFn(c)) == If(Stage(s, c) == 3 && l == io && s.loops[0].frame != Erased(c)))
    && (s.loops[io].frame == Closing(c) ==> Stage(s, c) == 2)
    && (s.loops[0].frame == Erased(c) ==> Stage(s, c) == 3)
  }

  predicate RecOrder(s: Sys, c: CId)
    requires c in s.recs
  {
    s.recs[c].loop < |s.loops| && s.recs[c].history <= MILESTONES && TokensOk(s, c)
  }

  /** The channel is where the milestones want it. */
  predicate Follows(s: Sys, c: CId)
    requires c in s.recs
  {
    Known(s, c) ==>
      && ChanOf(s, c).index == IndexAt(Stage(s, c))
      && (Stage(s, c) == 1 ==> READ_EVENT <= ChanOf(s, c).events)
  }

  /** A channel that is back in the poller does no harm: the batch that runs will take
      it out before the next poll, or nobody is left to handle its events. */
  predicate Excused(e: Edition, s: Sys, c: CId)
    requires c in s.recs && s.recs[c].loop < |s.loops|
  {
    DestroyFn(c) in s.loops[s.recs[c].loop].batch || !Owned(e, s, c)
  }

  predicate ChanOrder(e: Edition, s: Sys, c: CId)
    requires c in s.recs && s.recs[c].loop < |s.loops|
  {
    Known(s, c) ==> Follows(s, c) || (ChanOf(s, c).index == Added && Excused(e, s, c))
  }

  /** What a loop has still to handle is open, or has nobody left to handle it. */
  predicate ActiveOpen(e: Edition, s: Sys, l: LId)
    requires l < |s.loops|
  {
    var loop := s.loops[l];
    loop.phase == Dispatching ==>
      && (forall i :: loop.walked <= i < |loop.active| ==> OpenOrLeft(e, s, loop.active[i]))
      && (forall i, j :: 0 <= i < j < |loop.active| ==> loop.active[i] != loop.active[j])
  }

  predicate OpenOrLeft(e: Edition, s: Sys, c: CId) {
    c in s.recs && (Stage(s, c) == 1 || !Owned(e, s, c))
  }

  ghost predicate Ordered(e: Edition, s: Sys) {
    && Sane(e, s)
    && (forall c :: c in s.recs ==> RecOrder(s, c) && ChanOrder(e, s, c))
    && (forall l :: 0 <= l < |s.loops| ==> ActiveOpen(e, s, l))
  }

  // ---------------------------------------------------------------- tokens

  /** No thread and no queue has a token of the closed connection. */
  predicate NoTokens(s: Sys, c: CId) {
    forall l :: 0 <= l < |s.loops| ==>
      && Tokens(s.loops[l], UnlistFn(c)) == 0 && Tokens(s.loops[l], DestroyFn(c)) == 0
      && s.loops[l].frame != Closing(c) && s.loops[l].frame != Erased(c)
  }

  lemma ApartKeepsOrder(e: Edition, s: Sys, s': Sys, d: CId)
    requires Apart(e, s, s', d) && 0 < |s.loops| && RecOrder(s, d)
    ensures RecOrder(s', d)
  {
    var io := s.recs[d].loop;
    forall l | 0 <= l < |s'.loops|
      ensures Tokens(s'.loops[l], UnlistFn(d)) == If(Stage(s', d) == 2 && l == 0 && s'.loops[io].frame != Closing(d))
      ensures Tokens(s'.loops[l], DestroyFn(d)) == If(Stage(s', d) == 3 && l == io && s'.loops[0].frame != Erased(d))
    {
      assert LoopApart(e, s.loops[l], s'.loops[l], d);
      assert LoopApart(e, s.loops[0], s'.loops[0], d);
      assert LoopApart(e, s.loops[io], s'.loops[io], d);
    }
    assert LoopApart(e, s.loops[0], s'.loops[0], d);
    assert LoopApart(e, s.loops[io], s'.loops[io], d);
  }

  /** At a stage that needs no token there is none. */
  lemma StageWithoutTokens(s: Sys, c: CId)
    requires c in s.recs && RecOrder(s, c) && Stage(s, c) != 2 && Stage(s, c) != 3
    requires forall l :: 0 <= l < |s.loops| ==> FramePlaced(s, l, s.loops[l].frame)
    ensures NoTokens(s, c)
  {
    forall l | 0 <= l < |s.loops|
      ensures s.loops[l].frame != Closing(c) && s.loops[l].frame != Erased(c)
    {
      assert FramePlaced(s, l, s.loops[l].frame);
    }
  }

  /** Nothing changes in the tokens when the loops are the same, or nearly. */
  lemma NoTokensThere(s: Sys, s': Sys, c: CId)
    requires NoTokens(s, c) && |s'.loops| == |s.loops|
    requires forall l :: 0 <= l < |s.loops| ==>
               && Tokens(s'.loops[l], UnlistFn(c)) == Tokens(s.loops[l], UnlistFn(c))
               && Tokens(s'.loops[l], DestroyFn(c)) == Tokens(s.loops[l], DestroyFn(c))
               && (s'.loops[l].frame == s.loops[l].frame || (!s'.loops[l].frame.Closing? && !s'.loops[l].frame.Erased?))
    ensures NoTokens(s', c)
  {
    forall l | 0 <= l < |s'.loops|
      ensures Tokens(s'.loops[l], UnlistFn(c)) == 0 && Tokens(s'.loops[l], DestroyFn(c)) == 0
    {
      assert Tokens(s'.loops[l], UnlistFn(c)) == Tokens(s.loops[l], UnlistFn(c));
    }
  }

  lemma NoTokensIsOk(s: Sys, c: CId)
    requires c in s.recs && s.recs[c].loop < |s.loops| && NoTokens(s, c) && Stage(s, c) != 2 && Stage(s, c) != 3
    ensures TokensOk(s, c)
  {
  }

  lemma ClosingIsOk(s: Sys, c: CId)
    requires c in s.recs && s.recs[c].loop < |s.loops| && NoTokens(s, c) && Stage(s, c) == 2
    ensures TokensOk(SetFrame(s, s.recs[c].loop, Closing(c)), c)
  {
    FrameTokens(s.loops[s.recs[c].loop], Closing(c));
  }

  lemma UnlistQueuedIsOk(s: Sys, c: CId)
    requires c in s.recs && s.recs[c].loop < |s.loops| && NoTokens(s, c) && Stage(s, c) == 2
    ensures TokensOk(Post(s, 0, UnlistFn(c)), c)
  {
    TokensPost(s.loops[0], UnlistFn(c));
  }

  lemma ErasedIsOk(s: Sys, c: CId)
    requires c in s.recs && s.recs[c].loop < |s.loops| && NoTokens(s, c) && Stage(s, c) == 3
    ensures TokensOk(SetFrame(s, 0, Erased(c)), c)
  {
    FrameTokens(s.loops[0], Erased(c));
  }

  lemma DestroyQueuedIsOk(s: Sys, c: CId)
    requires c in s.recs && s.recs[c].loop < |s.loops| && NoTokens(s, c) && Stage(s, c) == 3
    ensures TokensOk(Post(s, s.recs[c].loop, DestroyFn(c)), c)
  {
    TokensPost(s.loops[s.recs[c].loop], DestroyFn(c));
  }

  /** A thread gives up the frame that is the token. */
  lemma FrameTaken(s: Sys, l: LId, c: CId)
    requires l < |s.loops| && c in s.recs && RecOrder(s, c)
    requires forall k :: 0 <= k < |s.loops| ==> FramePlaced(s, k, s.loops[k].frame)
    requires s.loops[l].frame == Closing(c) || s.loops[l].frame == Erased(c)
    ensures NoTokens(SetFrame(s, l, Idle), c)
    ensures Stage(s, c) == if s.loops[l].frame.Closing? then 2 else 3
  {
    FrameTokens(s.loops[l], Idle);
    assert FramePlaced(s, l, s.loops[l].frame);
    forall k | 0 <= k < |s.loops| && k != l
      ensures s.loops[k].frame != Closing(c) && s.loops[k].frame != Erased(c)
    {
      assert FramePlaced(s, k, s.loops[k].frame);
    }
  }

  /** A loop takes the functor that is the token. */
  lemma HeadTaken(s: Sys, l: LId, c: CId)
    requires l < |s.loops| && s.loops[l].batch != [] && c in s.recs && RecOrder(s, c)
    requires s.loops[l].batch[0] == UnlistFn(c) || s.loops[l].batch[0] == DestroyFn(c)
    requires forall k :: 0 <= k < |s.loops| ==> FramePlaced(s, k, s.loops[k].frame)
    ensures NoTokens(PutLoop(s, l, Popped(s.loops[l])), c)
    ensures Stage(s, c) == if s.loops[l].batch[0].UnlistFn? then 2 else 3
  {
    var s' := PutLoop(s, l, Popped(s.loops[l]));
    TokensPop(s.loops[l]);
    assert Tokens(s.loops[l], s.loops[l].batch[0]) > 0;
    forall k | 0 <= k < |s.loops|
      ensures Tokens(s'.loops[k], UnlistFn(c)) == 0 && Tokens(s'.loops[k], DestroyFn(c)) == 0
      ensures s'.loops[k].frame != Closing(c) && s'.loops[k].frame != Erased(c)
    {
      assert FramePlaced(s, k, s.loops[k].frame);
      assert Tokens(s.loops[k], UnlistFn(c)) <= 1 && Tokens(s.loops[k], DestroyFn(c)) <= 1;
    }
  }

  // ---------------------------------------------------------------- the connection a step is about

  ghost predicate FramesPlaced(s: Sys) {
    forall l :: 0 <= l < |s.loops| ==> FramePlaced(s, l, s.loops[l].frame)
  }

  lemma SaneFrames(e: Edition, s: Sys)
    requires Sane(e, s)
    ensures FramesPlaced(s)
  {
    forall l | 0 <= l < |s.loops|
      ensures FramePlaced(s, l, s.loops[l].frame)
    {
      assert Fits(s, l, s.loops[l]);
    }
  }

  lemma AcceptOrder(e: Edition, s: Sys, c: CId, io: LId, fd: int)
    requires Sane(e, s) && Enabled(e, s, Accept(c, io, fd))
    ensures RecOrder(Next(e, s, Accept(c, io, fd)), c)
  {
    var s' := Next(e, s, Accept(c, io, fd));
    FrameTokens(s.loops[0], Creating(c));
    forall l | 0 <= l < |s'.loops|
      ensures Tokens(s'.loops[l], UnlistFn(c)) == 0 && Tokens(s'.loops[l], DestroyFn(c)) == 0
      ensures s'.loops[l].frame != Closing(c) && s'.loops[l].frame != Erased(c)
    {
      UnknownHasNoTokens(s, l, c);
      TokenInQueue(s.loops[l], UnlistFn(c));
      TokenInQueue(s.loops[l], DestroyFn(c));
    }
    NoTokensIsOk(s', c);
  }

  lemma EstablishOrder(s: Sys, c: CId)
    requires Known(s, c) && RecBase(s, c) && Stage(s, c) == 0 && NoTokens(s, c)
    ensures RecOrder(DoEstablish(s, c), c)
  {
    var s' := DoEstablish(s, c);
    EstablishEffect(s, c);
    assert s.recs[c].history == [];
    assert s'.recs[c].history == [Established] <= MILESTONES;
    NoTokensIsOk(s', c);
  }

  lemma EstablishNowOrder(s: Sys, c: CId)
    requires Known(s, c) && RecBase(s, c) && RecOrder(s, c) && Stage(s, c) == 0 && FramesPlaced(s)
    ensures RecOrder(DoEstablish(SetFrame(s, 0, Idle), c), c)
  {
    var t := SetFrame(s, 0, Idle);
    UnframedOrder(s, c);
    LoopsKeepBase(s, 0, Framed(s.loops[0], Idle), c);
    EstablishOrder(t, c);
  }

  lemma UnframedOrder(s: Sys, c: CId)
    requires c in s.recs && RecOrder(s, c) && Stage(s, c) == 0 && FramesPlaced(s)
    ensures NoTokens(SetFrame(s, 0, Idle), c)
  {
    StageWithoutTokens(s, c);
    FrameTokens(s.loops[0], Idle);
    NoTokensThere(s, SetFrame(s, 0, Idle), c);
  }

  lemma EstablishLaterOrder(s: Sys, c: CId)
    requires Known(s, c) && RecOrder(s, c) && Stage(s, c) == 0 && FramesPlaced(s)
    ensures RecOrder(Post(SetFrame(s, 0, Idle), s.recs[c].loop, EstablishFn(c)), c)
  {
    var t := SetFrame(s, 0, Idle);
    UnframedOrder(s, c);
    NoTokensIsOk(t, c);
    PostOrder(t, s.recs[c].loop, EstablishFn(c));
  }

  lemma HandOverOrder(e: Edition, s: Sys)
    requires Ordered(e, s) && Enabled(e, s, HandOver)
    ensures RecOrder(Next(e, s, HandOver), s.loops[0].frame.c)
  {
    var c := s.loops[0].frame.c;
    SaneFrames(e, s);
    assert RecOk(s, c) && RecOrder(s, c);
    if s.recs[c].loop == 0 {
      EstablishNowOrder(s, c);
    } else {
      EstablishLaterOrder(s, c);
    }
  }

  lemma CloseOrder(s: Sys, c: CId)
    requires Known(s, c) && s.recs[c].history == [Established] && NoTokens(s, c)
    ensures var t := DoClose(s, c);
            RecOrder(SetFrame(t, s.recs[c].loop, Closing(c)), c)
  {
    var t := DoClose(s, c);
    CloseEffect(s, c);
    assert t.recs[c].history == [Established, Closed] <= MILESTONES;
    ClosingIsOk(t, c);
  }

  lemma CloseCurrentOrder(s: Sys, l: LId, c: CId)
    requires l < |s.loops| && Known(s, c) && s.recs[c].loop == l
    requires RecOrder(s, c) && Stage(s, c) == 1 && FramesPlaced(s)
    ensures RecOrder(SetFrame(DoClose(PutLoop(s, l, Advanced(s.loops[l])), c), l, Closing(c)), c)
  {
    var t := PutLoop(s, l, Advanced(s.loops[l]));
    assert s.recs[c].history == [Established];
    StageWithoutTokens(s, c);
    assert Unrun(Advanced(s.loops[l])) == Unrun(s.loops[l]);
    NoTokensThere(s, t, c);
    CloseOrder(t, c);
  }

  lemma CurrentIsOpen(e: Edition, s: Sys, l: LId)
    requires Ordered(e, s) && Walking(s, l) && Owned(e, s, Current(s, l))
    ensures Current(s, l) in s.recs && s.recs[Current(s, l)].loop == l && Stage(s, Current(s, l)) == 1
    ensures RecOrder(s, Current(s, l)) && ChanOrder(e, s, Current(s, l))
  {
    assert Fits(s, l, s.loops[l]) && ActiveOpen(e, s, l);
    assert OpenOrLeft(e, s, Current(s, l));
  }

  lemma CloseStepOrder(e: Edition, s: Sys, l: LId)
    requires Ordered(e, s) && Enabled(e, s, Close(l))
    ensures RecOrder(Next(e, s, Close(l)), Current(s, l))
  {
    SaneFrames(e, s);
    CurrentIsOpen(e, s, l);
    CloseCurrentOrder(s, l, Current(s, l));
  }

  lemma UnlistOrder(s: Sys, c: CId)
    requires Known(s, c) && s.recs[c].loop < |s.loops| && NoTokens(s, c)
    requires s.recs[c].history == [Established, Closed]
    ensures RecOrder(DoUnlist(s, c), c)
  {
    assert Unlist(s, c).recs[c].history == [Established, Closed, Unlisted] <= MILESTONES;
    ErasedIsOk(Unlist(s, c), c);
  }

  lemma CallbackOrder(s: Sys, l: LId, c: CId)
    requires l < |s.loops| && s.loops[l].frame == Closing(c) && Known(s, c) && RecOrder(s, c) && FramesPlaced(s)
    ensures l == 0 ==> RecOrder(DoUnlist(SetFrame(s, 0, Idle), c), c)
    ensures l != 0 ==> RecOrder(Post(SetFrame(s, l, Idle), 0, UnlistFn(c)), c)
  {
    FrameTaken(s, l, c);
    if l == 0 {
      UnlistOrder(SetFrame(s, 0, Idle), c);
    } else {
      UnlistQueuedIsOk(SetFrame(s, l, Idle), c);
    }
  }

  lemma CloseCallbackOrder(e: Edition, s: Sys, l: LId)
    requires Ordered(e, s) && Enabled(e, s, CloseCallback(l))
    ensures RecOrder(Next(e, s, CloseCallback(l)), s.loops[l].frame.c)
  {
    SaneFrames(e, s);
    assert RecOrder(s, s.loops[l].frame.c);
    CallbackOrder(s, l, s.loops[l].frame.c);
  }

  lemma QueueDestroyOrder(e: Edition, s: Sys)
    requires Ordered(e, s) && Enabled(e, s, QueueDestroy)
    ensures RecOrder(Next(e, s, QueueDestroy), s.loops[0].frame.c)
  {
    var c := s.loops[0].frame.c;
    SaneFrames(e, s);
    assert RecOrder(s, c);
    FrameTaken(s, 0, c);
    DestroyQueuedIsOk(SetFrame(s, 0, Idle), c);
  }

  lemma DestroyOrder(s: Sys, c: CId)
    requires Known(s, c) && s.recs[c].loop < |s.loops| && NoTokens(s, c)
    requires s.recs[c].history == [Established, Closed, Unlisted]
    ensures RecOrder(DoDestroy(s, c), c)
  {
    var s' := DoDestroy(s, c);
    DestroyEffect(s, c);
    assert s'.recs[c].history == MILESTONES;
    NoTokensIsOk(s', c);
  }

  /** Queues and stages stay, as far as the tokens go. */
  lemma SameTokensOk(s: Sys, s': Sys, c: CId)
    requires c in s.recs && c in s'.recs && s'.recs[c].loop == s.recs[c].loop < |s.loops| && |s'.loops| == |s.loops|
    requires Stage(s', c) == Stage(s, c) && TokensOk(s, c)
    requires forall l :: 0 <= l < |s.loops| ==>
               && Tokens(s'.loops[l], UnlistFn(c)) == Tokens(s.loops[l], UnlistFn(c))
               && Tokens(s'.loops[l], DestroyFn(c)) == Tokens(s.loops[l], DestroyFn(c))
               && s'.loops[l].frame == s.loops[l].frame
    ensures TokensOk(s', c)
  {
    var io := s.recs[c].loop;
    forall l | 0 <= l < |s'.loops|
      ensures Tokens(s'.loops[l], UnlistFn(c)) == If(Stage(s', c) == 2 && l == 0 && s'.loops[io].frame != Closing(c))
      ensures Tokens(s'.loops[l], DestroyFn(c)) == If(Stage(s', c) == 3 && l == io && s'.loops[0].frame != Erased(c))
    {
      assert Tokens(s'.loops[l], UnlistFn(c)) == Tokens(s.loops[l], UnlistFn(c));
    }
  }

  lemma PostOrder(s: Sys, l: LId, f: Fn)
    requires l < |s.loops| && f.c in s.recs && RecOrder(s, f.c) && !f.UnlistFn? && !f.DestroyFn?
    ensures RecOrder(Post(s, l, f), f.c)
  {
    TokensPost(s.loops[l], f);
    SameTokensOk(s, Post(s, l, f), f.c);
  }

  lemma PopOrder(s: Sys, l: LId, c: CId)
    requires l < |s.loops| && s.loops[l].batch != [] && c in s.recs && RecOrder(s, c)
    requires !s.loops[l].batch[0].UnlistFn? && !s.loops[l].batch[0].DestroyFn?
    ensures RecOrder(PutLoop(s, l, Popped(s.loops[l])), c)
  {
    TokensPop(s.loops[l]);
    SameTokensOk(s, PutLoop(s, l, Popped(s.loops[l])), c);
  }

  /** Neither milestones nor queues are touched. */
  lemma RestOrder(s: Sys, s': Sys, c: CId)
    requires c in s.recs && RecOrder(s, c) && s'.loops == s.loops && c in s'.recs
    requires s'.recs[c].loop == s.recs[c].loop && s'.recs[c].history == s.recs[c].history
    ensures RecOrder(s', c)
  {
    SameTokensOk(s, s', c);
  }

  lemma SendOrder(e: Edition, s: Sys, c: CId, watch: bool)
    requires Known(s, c) && RecOrder(s, c)
    ensures c in DoSend(e, s, c, watch).recs && RecOrder(DoSend(e, s, c, watch), c)
  {
    if !Refused(e, s, c) {
      SendEffect(e, s, c, watch);
      RestOrder(s, DoSend(e, s, c, watch), c);
    }
  }

  lemma UnwatchOrder(s: Sys, c: CId)
    requires Known(s, c) && RecOrder(s, c)
    ensures var s' := SetMask(s, c, ChanOf(s, c).events - WRITE_EVENT);
            c in s'.recs && RecOrder(s', c)
  {
    var mask := ChanOf(s, c).events - WRITE_EVENT;
    MaskEffect(s, c, mask);
    RestOrder(s, SetMask(s, c, mask), c);
  }

  lemma StopWritingOrder(e: Edition, s: Sys, l: LId)
    requires Ordered(e, s) && Enabled(e, s, StopWriting(l))
    ensures Current(s, l) in Next(e, s, StopWriting(l)).recs && RecOrder(Next(e, s, StopWriting(l)), Current(s, l))
  {
    CurrentIsOpen(e, s, l);
    UnwatchOrder(s, Current(s, l));
  }

  lemma RunTokenOrder(s: Sys, l: LId, c: CId)
    requires l < |s.loops| && s.loops[l].batch != [] && Known(s, c) && RecOrder(s, c) && FramesPlaced(s)
    requires s.loops[l].batch[0] == UnlistFn(c) || s.loops[l].batch[0] == DestroyFn(c)
    ensures var t := PutLoop(s, l, Popped(s.loops[l]));
            if s.loops[l].batch[0].UnlistFn? then RecOrder(DoUnlist(t, c), c) else RecOrder(DoDestroy(t, c), c)
  {
    var t := PutLoop(s, l, Popped(s.loops[l]));
    HeadTaken(s, l, c);
    if s.loops[l].batch[0].UnlistFn? {
      UnlistOrder(t, c);
    } else {
      DestroyOrder(t, c);
    }
  }

  lemma RunEstablishOrder(s: Sys, l: LId, c: CId)
    requires l < |s.loops| && s.loops[l].batch != [] && s.loops[l].batch[0] == EstablishFn(c)
    requires Known(s, c) && RecBase(s, c) && RecOrder(s, c) && Stage(s, c) == 0 && FramesPlaced(s)
    ensures RecOrder(DoEstablish(PutLoop(s, l, Popped(s.loops[l])), c), c)
  {
    var t := PutLoop(s, l, Popped(s.loops[l]));
    LoopsKeepBase(s, l, Popped(s.loops[l]), c);
    StageWithoutTokens(s, c);
    TokensPop(s.loops[l]);
    NoTokensThere(s, t, c);
    EstablishOrder(t, c);
  }

  lemma RunSendOrder(e: Edition, s: Sys, l: LId, c: CId, watch: bool)
    requires l < |s.loops| && s.loops[l].batch != [] && s.loops[l].batch[0] == SendFn(c)
    requires Known(s, c) && RecOrder(s, c)
    ensures var s' := DoSend(e, PutLoop(s, l, Popped(s.loops[l])), c, watch);
            c in s'.recs && RecOrder(s', c)
  {
    PopOrder(s, l, c);
    SendOrder(e, PutLoop(s, l, Popped(s.loops[l])), c, watch);
  }

  lemma RunTokenStepOrder(e: Edition, s: Sys, l: LId)
    requires Ordered(e, s) && Enabled(e, s, RunFn(l, false)) && (Head(s, l).UnlistFn? || Head(s, l).DestroyFn?)
    ensures var s' := Next(e, s, RunFn(l, false));
            Head(s, l).c in s'.recs && RecOrder(s', Head(s, l).c)
  {
    SaneFrames(e, s);
    HeadIsHeld(e, s, l);
    assert RecOk(s, Head(s, l).c) && RecOrder(s, Head(s, l).c);
    RunTokenOrder(s, l, Head(s, l).c);
  }

  lemma RunEstablishStepOrder(e: Edition, s: Sys, l: LId)
    requires Ordered(e, s) && Enabled(e, s, RunFn(l, false)) && Head(s, l).EstablishFn?
    ensures var s' := Next(e, s, RunFn(l, false));
            Head(s, l).c in s'.recs && RecOrder(s', Head(s, l).c)
  {
    SaneFrames(e, s);
    RunEstablishRec(e, s, l);
    assert RecOk(s, Head(s, l).c) && RecOrder(s, Head(s, l).c);
    RunEstablishOrder(s, l, Head(s, l).c);
  }

  lemma RunSendStepOrder(e: Edition, s: Sys, l: LId, watch: bool)
    requires Ordered(e, s) && Enabled(e, s, RunFn(l, watch))
    requires Head(s, l).SendFn? && Head(s, l).c !in s.freed
    ensures var s' := Next(e, s, RunFn(l, watch));
            Head(s, l).c in s'.recs && RecOrder(s', Head(s, l).c)
  {
    assert RecOk(s, Head(s, l).c) && RecOrder(s, Head(s, l).c);
    RunSendOrder(e, s, l, Head(s, l).c, watch);
  }

  lemma RunNothingOrder(e: Edition, s: Sys, l: LId, watch: bool)
    requires Ordered(e, s) && Enabled(e, s, RunFn(l, watch))
    requires Head(s, l).ShutdownFn? || Head(s, l).NotifyFn? || (Head(s, l).SendFn? && Head(s, l).c in s.freed)
    ensures var s' := Next(e, s, RunFn(l, watch));
            Head(s, l).c in s'.recs && RecOrder(s', Head(s, l).c)
  {
    assert RecOrder(s, Head(s, l).c);
    PopOrder(s, l, Head(s, l).c);
  }

  lemma RunFnOrder(e: Edition, s: Sys, l: LId, watch: bool)
    requires Ordered(e, s) && Enabled(e, s, RunFn(l, watch))
    ensures Head(s, l).c in Next(e, s, RunFn(l, watch)).recs && RecOrder(Next(e, s, RunFn(l, watch)), Head(s, l).c)
  {
    var f := Head(s, l);
    assert watch ==> f.SendFn?;
    if f.EstablishFn? {
      RunEstablishStepOrder(e, s, l);
    } else if f.UnlistFn? || f.DestroyFn? {
      RunTokenStepOrder(e, s, l);
    } else if f.SendFn? && f.c !in s.freed {
      RunSendStepOrder(e, s, l, watch);
    } else {
      RunNothingOrder(e, s, l, watch);
    }
  }

  lemma HeadIsEstablished(e: Edition, s: Sys, l: LId)
    requires Sane(e, s) && CanRun(s, l)
    ensures Stage(s, Head(s, l).c) >= LeastStage(Head(s, l))
  {
    assert Fits(s, l, s.loops[l]);
    HeadPlaced(s, l);
  }

  lemma FrameStepOrder(e: Edition, s: Sys, step: Step, c: CId)
    requires Ordered(e, s) && Enabled(e, s, step) && FrameStep(step) && Concerns(e, s, step, c)
    ensures c in Next(e, s, step).recs && RecOrder(Next(e, s, step), c)
  {
    match step {
      case Accept(_, io, fd) => AcceptOrder(e, s, c, io, fd);
      case HandOver => HandOverOrder(e, s);
      case Close(l) => CloseStepOrder(e, s, l);
      case CloseCallback(l) => CloseCallbackOrder(e, s, l);
      case QueueDestroy => QueueDestroyOrder(e, s);
    }
  }

  lemma DirectSendOrder(e: Edition, s: Sys, l: LId, c: CId, watch: bool)
    requires Ordered(e, s) && Enabled(e, s, DirectSend(l, c, watch))
    ensures c in Next(e, s, DirectSend(l, c, watch)).recs && RecOrder(Next(e, s, DirectSend(l, c, watch)), c)
  {
    assert RecOk(s, c) && RecOrder(s, c);
    SendOrder(e, s, c, watch);
  }

  lemma FreeOrder(s: Sys, c: CId)
    requires Known(s, c) && RecOrder(s, c)
    ensures RecOrder(Released(s, c), c)
  {
    SameTokensOk(s, Released(s, c), c);
  }

  lemma DirectShutdownOrder(e: Edition, s: Sys, l: LId, c: CId)
    requires Ordered(e, s) && Enabled(e, s, DirectShutdown(l, c))
    ensures c in Next(e, s, DirectShutdown(l, c)).recs && RecOrder(Next(e, s, DirectShutdown(l, c)), c)
  {
    assert RecOrder(s, c);
    RestOrder(s, SetState(s, c, C.Disconnecting), c);
  }

  lemma PushNotifyOrder(e: Edition, s: Sys, c: CId)
    requires Ordered(e, s) && Enabled(e, s, PushNotify(c))
    ensures c in Next(e, s, PushNotify(c)).recs && RecOrder(Next(e, s, PushNotify(c)), c)
  {
    assert RecOrder(s, c);
    PostOrder(s, s.recs[c].loop, NotifyFn(c));
  }

  lemma FreeStepOrder(e: Edition, s: Sys, c: CId)
    requires Ordered(e, s) && Enabled(e, s, Free(c))
    ensures c in Next(e, s, Free(c)).recs && RecOrder(Next(e, s, Free(c)), c)
  {
    assert RecOrder(s, c);
    FreeOrder(s, c);
  }

  lemma OwnStepOrder(e: Edition, s: Sys, step: Step, c: CId)
    requires Ordered(e, s) && Enabled(e, s, step) && OwnStep(step) && Concerns(e, s, step, c)
    ensures c in Next(e, s, step).recs && RecOrder(Next(e, s, step), c)
  {
    match step {
      case StopWriting(l) => StopWritingOrder(e, s, l);
      case DirectSend(l, _, watch) => DirectSendOrder(e, s, l, c, watch);
      case DirectShutdown(l, _) => DirectShutdownOrder(e, s, l, c);
      case PushNotify(_) => PushNotifyOrder(e, s, c);
      case Free(_) => FreeStepOrder(e, s, c);
    }
  }

  lemma PushOrder(s: Sys, calls: multiset<Call>, f: Fn)
    requires Known(s, f.c) && RecOrder(s, f.c) && !f.UnlistFn? && !f.DestroyFn?
    ensures RecOrder(Post(PutCalls(s, calls), s.recs[f.c].loop, f), f.c)
  {
    RestOrder(s, PutCalls(s, calls), f.c);
    PostOrder(PutCalls(s, calls), s.recs[f.c].loop, f);
  }

  lemma CallStepOrder(e: Edition, s: Sys, step: Step)
    requires Ordered(e, s) && Enabled(e, s, step) && CallStep(step)
    ensures step.c in Next(e, s, step).recs && RecOrder(Next(e, s, step), step.c)
  {
    var c := step.c;
    if !step.Acquire? {
      UserIsAlive(e, s, c);
    }
    assert RecOrder(s, c);
    match step {
      case PushSend(_) => PushOrder(s, s.calls - multiset{Sending(c)}, SendFn(c));
      case PushShutdown(_) => PushOrder(s, s.calls - multiset{Stopped(c)}, ShutdownFn(c));
      case StoreShutdown(_) => RestOrder(s, Next(e, s, step), c);
      case Acquire(_) => RestOrder(s, Next(e, s, step), c);
      case Drop(_) => RestOrder(s, Next(e, s, step), c);
      case BeginSend(_) => RestOrder(s, Next(e, s, step), c);
      case BeginShutdown(_) => RestOrder(s, Next(e, s, step), c);
    }
  }

  lemma StepOrder(e: Edition, s: Sys, step: Step, c: CId)
    requires Ordered(e, s) && Enabled(e, s, step) && Concerns(e, s, step, c)
    ensures c in Next(e, s, step).recs && RecOrder(Next(e, s, step), c)
  {
    if step.RunFn? {
      RunFnOrder(e, s, step.l, step.watch);
    } else if FrameStep(step) {
      FrameStepOrder(e, s, step, c);
    } else {
      ThreadStepOrder(e, s, step, c);
    }
  }

  lemma ThreadStepOrder(e: Edition, s: Sys, step: Step, c: CId)
    requires Ordered(e, s) && Enabled(e, s, step) && (OwnStep(step) || CallStep(step)) && Concerns(e, s, step, c)
    ensures c in Next(e, s, step).recs && RecOrder(Next(e, s, step), c)
  {
    if OwnStep(step) {
      OwnStepOrder(e, s, step, c);
    } else {
      CallStepOrder(e, s, step);
    }
  }

  lemma AnyOrder(e: Edition, s: Sys, step: Step, c: CId)
    requires Ordered(e, s) && Enabled(e, s, step) && c in Next(e, s, step).recs
    ensures RecOrder(Next(e, s, step), c)
  {
    if Concerns(e, s, step, c) {
      StepOrder(e, s, step, c);
    } else {
      NothingElseIsBorn(e, s, step, c);
      StepApart(e, s, step, c);
      ApartKeepsOrder(e, s, Next(e, s, step), c);
    }
  }

  // ---------------------------------------------------------------- the channel

  /** While a connection is in the map, its channel has no excuse. */
  lemma ListedFollows(e: Edition, s: Sys, c: CId)
    requires c in s.recs && RecOk(s, c) && RecOrder(s, c) && ChanOrder(e, s, c) && Stage(s, c) <= 2
    ensures Follows(s, c)
  {
    assert c in s.listed;
    var io := s.recs[c].loop;
    assert Tokens(s.loops[io], DestroyFn(c)) == 0;
    TokenInQueue(s.loops[io], DestroyFn(c));
  }

  /** The loop of a connection is fixed. */
  lemma LoopStays(e: Edition, s: Sys, step: Step, c: CId)
    requires Sane(e, s) && Enabled(e, s, step) && c in s.recs
    ensures c in Next(e, s, step).recs && Next(e, s, step).recs[c].loop == s.recs[c].loop
  {
    if !Concerns(e, s, step, c) {
      StepApart(e, s, step, c);
    } else if step.RunFn? {
      ExecuteKeepsLoop(e, PutLoop(s, step.l, Popped(s.loops[step.l])), Head(s, step.l), step.watch);
    } else if FrameStep(step) {
      FrameKeepsLoop(e, s, step, c);
    } else if step.DirectSend? {
      HandlersKeepHome(e, s, c, step.watch);
    } else {
      assert OwnStep(step) || CallStep(step);
    }
  }

  lemma HandlersKeepHome(e: Edition, s: Sys, c: CId, watch: bool)
    requires c in s.recs
    ensures c in DoEstablish(s, c).recs && DoEstablish(s, c).recs[c].loop == s.recs[c].loop
    ensures c in DoClose(s, c).recs && DoClose(s, c).recs[c].loop == s.recs[c].loop
    ensures c in DoSend(e, s, c, watch).recs && DoSend(e, s, c, watch).recs[c].loop == s.recs[c].loop
  {
  }

  lemma ExecuteKeepsLoop(e: Edition, s: Sys, f: Fn, watch: bool)
    requires f.c in s.recs && 0 < |s.loops|
    ensures f.c in Execute(e, s, f, watch).recs && Execute(e, s, f, watch).recs[f.c].loop == s.recs[f.c].loop
  {
    HandlersKeepHome(e, s, f.c, watch);
  }

  lemma FrameKeepsLoop(e: Edition, s: Sys, step: Step, c: CId)
    requires Enabled(e, s, step) && FrameStep(step) && Concerns(e, s, step, c) && c in s.recs
    ensures c in Next(e, s, step).recs && Next(e, s, step).recs[c].loop == s.recs[c].loop
  {
    if step.HandOver? {
      HandlersKeepHome(e, SetFrame(s, 0, Idle), c, false);
    } else if step.Close? {
      HandlersKeepHome(e, PutLoop(s, step.l, Advanced(s.loops[step.l])), c, false);
    }
  }

  /** The step runs the functor. */
  predicate Runs(s: Sys, step: Step, f: Fn) {
    step.RunFn? && CanRun(s, step.l) && Head(s, step.l) == f
  }

  /** A functor leaves the batch only by running. */
  lemma BatchStays(e: Edition, s: Sys, step: Step, l: LId, f: Fn)
    requires Enabled(e, s, step) && l < |s.loops| && Shape(s.loops[l]) && f in s.loops[l].batch && !Runs(s, step, f)
    ensures |Next(e, s, step).loops| == |s.loops| && f in Next(e, s, step).loops[l].batch
  {
    LoopGoes(e, s, step, l);
    BaseKeeps(e, s, step, l, f);
  }

  lemma BaseKeeps(e: Edition, s: Sys, step: Step, l: LId, f: Fn)
    requires Enabled(e, s, step) && l < |s.loops| && Shape(s.loops[l]) && f in s.loops[l].batch && !Runs(s, step, f)
    ensures f in Base(e, s, step, l).batch
  {
    if step.RunFn? && step.l == l {
      assert s.loops[l].batch == [s.loops[l].batch[0]] + s.loops[l].batch[1..];
    }
  }

  lemma ExcuseStays(e: Edition, s: Sys, step: Step, c: CId)
    requires Sane(e, s) && Enabled(e, s, step) && c in s.recs && s.recs[c].loop < |s.loops| && Excused(e, s, c)
    requires !Runs(s, step, DestroyFn(c))
    ensures c in Next(e, s, step).recs && Next(e, s, step).recs[c].loop < |Next(e, s, step).loops|
    ensures Excused(e, Next(e, s, step), c)
  {
    LoopStays(e, s, step, c);
    StepGoes(e, s, step);
    if DestroyFn(c) in s.loops[s.recs[c].loop].batch {
      assert Fits(s, s.recs[c].loop, s.loops[s.recs[c].loop]);
      BatchStays(e, s, step, s.recs[c].loop, DestroyFn(c));
    } else {
      NoNewOwners(e, s, step, c);
    }
  }

  /** Channel and milestones are as they were. */
  predicate ChanStays(s: Sys, s': Sys, c: CId) {
    && Known(s, c) && Known(s', c) && ChanOf(s', c) == ChanOf(s, c) && Stage(s', c) == Stage(s, c)
  }

  /** What a step makes of a channel, but for a late send: it follows or stays. */
  predicate Fares(s: Sys, s': Sys, c: CId) {
    c in s'.recs && Known(s', c) ==> Follows(s', c) || (c in s.recs && ChanStays(s, s', c))
  }

  /** Its poller and its milestones are as they were. */
  lemma SameRegsStay(s: Sys, s': Sys, c: CId)
    requires c in s.recs && c in s'.recs && s'.regs == s.regs && |s'.loops| == |s.loops|
    requires s'.recs[c].loop == s.recs[c].loop && s'.recs[c].history == s.recs[c].history
    ensures Fares(s, s', c)
  {
  }

  lemma FrameChanGoes(e: Edition, s: Sys, step: Step, c: CId)
    requires Ordered(e, s) && Enabled(e, s, step) && FrameStep(step) && Concerns(e, s, step, c)
    requires c in Next(e, s, step).recs && RecOk(Next(e, s, step), c)
    ensures Fares(s, Next(e, s, step), c)
  {
    match step {
      case Accept(_, io, fd) => AcceptChan(e, s, c, io, fd);
      case HandOver => HandOverChan(e, s);
      case Close(l) => CloseChan(e, s, l);
      case CloseCallback(l) => CallbackChan(e, s, l);
      case QueueDestroy => SameRegsStay(s, Next(e, s, step), c);
    }
  }

  lemma AcceptChan(e: Edition, s: Sys, c: CId, io: LId, fd: int)
    requires Enabled(e, s, Accept(c, io, fd))
    ensures Fares(s, Next(e, s, Accept(c, io, fd)), c)
  {
  }

  lemma EstablishChan(s: Sys, c: CId)
    requires Known(s, c) && RecBase(s, c) && Stage(s, c) == 0
    ensures c in DoEstablish(s, c).recs && Follows(DoEstablish(s, c), c)
  {
    EstablishEffect(s, c);
    assert EPOLLIN in ChanOf(s, c).events + READ_EVENT;
  }

  lemma HandOverChan(e: Edition, s: Sys)
    requires Ordered(e, s) && Enabled(e, s, HandOver)
    ensures Fares(s, Next(e, s, HandOver), s.loops[0].frame.c)
  {
    var c := s.loops[0].frame.c;
    assert RecOk(s, c);
    if s.recs[c].loop == 0 {
      LoopsKeepBase(s, 0, Framed(s.loops[0], Idle), c);
      EstablishChan(SetFrame(s, 0, Idle), c);
    }
  }

  lemma CloseFollows(s: Sys, l: LId, c: CId)
    requires l < |s.loops| && Known(s, c) && Stage(s, c) == 1 && ChanOf(s, c).index == Added
    ensures var s' := SetFrame(DoClose(PutLoop(s, l, Advanced(s.loops[l])), c), l, Closing(c));
            c in s'.recs && Follows(s', c)
  {
    CloseEffect(PutLoop(s, l, Advanced(s.loops[l])), c);
  }

  lemma CloseChan(e: Edition, s: Sys, l: LId)
    requires Ordered(e, s) && Enabled(e, s, Close(l))
    ensures Fares(s, Next(e, s, Close(l)), Current(s, l))
  {
    CurrentIsOpen(e, s, l);
    CloseFollows(s, l, Current(s, l));
  }

  lemma UnlistChan(s: Sys, c: CId)
    requires Known(s, c) && Follows(s, c) && Stage(s, c) == 2 && 0 < |s.loops|
    ensures c in DoUnlist(s, c).recs && Follows(DoUnlist(s, c), c)
  {
  }

  lemma CallbackFollows(s: Sys, l: LId, c: CId)
    requires l < |s.loops| && Known(s, c) && Follows(s, c) && Stage(s, c) == 2
    ensures l == 0 ==> c in DoUnlist(SetFrame(s, 0, Idle), c).recs && Follows(DoUnlist(SetFrame(s, 0, Idle), c), c)
    ensures Follows(Post(SetFrame(s, l, Idle), 0, UnlistFn(c)), c)
  {
    UnlistChan(SetFrame(s, 0, Idle), c);
  }

  lemma CallbackChan(e: Edition, s: Sys, l: LId)
    requires Ordered(e, s) && Enabled(e, s, CloseCallback(l))
    ensures Fares(s, Next(e, s, CloseCallback(l)), s.loops[l].frame.c)
  {
    var c := s.loops[l].frame.c;
    assert RecOk(s, c) && RecOrder(s, c) && ChanOrder(e, s, c);
    SaneFrames(e, s);
    FrameTaken(s, l, c);
    ListedFollows(e, s, c);
    CallbackFollows(s, l, c);
  }

  lemma RunUnlistChan(e: Edition, s: Sys, l: LId)
    requires Ordered(e, s) && Enabled(e, s, RunFn(l, false)) && Head(s, l).UnlistFn? && Head(s, l).c !in s.freed
    ensures Fares(s, Next(e, s, RunFn(l, false)), Head(s, l).c)
  {
    var c := Head(s, l).c;
    assert RecOk(s, c) && RecOrder(s, c) && ChanOrder(e, s, c);
    SaneFrames(e, s);
    HeadTaken(s, l, c);
    ListedFollows(e, s, c);
    UnlistChan(PutLoop(s, l, Popped(s.loops[l])), c);
  }

  lemma DestroyFollows(s: Sys, c: CId)
    requires Known(s, c) && Stage(s, c) == 3
    ensures c in DoDestroy(s, c).recs && Follows(DoDestroy(s, c), c)
  {
    DestroyEffect(s, c);
  }

  lemma RunDestroyChan(e: Edition, s: Sys, l: LId)
    requires Ordered(e, s) && Enabled(e, s, RunFn(l, false)) && Head(s, l).DestroyFn? && Head(s, l).c !in s.freed
    ensures var s' := Next(e, s, RunFn(l, false));
            Head(s, l).c in s'.recs && Follows(s', Head(s, l).c)
  {
    var c := Head(s, l).c;
    assert RecOk(s, c) && RecOrder(s, c);
    SaneFrames(e, s);
    HeadTaken(s, l, c);
    DestroyFollows(PutLoop(s, l, Popped(s.loops[l])), c);
  }

  lemma WatchedIsAdded(e: Edition, s: Sys, c: CId)
    requires Known(s, c) && !Refused(e, s, c)
    ensures var t := DoSend(e, s, c, true);
            && Known(t, c) && Stage(t, c) == Stage(s, c)
            && ChanOf(t, c).index == Added && ChanOf(s, c).events <= ChanOf(t, c).events
  {
    SendEffect(e, s, c, true);
    assert EPOLLOUT in ChanOf(s, c).events + WRITE_EVENT;
  }

  lemma UnwatchedStays(e: Edition, s: Sys, c: CId, watch: bool)
    requires Known(s, c) && (!watch || Refused(e, s, c))
    ensures ChanStays(s, DoSend(e, s, c, watch), c)
  {
    if !Refused(e, s, c) {
      SendEffect(e, s, c, watch);
    }
  }

  lemma SendFollows(e: Edition, s: Sys, c: CId)
    requires Known(s, c) && !Refused(e, s, c) && Follows(s, c) && Stage(s, c) == 1
    ensures c in DoSend(e, s, c, true).recs && Follows(DoSend(e, s, c, true), c)
  {
    WatchedIsAdded(e, s, c);
  }

  lemma RunSendChan(e: Edition, s: Sys, l: LId, watch: bool)
    requires Ordered(e, s) && Enabled(e, s, RunFn(l, watch)) && Head(s, l).SendFn? && Head(s, l).c !in s.freed
    requires !Has(e, s, RunFn(l, watch), Late)
    ensures Fares(s, Next(e, s, RunFn(l, watch)), Head(s, l).c)
  {
    var c := Head(s, l).c;
    var p := PutLoop(s, l, Popped(s.loops[l]));
    SendIsKnown(e, s, l);
    if watch && !Refused(e, p, c) {
      SendFollows(e, p, c);
    } else {
      UnwatchedStays(e, p, c, watch);
    }
  }

  lemma LateIsAdded(e: Edition, s: Sys, l: LId)
    requires Ordered(e, s) && Enabled(e, s, RunFn(l, true)) && Has(e, s, RunFn(l, true), Late)
    ensures var c, s' := Head(s, l).c, Next(e, s, RunFn(l, true));
            Known(s', c) && ChanOf(s', c).index == Added
  {
    SendIsKnown(e, s, l);
    WatchedIsAdded(e, PutLoop(s, l, Popped(s.loops[l])), Head(s, l).c);
  }

  lemma RunEstablishChan(e: Edition, s: Sys, l: LId)
    requires Ordered(e, s) && Enabled(e, s, RunFn(l, false)) && Head(s, l).EstablishFn?
    ensures Fares(s, Next(e, s, RunFn(l, false)), Head(s, l).c)
  {
    var c := Head(s, l).c;
    RunEstablishRec(e, s, l);
    assert RecOk(s, c);
    LoopsKeepBase(s, l, Popped(s.loops[l]), c);
    EstablishChan(PutLoop(s, l, Popped(s.loops[l])), c);
  }

  lemma RunNothingChan(e: Edition, s: Sys, l: LId, watch: bool)
    requires Enabled(e, s, RunFn(l, watch))
    requires Head(s, l).ShutdownFn? || Head(s, l).NotifyFn? || Head(s, l).c in s.freed
    ensures Fares(s, Next(e, s, RunFn(l, watch)), Head(s, l).c)
  {
    SameRegsStay(s, Next(e, s, RunFn(l, watch)), Head(s, l).c);
  }

  lemma RunChanGoes(e: Edition, s: Sys, l: LId, watch: bool)
    requires Ordered(e, s) && Enabled(e, s, RunFn(l, watch)) && !Has(e, s, RunFn(l, watch), Late)
    ensures Fares(s, Next(e, s, RunFn(l, watch)), Head(s, l).c)
  {
    var f := Head(s, l);
    assert watch ==> f.SendFn?;
    if f.ShutdownFn? || f.NotifyFn? || f.c in s.freed {
      RunNothingChan(e, s, l, watch);
    } else if f.EstablishFn? {
      RunEstablishChan(e, s, l);
    } else if f.UnlistFn? {
      RunUnlistChan(e, s, l);
    } else if f.DestroyFn? {
      RunDestroyChan(e, s, l);
    } else {
      RunSendChan(e, s, l, watch);
    }
  }

  lemma SendIsKnown(e: Edition, s: Sys, l: LId)
    requires Ordered(e, s) && CanRun(s, l) && Head(s, l).SendFn? && Head(s, l).c !in s.freed
    ensures Known(s, Head(s, l).c) && Stage(s, Head(s, l).c) >= 1
    ensures Stage(s, Head(s, l).c) == 1 ==> Follows(s, Head(s, l).c)
  {
    var c := Head(s, l).c;
    assert RecOk(s, c) && RecOrder(s, c) && ChanOrder(e, s, c);
    HeadIsEstablished(e, s, l);
    if Stage(s, c) == 1 {
      ListedFollows(e, s, c);
    }
  }

  lemma OwnChanGoes(e: Edition, s: Sys, step: Step, c: CId)
    requires Ordered(e, s) && Enabled(e, s, step) && OwnStep(step) && Concerns(e, s, step, c)
    ensures Fares(s, Next(e, s, step), c)
  {
    match step {
      case StopWriting(l) => StopWritingChan(e, s, l);
      case DirectSend(l, _, watch) => DirectSendChan(e, s, l, c, watch);
      case DirectShutdown(_, _) => SameRegsStay(s, Next(e, s, step), c);
      case PushNotify(_) => SameRegsStay(s, Next(e, s, step), c);
      case Free(_) => FreeChan(e, s, c);
    }
  }

  lemma FreeChan(e: Edition, s: Sys, c: CId)
    requires Enabled(e, s, Free(c))
    ensures Fares(s, Next(e, s, Free(c)), c)
  {
  }

  lemma UnwatchFollows(s: Sys, c: CId)
    requires Known(s, c) && Stage(s, c) == 1 && Follows(s, c)
    ensures var s' := SetMask(s, c, ChanOf(s, c).events - WRITE_EVENT);
            c in s'.recs && Follows(s', c)
  {
    var mask := ChanOf(s, c).events - WRITE_EVENT;
    MaskEffect(s, c, mask);
    assert EPOLLIN in mask;
  }

  lemma StopWritingChan(e: Edition, s: Sys, l: LId)
    requires Ordered(e, s) && Enabled(e, s, StopWriting(l))
    ensures Fares(s, Next(e, s, StopWriting(l)), Current(s, l))
  {
    var c := Current(s, l);
    CurrentIsOpen(e, s, l);
    assert RecOk(s, c);
    ListedFollows(e, s, c);
    UnwatchFollows(s, c);
  }

  lemma DirectSendChan(e: Edition, s: Sys, l: LId, c: CId, watch: bool)
    requires Ordered(e, s) && Enabled(e, s, DirectSend(l, c, watch))
    ensures Fares(s, Next(e, s, DirectSend(l, c, watch)), c)
  {
    assert RecOk(s, c) && RecOrder(s, c) && ChanOrder(e, s, c);
    ConnectedIsOpen(s, c);
    ListedFollows(e, s, c);
    if watch && !Refused(e, s, c) {
      SendFollows(e, s, c);
    } else {
      UnwatchedStays(e, s, c, watch);
    }
  }

  lemma CallChanGoes(e: Edition, s: Sys, step: Step)
    requires Sane(e, s) && Enabled(e, s, step) && CallStep(step)
    ensures Fares(s, Next(e, s, step), step.c)
  {
    var c := step.c;
    if !step.Acquire? {
      UserIsAlive(e, s, c);
    }
    CallSameRegs(e, s, step);
    SameRegsStay(s, Next(e, s, step), c);
  }

  lemma CallSameRegs(e: Edition, s: Sys, step: Step)
    requires Enabled(e, s, step) && CallStep(step) && step.c in s.recs
    ensures var s' := Next(e, s, step);
            && s'.regs == s.regs && |s'.loops| == |s.loops| && step.c in s'.recs
            && s'.recs[step.c].loop == s.recs[step.c].loop && s'.recs[step.c].history == s.recs[step.c].history
  {
  }

  lemma StepChanGoes(e: Edition, s: Sys, step: Step, c: CId)
    requires Ordered(e, s) && Enabled(e, s, step) && !Has(e, s, step, Late)
    requires c in Next(e, s, step).recs && RecOk(Next(e, s, step), c)
    ensures Fares(s, Next(e, s, step), c)
  {
    if !Concerns(e, s, step, c) {
      ApartChan(e, s, step, c);
    } else if step.RunFn? {
      RunChanGoes(e, s, step.l, step.watch);
    } else if FrameStep(step) {
      FrameChanGoes(e, s, step, c);
    } else {
      ThreadChanGoes(e, s, step, c);
    }
  }

  lemma ThreadChanGoes(e: Edition, s: Sys, step: Step, c: CId)
    requires Ordered(e, s) && Enabled(e, s, step) && (OwnStep(step) || CallStep(step)) && Concerns(e, s, step, c)
    ensures Fares(s, Next(e, s, step), c)
  {
    if OwnStep(step) {
      OwnChanGoes(e, s, step, c);
    } else {
      CallChanGoes(e, s, step);
    }
  }

  lemma ApartChan(e: Edition, s: Sys, step: Step, c: CId)
    requires Sane(e, s) && Enabled(e, s, step) && !Concerns(e, s, step, c) && c in Next(e, s, step).recs
    ensures Fares(s, Next(e, s, step), c)
  {
    NothingElseIsBorn(e, s, step, c);
    StepApart(e, s, step, c);
  }

  /** A late send that does not revive comes with an excuse. */
  lemma LateIsExcused(e: Edition, s: Sys, l: LId)
    requires Ordered(e, s) && Enabled(e, s, RunFn(l, true))
    requires Has(e, s, RunFn(l, true), Late) && !Has(e, s, RunFn(l, true), Reviving)
    ensures var c := Head(s, l).c;
            s.recs[c].loop < |s.loops| && Excused(e, s, c) && Head(s, l).SendFn?
  {
    assert Fits(s, l, s.loops[l]);
    HeadPlaced(s, l);
  }

  lemma LateChan(e: Edition, s: Sys, l: LId)
    requires Ordered(e, s) && Enabled(e, s, RunFn(l, true))
    requires Has(e, s, RunFn(l, true), Late) && !Has(e, s, RunFn(l, true), Reviving)
    ensures var c, s' := Head(s, l).c, Next(e, s, RunFn(l, true));
            c in s'.recs && s'.recs[c].loop < |s'.loops| && ChanOrder(e, s', c)
  {
    LateIsExcused(e, s, l);
    LateIsAdded(e, s, l);
    ExcuseStays(e, s, RunFn(l, true), Head(s, l).c);
  }

  lemma QuietChan(e: Edition, s: Sys, step: Step, c: CId)
    requires Ordered(e, s) && Enabled(e, s, step) && Fares(s, Next(e, s, step), c)
    requires Sane(e, Next(e, s, step)) && c in Next(e, s, step).recs
    requires Runs(s, step, DestroyFn(c)) && Known(Next(e, s, step), c) ==> Follows(Next(e, s, step), c)
    ensures Next(e, s, step).recs[c].loop < |Next(e, s, step).loops| && ChanOrder(e, Next(e, s, step), c)
  {
    var s' := Next(e, s, step);
    assert RecOk(s', c);
    if Known(s', c) && !Follows(s', c) {
      assert RecOrder(s, c) && ChanOrder(e, s, c);
      ExcuseStays(e, s, step, c);
    }
  }

  lemma DestroyedFollows(e: Edition, s: Sys, step: Step, c: CId)
    requires Ordered(e, s) && Enabled(e, s, step) && Runs(s, step, DestroyFn(c))
    requires Sane(e, Next(e, s, step))
    ensures c in Next(e, s, step).recs && Follows(Next(e, s, step), c)
  {
    HeadIsHeld(e, s, step.l);
    assert !step.watch;
    RunDestroyChan(e, s, step.l);
  }

  lemma StepChan(e: Edition, s: Sys, step: Step, c: CId)
    requires Ordered(e, s) && Enabled(e, s, step) && !Has(e, s, step, Reviving)
    requires Sane(e, Next(e, s, step)) && c in Next(e, s, step).recs
    ensures Next(e, s, step).recs[c].loop < |Next(e, s, step).loops| && ChanOrder(e, Next(e, s, step), c)
  {
    assert RecOk(Next(e, s, step), c);
    if Has(e, s, step, Late) && c == Head(s, step.l).c {
      LateChan(e, s, step.l);
    } else {
      if Has(e, s, step, Late) {
        ApartChan(e, s, step, c);
      } else {
        StepChanGoes(e, s, step, c);
      }
      if Runs(s, step, DestroyFn(c)) {
        DestroyedFollows(e, s, step, c);
      }
      QuietChan(e, s, step, c);
    }
  }

  // ---------------------------------------------------------------- lists being walked

  predicate ClosesIt(s: Sys, step: Step, c: CId) {
    step.Close? && Walking(s, step.l) && c == Current(s, step.l)
  }

  /** An open connection stays open but for its own close. */
  lemma StaysOpen(e: Edition, s: Sys, step: Step, c: CId)
    requires Ordered(e, s) && Enabled(e, s, step) && c in s.recs && Stage(s, c) == 1 && !ClosesIt(s, step, c)
    ensures c in Next(e, s, step).recs && Stage(Next(e, s, step), c) == 1
  {
    if !Concerns(e, s, step, c) {
      StepApart(e, s, step, c);
    } else if step.RunFn? {
      RunStaysOpen(e, s, step.l, step.watch);
    } else if FrameStep(step) {
      FrameStaysOpen(e, s, step);
    } else if step.DirectSend? {
      SendKeepsHistory(e, s, c, step.watch);
    }
  }

  lemma SendKeepsHistory(e: Edition, s: Sys, c: CId, watch: bool)
    requires c in s.recs
    ensures c in DoSend(e, s, c, watch).recs && DoSend(e, s, c, watch).recs[c].history == s.recs[c].history
  {
  }

  lemma FrameStage(e: Edition, s: Sys, l: LId)
    requires Sane(e, s) && l < |s.loops| && s.loops[l].frame != Idle
    ensures var c := s.loops[l].frame.c;
            && c in s.recs
            && (s.loops[l].frame.Creating? ==> Stage(s, c) == 0)
            && (s.loops[l].frame.Closing? ==> Stage(s, c) >= 2)
            && (s.loops[l].frame.Erased? ==> Stage(s, c) >= 3)
  {
    assert Fits(s, l, s.loops[l]) && RecOk(s, s.loops[l].frame.c);
  }

  lemma FrameStaysOpen(e: Edition, s: Sys, step: Step)
    requires Ordered(e, s) && Enabled(e, s, step) && FrameStep(step) && !step.Close?
    ensures step.Accept? ==> step.c !in s.recs
    ensures step.HandOver? ==> Stage(s, s.loops[0].frame.c) == 0
    ensures step.QueueDestroy? ==> Stage(s, s.loops[0].frame.c) >= 3
    ensures step.CloseCallback? ==> Stage(s, s.loops[step.l].frame.c) >= 2
  {
    match step {
      case CloseCallback(l) => FrameStage(e, s, l);
      case HandOver => FrameStage(e, s, 0);
      case QueueDestroy => FrameStage(e, s, 0);
      case Accept(_, _, _) =>
    }
  }

  lemma RunStaysOpen(e: Edition, s: Sys, l: LId, watch: bool)
    requires Ordered(e, s) && Enabled(e, s, RunFn(l, watch)) && Stage(s, Head(s, l).c) == 1
    ensures var s' := Next(e, s, RunFn(l, watch));
            Head(s, l).c in s'.recs && Stage(s', Head(s, l).c) == 1
  {
    HeadIsEstablished(e, s, l);
    if Head(s, l).EstablishFn? {
      RunEstablishRec(e, s, l);
    }
    SendKeepsHistory(e, PutLoop(s, l, Popped(s.loops[l])), Head(s, l).c, watch);
  }

  lemma PolledOpen(e: Edition, s: Sys, l: LId, ready: seq<CId>)
    requires Ordered(e, s) && Enabled(e, s, Poll(l, ready))
    ensures ActiveOpen(e, Next(e, s, Poll(l, ready)), l)
  {
    var s' := Next(e, s, Poll(l, ready));
    forall i | 0 <= i < |ready|
      ensures OpenOrLeft(e, s', ready[i])
    {
      ReportedIsOpen(e, s, l, ready[i]);
      StepApart(e, s, Poll(l, ready), ready[i]);
      ApartQueues(e, s, s', ready[i]);
    }
  }

  /** A loop at its poll has no batch, so what it is told is open or has no owner. */
  lemma ReportedIsOpen(e: Edition, s: Sys, l: LId, c: CId)
    requires Ordered(e, s) && l < |s.loops| && l < |s.regs| && s.loops[l].phase == AtPoll && Reported(s.regs[l], c)
    ensures OpenOrLeft(e, s, c)
  {
    ReportedIsKnown(e, s, l, c);
    assert Fits(s, l, s.loops[l]);
    assert ChanOrder(e, s, c);
  }

  /** What is left of a list only gets less. */
  lemma WalkShrinks(e: Edition, s: Sys, step: Step, l: LId)
    requires Enabled(e, s, step) && l < |s.loops| && LoopsGo(e, s, step, Next(e, s, step))
    requires Next(e, s, step).loops[l].phase == Dispatching && !(step.Poll? && step.l == l)
    ensures s.loops[l].phase == Dispatching && Next(e, s, step).loops[l].active == s.loops[l].active
    ensures Next(e, s, step).loops[l].walked == s.loops[l].walked + If((step.Advance? || step.Close?) && step.l == l)
  {
  }

  lemma CurrentElsewhere(e: Edition, s: Sys, l: LId, k: LId, i: nat)
    requires Ordered(e, s) && Walking(s, l) && k < |s.loops| && s.loops[k].phase == Dispatching
    requires i < |s.loops[k].active| && (k == l ==> i != s.loops[l].walked)
    ensures s.loops[k].active[i] != Current(s, l)
  {
    assert Fits(s, l, s.loops[l]) && Fits(s, k, s.loops[k]) && ActiveOpen(e, s, l);
  }

  lemma StaysOpenOrLeft(e: Edition, s: Sys, step: Step, c: CId)
    requires Ordered(e, s) && Enabled(e, s, step) && OpenOrLeft(e, s, c) && !ClosesIt(s, step, c)
    ensures OpenOrLeft(e, Next(e, s, step), c)
  {
    if Stage(s, c) == 1 {
      StaysOpen(e, s, step, c);
    } else {
      LoopStays(e, s, step, c);
      NoNewOwners(e, s, step, c);
    }
  }

  lemma StepActiveOpen(e: Edition, s: Sys, step: Step, l: LId)
    requires Ordered(e, s) && Enabled(e, s, step) && l < |s.loops| && LoopsGo(e, s, step, Next(e, s, step))
    ensures ActiveOpen(e, Next(e, s, step), l)
  {
    var s' := Next(e, s, step);
    if step.Poll? && step.l == l {
      PolledOpen(e, s, l, step.ready);
    } else if s'.loops[l].phase == Dispatching {
      WalkShrinks(e, s, step, l);
      assert ActiveOpen(e, s, l);
      forall i | s'.loops[l].walked <= i < |s'.loops[l].active|
        ensures OpenOrLeft(e, s', s'.loops[l].active[i])
      {
        if step.Close? {
          CurrentElsewhere(e, s, step.l, l, i);
        }
        assert OpenOrLeft(e, s, s.loops[l].active[i]);
        StaysOpenOrLeft(e, s, step, s.loops[l].active[i]);
      }
    }
  }

  /** Every step keeps it but a reviving send. */
  lemma StepKeepsOrdered(e: Edition, s: Sys, step: Step)
    requires Ordered(e, s) && Enabled(e, s, step) && !Has(e, s, step, Reviving)
    ensures Ordered(e, Next(e, s, step))
  {
    var s' := Next(e, s, step);
    StepKeepsSane(e, s, step);
    StepGoes(e, s, step);
    forall c | c in s'.recs
      ensures RecOrder(s', c) && ChanOrder(e, s', c)
    {
      AnyOrder(e, s, step, c);
      StepChan(e, s, step, c);
    }
    forall l | 0 <= l < |s'.loops|
      ensures ActiveOpen(e, s', l)
    {
      StepActiveOpen(e, s, step, l);
    }
  }

  // ---------------------------------------------------------------- without late sends

  /** No channel is back in its poller. */
  ghost predicate Strict(s: Sys) {
    forall c :: c in s.recs ==> Follows(s, c)
  }

  lemma StepKeepsStrict(e: Edition, s: Sys, step: Step)
    requires Ordered(e, s) && Strict(s) && Enabled(e, s, step) && !Has(e, s, step, Late)
    ensures Strict(Next(e, s, step))
  {
    StepKeepsSane(e, s, step);
    forall c | c in Next(e, s, step).recs
      ensures Follows(Next(e, s, step), c)
    {
      assert RecOk(Next(e, s, step), c);
      StepChanGoes(e, s, step, c);
    }
  }
}
