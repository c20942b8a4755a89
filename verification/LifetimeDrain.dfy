/** How the owners of a connection go away: other threads finish their calls, user code
    drops its pointers, and loops finish their batches. */
module LifetimeDrain {
  import opened Lifetime
  import opened LifetimeSanity
  import C = ConnectionSpec

  // ---------------------------------------------------------------- runs, by where they lead

  /** How many functors of a loop a run has run. */
  function Pops(steps: seq<Step>, l: LId): nat {
    if steps == [] then 0 else (if steps[0].RunFn? && steps[0].l == l then 1 else 0) + Pops(steps[1..], l)
  }

  /** A proof that goes from state to state over many runs must not unfold each of them:
      every step has a dozen cases. So Leads speaks of the steps of a run only behind
      this predicate, which is mentioned in one lemma, LeadsThere, and nowhere else. */
  predicate Look(now: bool) {
    true
  }

  /** The run leads from one state to another and has none of the faults. */
  ghost predicate Leads(e: Edition, s: Sys, steps: seq<Step>, t: Sys, without: set<Fault>) {
    forall now: bool {:trigger Look(now)} :: Look(now) ==>
      LegalRun(e, s, steps) && After(e, s, steps) == t && forall fault <- without :: Never(e, s, steps, fault)
  }

  /** No queued send of the run asks for EPOLLOUT. */
  predicate Calm(steps: seq<Step>) {
    forall i :: 0 <= i < |steps| ==> !steps[i].RunFn? || !steps[i].watch
  }

  /** Some calm run leads from one state to another and runs so many functors of a loop. */
  ghost predicate Reaches(e: Edition, s: Sys, t: Sys, l: LId, n: nat) {
    exists steps: seq<Step> {:trigger Leads(e, s, steps, t, {})} ::
      Leads(e, s, steps, t, {}) && Calm(steps) && Pops(steps, l) == n
  }

  lemma LeadsThere(e: Edition, s: Sys, steps: seq<Step>, t: Sys, without: set<Fault>)
    ensures Leads(e, s, steps, t, without)
            <==> LegalRun(e, s, steps) && After(e, s, steps) == t
                 && forall fault <- without :: Never(e, s, steps, fault)
  {
    assert Look(true);
  }

  lemma ReachesSelf(e: Edition, s: Sys, l: LId)
    ensures Reaches(e, s, s, l, 0)
  {
    LeadsThere(e, s, [], s, {});
    assert Leads(e, s, [], s, {}) && Pops([], l) == 0;
  }

  lemma {:induction false} RunConcat(e: Edition, s: Sys, first: seq<Step>, second: seq<Step>)
    requires LegalRun(e, s, first) && LegalRun(e, After(e, s, first), second)
    ensures LegalRun(e, s, first + second)
    ensures After(e, s, first + second) == After(e, After(e, s, first), second)
    decreases |first|
  {
    if first == [] {
      assert first + second == second;
    } else {
      assert (first + second)[1..] == first[1..] + second;
      RunConcat(e, Next(e, s, first[0]), first[1..], second);
    }
  }

  lemma {:induction false} PopsConcat(first: seq<Step>, second: seq<Step>, l: LId)
    ensures Pops(first + second, l) == Pops(first, l) + Pops(second, l)
  {
    if first == [] {
      assert first + second == second;
    } else {
      assert (first + second)[1..] == first[1..] + second;
      PopsConcat(first[1..], second, l);
    }
  }

  lemma ReachesOn(e: Edition, s: Sys, t: Sys, u: Sys, l: LId, n: nat, m: nat)
    requires Reaches(e, s, t, l, n) && Reaches(e, t, u, l, m)
    ensures Reaches(e, s, u, l, n + m)
  {
    var first: seq<Step> :| Leads(e, s, first, t, {}) && Calm(first) && Pops(first, l) == n;
    var second: seq<Step> :| Leads(e, t, second, u, {}) && Calm(second) && Pops(second, l) == m;
    LeadsThere(e, s, first, t, {});
    LeadsThere(e, t, second, u, {});
    RunConcat(e, s, first, second);
    PopsConcat(first, second, l);
    LeadsThere(e, s, first + second, u, {});
  }

  lemma ReachesAfter(e: Edition, s: Sys, t: Sys, u: Sys, l: LId, n: nat)
    requires Reaches(e, s, t, l, 0) && Reaches(e, t, u, l, n)
    ensures Reaches(e, s, u, l, n)
  {
    ReachesOn(e, s, t, u, l, 0, n);
  }

  lemma ReachesBefore(e: Edition, s: Sys, t: Sys, u: Sys, l: LId, n: nat)
    requires Reaches(e, s, t, l, n) && Reaches(e, t, u, l, 0)
    ensures Reaches(e, s, u, l, n)
  {
    ReachesOn(e, s, t, u, l, n, 0);
  }

  lemma ReachesNext(e: Edition, s: Sys, step: Step, l: LId)
    requires Enabled(e, s, step) && (step.RunFn? ==> !step.watch)
    ensures Reaches(e, s, Next(e, s, step), l, if step.RunFn? && step.l == l then 1 else 0)
  {
    var steps := [step];
    assert steps[1..] == [];
    assert Pops(steps[1..], l) == 0;
    assert Pops(steps, l) == if step.RunFn? && step.l == l then 1 else 0;
    assert LegalRun(e, Next(e, s, step), steps[1..]);
    assert LegalRun(e, s, steps);
    assert After(e, s, steps) == After(e, Next(e, s, steps[0]), steps[1..]);
    LeadsThere(e, s, steps, Next(e, s, step), {});
  }

  lemma {:induction false} RunKeepsSane(e: Edition, s: Sys, steps: seq<Step>)
    requires Sane(e, s) && LegalRun(e, s, steps)
    ensures Sane(e, After(e, s, steps))
    decreases |steps|
  {
    if steps != [] {
      StepKeepsSane(e, s, steps[0]);
      RunKeepsSane(e, Next(e, s, steps[0]), steps[1..]);
    }
  }

  // ---------------------------------------------------------------- quiet steps

  predicate SameSets(s: Sys, t: Sys, c: CId) {
    && |t.loops| == |s.loops| && t.users == s.users && t.calls == s.calls
    && c in s.recs && c in t.recs && t.recs[c].loop == s.recs[c].loop && (c in t.freed <==> c in s.freed)
  }

  predicate SameChan(s: Sys, t: Sys, c: CId) {
    (Known(t, c) <==> Known(s, c)) && (Known(s, c) && Known(t, c) ==> ChanOf(t, c) == ChanOf(s, c))
  }

  /** A connection stays out of the map, and its destruction is not queued again. */
  predicate StaysLoose(s: Sys, t: Sys, c: CId) {
    !ToQueue(t, c) && (!ToRun(s, c) ==> !ToRun(t, c) && SameChan(s, t, c))
  }

  predicate QuietLoop(e: Edition, l: Loop, l': Loop, runs: bool, c: CId) {
    && l.pending <= l'.pending && (HeldIn(e, l'.pending, c) ==> HeldIn(e, l.pending, c))
    && (!runs ==> l'.ran == l.ran && l'.batch == l.batch && l'.phase == l.phase)
  }

  predicate QuietLoops(e: Edition, s: Sys, t: Sys, l: LId, c: CId) {
    |t.loops| == |s.loops| && forall k :: 0 <= k < |s.loops| ==> QuietLoop(e, s.loops[k], t.loops[k], k == l, c)
  }

  /** Nothing has come up for the connection meanwhile: no owner, no step on its way
      out, and on no loop but one has any functor run. */
  predicate Quieter(e: Edition, s: Sys, t: Sys, l: LId, c: CId) {
    SameSets(s, t, c) && StaysLoose(s, t, c) && QuietLoops(e, s, t, l, c)
  }

  lemma QuieterTrans(e: Edition, s: Sys, t: Sys, u: Sys, l: LId, c: CId)
    requires Quieter(e, s, t, l, c) && Quieter(e, t, u, l, c)
    ensures Quieter(e, s, u, l, c)
  {
    forall k | 0 <= k < |s.loops|
      ensures QuietLoop(e, s.loops[k], u.loops[k], k == l, c)
    {
      assert QuietLoop(e, s.loops[k], t.loops[k], k == l, c) && QuietLoop(e, t.loops[k], u.loops[k], k == l, c);
    }
  }

  /** On its way out, seen from one loop. */
  lemma LooseLoop(s: Sys, c: CId, l: LId)
    requires !ToQueue(s, c) && l < |s.loops|
    ensures c !in s.listed && UnlistFn(c) !in Unrun(s.loops[l]) && !About(s.loops[l].frame, c)
    ensures !ToRun(s, c) ==> DestroyFn(c) !in Unrun(s.loops[l])
  {
  }

  /** What leaves a connection alone leaves it loose. */
  lemma ApartLoose(e: Edition, s: Sys, t: Sys, c: CId)
    requires Apart(e, s, t, c) && !ToQueue(s, c)
    ensures StaysLoose(s, t, c)
  {
    ApartQueues(e, s, t, c);
  }

  lemma LooseAfterPop(s: Sys, t: Sys, l: LId, c: CId)
    requires l < |s.loops| && s.loops[l].batch != [] && t.loops == s.loops[l := Popped(s.loops[l])]
    requires c !in t.listed && !ToQueue(s, c)
    ensures !ToQueue(t, c) && (!ToRun(s, c) ==> !ToRun(t, c))
  {
    TokensPop(s.loops[l]);
    forall k | 0 <= k < |t.loops|
      ensures UnlistFn(c) !in Unrun(t.loops[k]) && !About(t.loops[k].frame, c)
      ensures !ToRun(s, c) ==> DestroyFn(c) !in Unrun(t.loops[k])
    {
      LooseLoop(s, c, k);
    }
  }

  lemma EstablishIsListed(e: Edition, s: Sys, l: LId)
    requires Sane(e, s) && CanRun(s, l) && Head(s, l).EstablishFn?
    ensures Head(s, l).c in s.listed
  {
    var c := Head(s, l).c;
    assert RecOk(s, c);
    TokensPop(s.loops[l]);
    assert Tokens(s.loops[l], EstablishFn(c)) > 0;
    assert s.recs[c].history == [];
  }

  lemma DestroyIsToRun(s: Sys, l: LId)
    requires CanRun(s, l) && Head(s, l).DestroyFn?
    ensures ToRun(s, Head(s, l).c)
  {
    assert s.loops[l].batch[0] == Head(s, l);
    assert Head(s, l) in Unrun(s.loops[l]);
  }

  lemma SendIsQuiet(e: Edition, s: Sys, c: CId)
    requires c in s.recs
    ensures DoSend(e, s, c, false) == s || DoSend(e, s, c, false) == SetState(s, c, C.Disconnected)
  {
  }

  /** A functor of a connection on no way out: it touches neither map nor queues. */
  lemma RunOfLoose(e: Edition, s: Sys, l: LId, c: CId)
    requires Sane(e, s) && Enabled(e, s, RunFn(l, false)) && Head(s, l).c == c && !ToQueue(s, c)
    ensures StaysLoose(s, Next(e, s, RunFn(l, false)), c)
  {
    var f := Head(s, l);
    var p := PutLoop(s, l, Popped(s.loops[l]));
    var t := Next(e, s, RunFn(l, false));
    TokensPop(s.loops[l]);
    LooseLoop(s, c, l);
    assert f in Unrun(s.loops[l]) && !f.UnlistFn?;
    ExecuteLoops(e, p, f, false);
    RunKeepsSets(e, p, f);
    LooseAfterPop(s, t, l, c);
    if f.EstablishFn? {
      EstablishIsListed(e, s, l);
    } else if f.DestroyFn? {
      DestroyIsToRun(s, l);
    } else {
      SendIsQuiet(e, p, c);
    }
  }

  lemma RunKeepsSets(e: Edition, s: Sys, f: Fn)
    requires f.c in s.recs && 0 < |s.loops|
    ensures var t := Execute(e, s, f, false);
            && t.users == s.users && t.calls == s.calls && t.freed == s.freed && t.listed <= s.listed
            && f.c in t.recs && t.recs[f.c].loop == s.recs[f.c].loop
  {
  }

  lemma RunKeepsOthers(e: Edition, s: Sys, f: Fn, c: CId)
    requires f.c in s.recs && 0 < |s.loops| && c in s.recs
    ensures var t := Execute(e, s, f, false);
            c in t.recs && t.recs[c].loop == s.recs[c].loop
  {
    RunKeepsSets(e, s, f);
    if c != f.c {
      OthersStay(e, s, f, c);
    }
  }

  lemma OthersStay(e: Edition, s: Sys, f: Fn, c: CId)
    requires f.c in s.recs && 0 < |s.loops| && c in s.recs && c != f.c
    ensures var t := Execute(e, s, f, false);
            c in t.recs && t.recs[c] == s.recs[c]
  {
  }

  lemma PoppedIsQuiet(e: Edition, s: Sys, t: Sys, l: LId, c: CId)
    requires l < |s.loops| && s.loops[l].batch != [] && 0 < |s.loops|
    requires t.loops == s.loops[l := Popped(s.loops[l])]
             || exists frame :: t.loops == SetFrame(PutLoop(s, l, Popped(s.loops[l])), 0, frame).loops
    ensures QuietLoops(e, s, t, l, c)
  {
  }

  lemma RunQuietly(e: Edition, s: Sys, l: LId, c: CId)
    requires Sane(e, s) && Enabled(e, s, RunFn(l, false)) && c in s.recs && !ToQueue(s, c)
    ensures Quieter(e, s, Next(e, s, RunFn(l, false)), l, c)
  {
    var f := Head(s, l);
    var p := PutLoop(s, l, Popped(s.loops[l]));
    var t := Next(e, s, RunFn(l, false));
    ExecuteLoops(e, p, f, false);
    assert t.loops == p.loops || t.loops == SetFrame(p, 0, Erased(f.c)).loops;
    PoppedIsQuiet(e, s, t, l, c);
    RunKeepsSets(e, p, f);
    RunKeepsOthers(e, p, f, c);
    if f.c != c {
      StepApart(e, s, RunFn(l, false), c);
      ApartLoose(e, s, t, c);
    } else {
      RunOfLoose(e, s, l, c);
    }
  }

  lemma QueueDestroyQuietly(e: Edition, s: Sys, l: LId, c: CId)
    requires Sane(e, s) && Enabled(e, s, QueueDestroy) && c in s.recs && !ToQueue(s, c)
    ensures Quieter(e, s, Next(e, s, QueueDestroy), l, c)
  {
    LooseLoop(s, c, 0);
    var d := s.loops[0].frame.c;
    PostedQuietly(e, s, s.recs[d].loop, DestroyFn(d), l, c);
    StepApart(e, s, QueueDestroy, c);
    ApartLoose(e, s, Next(e, s, QueueDestroy), c);
  }

  lemma PostedQuietly(e: Edition, s: Sys, k: LId, f: Fn, l: LId, c: CId)
    requires 0 < |s.loops| && k < |s.loops| && f.c != c
    ensures QuietLoops(e, s, Post(SetFrame(s, 0, Idle), k, f), l, c)
  {
    HeldAppend(e, s.loops[k].pending, f, c);
  }

  lemma EndBatchQuietly(e: Edition, s: Sys, l: LId, c: CId)
    requires Sane(e, s) && Enabled(e, s, EndBatch(l)) && c in s.recs && !ToQueue(s, c)
    ensures Quieter(e, s, Next(e, s, EndBatch(l)), l, c)
  {
    var t := PutLoop(s, l, Ended(s.loops[l]));
    EndApart(e, s.loops[l], c);
    PutLoopApart(e, s, l, Ended(s.loops[l]), c);
    ApartLoose(e, s, t, c);
    ChangedQuietly(e, s, l, Ended(s.loops[l]), c);
  }

  lemma ChangedQuietly(e: Edition, s: Sys, l: LId, loop: Loop, c: CId)
    requires l < |s.loops| && loop.pending == s.loops[l].pending
    ensures QuietLoops(e, s, PutLoop(s, l, loop), l, c)
  {
  }

  // ---------------------------------------------------------------- a loop finishes its batch

  predicate AtRest(l: Loop) {
    l.phase == AtPoll && l.ran == [] && l.batch == [] && l.frame == Idle
  }

  lemma FrameInBatch(e: Edition, s: Sys, l: LId)
    requires Sane(e, s) && l < |s.loops| && s.loops[l].phase == Running && s.loops[l].frame != Idle
    ensures l == 0 && Enabled(e, s, QueueDestroy)
  {
    var d := s.loops[l].frame.c;
    assert Fits(s, l, s.loops[l]);
    assert HeldBy(e, s.loops[l], d);
    assert Owned(e, s, d) && RecOk(s, d);
  }

  lemma HeadCanRun(e: Edition, s: Sys, l: LId)
    requires Sane(e, s) && l < |s.loops| && s.loops[l].phase == Running
    requires s.loops[l].frame == Idle && s.loops[l].batch != []
    ensures Enabled(e, s, RunFn(l, false))
  {
    assert Fits(s, l, s.loops[l]);
    assert Placed(s, l, s.loops[l].batch[0]);
  }

  lemma {:induction false} DrainBatch(e: Edition, s: Sys, l: LId, c: CId, q: LId) returns (t: Sys)
    requires Sane(e, s) && l < |s.loops| && s.loops[l].phase == Running && c in s.recs && !ToQueue(s, c)
    ensures Sane(e, t) && Quieter(e, s, t, l, c) && AtRest(t.loops[l])
    ensures Reaches(e, s, t, q, if l == q then |s.loops[l].batch| else 0)
    decreases |s.loops[l].batch|, if s.loops[l].frame != Idle then 1 else 0, 1
  {
    if s.loops[l].frame != Idle {
      t := DrainFrame(e, s, l, c, q);
    } else if s.loops[l].batch == [] {
      EndBatchQuietly(e, s, l, c);
      StepKeepsSane(e, s, EndBatch(l));
      ReachesNext(e, s, EndBatch(l), q);
      t := Next(e, s, EndBatch(l));
    } else {
      t := DrainHead(e, s, l, c, q);
    }
  }

  lemma FrameGone(e: Edition, s: Sys)
    requires Enabled(e, s, QueueDestroy)
    ensures var u := Next(e, s, QueueDestroy);
            && |u.loops| == |s.loops|
            && u.loops[0].frame == Idle && u.loops[0].phase == s.loops[0].phase && u.loops[0].batch == s.loops[0].batch
  {
  }

  lemma {:induction false} DrainFrame(e: Edition, s: Sys, l: LId, c: CId, q: LId) returns (t: Sys)
    requires Sane(e, s) && l < |s.loops| && s.loops[l].phase == Running && c in s.recs && !ToQueue(s, c)
    requires s.loops[l].frame != Idle
    ensures Sane(e, t) && Quieter(e, s, t, l, c) && AtRest(t.loops[l])
    ensures Reaches(e, s, t, q, if l == q then |s.loops[l].batch| else 0)
    decreases |s.loops[l].batch|, 1, 0
  {
    FrameInBatch(e, s, l);
    QueueDestroyQuietly(e, s, l, c);
    FrameGone(e, s);
    var u := TakeStep(e, s, QueueDestroy, q);
    t := DrainBatch(e, u, l, c, q);
    QuieterTrans(e, s, u, t, l, c);
    ReachesAfter(e, s, u, t, q, if l == q then |s.loops[l].batch| else 0);
  }

  lemma {:induction false} DrainHead(e: Edition, s: Sys, l: LId, c: CId, q: LId) returns (t: Sys)
    requires Sane(e, s) && l < |s.loops| && s.loops[l].phase == Running && c in s.recs && !ToQueue(s, c)
    requires s.loops[l].frame == Idle && s.loops[l].batch != []
    ensures Sane(e, t) && Quieter(e, s, t, l, c) && AtRest(t.loops[l])
    ensures Reaches(e, s, t, q, if l == q then |s.loops[l].batch| else 0)
    decreases |s.loops[l].batch|, 0, 0
  {
    HeadCanRun(e, s, l);
    RunQuietly(e, s, l, c);
    StepKeepsSane(e, s, RunFn(l, false));
    RunFnGoes(e, s, l, false);
    ReachesNext(e, s, RunFn(l, false), q);
    var u := Next(e, s, RunFn(l, false));
    assert SamePhase(Popped(s.loops[l]), u.loops[l]);
    t := DrainBatch(e, u, l, c, q);
    QuieterTrans(e, s, u, t, l, c);
    ReachesOn(e, s, u, t, q, if l == q then 1 else 0, if l == q then |u.loops[l].batch| else 0);
  }

  // ---------------------------------------------------------------- other threads finish their calls

  /** A queue grows by functors that neither own the connection nor move it on. */
  predicate GrownLoop(e: Edition, l: Loop, l': Loop, plain: bool, c: CId) {
    && l' == l.(pending := l'.pending) && l.pending <= l'.pending
    && (plain && HeldIn(e, l'.pending, c) ==> HeldIn(e, l.pending, c))
    && (UnlistFn(c) in Unrun(l') ==> UnlistFn(c) in Unrun(l))
    && (DestroyFn(c) in Unrun(l') ==> DestroyFn(c) in Unrun(l))
  }

  predicate CallsOn(e: Edition, s: Sys, t: Sys, plain: bool, c: CId) {
    && |t.loops| == |s.loops| && t.users == s.users && t.listed == s.listed && t.freed == s.freed && t.regs == s.regs
    && c in s.recs && c in t.recs && t.recs[c].loop == s.recs[c].loop
    && (Sending(c) in t.calls ==> Sending(c) in s.calls)
    && forall k :: 0 <= k < |s.loops| ==> GrownLoop(e, s.loops[k], t.loops[k], plain, c)
  }

  lemma CallsOnTrans(e: Edition, s: Sys, t: Sys, u: Sys, plain: bool, c: CId)
    requires CallsOn(e, s, t, plain, c) && CallsOn(e, t, u, plain, c)
    ensures CallsOn(e, s, u, plain, c)
  {
    forall k | 0 <= k < |s.loops|
      ensures GrownLoop(e, s.loops[k], u.loops[k], plain, c)
    {
      assert GrownLoop(e, s.loops[k], t.loops[k], plain, c) && GrownLoop(e, t.loops[k], u.loops[k], plain, c);
    }
  }

  lemma CallsOnLoose(e: Edition, s: Sys, t: Sys, plain: bool, c: CId)
    requires CallsOn(e, s, t, plain, c) && !ToQueue(s, c)
    ensures !ToQueue(t, c) && (!ToRun(s, c) ==> !ToRun(t, c)) && SameChan(s, t, c)
  {
    forall k | 0 <= k < |t.loops|
      ensures UnlistFn(c) !in Unrun(t.loops[k]) && !About(t.loops[k].frame, c)
      ensures !ToRun(s, c) ==> DestroyFn(c) !in Unrun(t.loops[k])
    {
      LooseLoop(s, c, k);
      assert GrownLoop(e, s.loops[k], t.loops[k], plain, c);
    }
  }

  /** The steps the calls on a connection still take. */
  function CallsLeft(s: Sys, c: CId): nat {
    s.calls[Sending(c)] + 2 * s.calls[Stopping(c)] + s.calls[Stopped(c)]
  }

  function NextOfCalls(s: Sys, c: CId): Step {
    if Sending(c) in s.calls then PushSend(c) else if Stopped(c) in s.calls then PushShutdown(c) else StoreShutdown(c)
  }

  lemma PostGrows(e: Edition, s: Sys, l: LId, f: Fn, plain: bool, c: CId)
    requires l < |s.loops| && (f.SendFn? || f.ShutdownFn?)
    requires plain && HeldIn(e, [f], c) ==> HeldIn(e, s.loops[l].pending, c)
    ensures forall k :: 0 <= k < |s.loops| ==> GrownLoop(e, s.loops[k], Post(s, l, f).loops[k], plain, c)
  {
    HeldAppend(e, s.loops[l].pending, f, c);
    assert Unrun(Posted(s.loops[l], f)) == Unrun(s.loops[l]) + [f];
  }

  lemma PushCallOn(e: Edition, s: Sys, calls: multiset<Call>, f: Fn, plain: bool)
    requires Known(s, f.c) && (f.SendFn? || f.ShutdownFn?) && calls <= s.calls
    requires plain ==> e == C.AsWritten || f.ShutdownFn?
    ensures CallsOn(e, s, Post(PutCalls(s, calls), s.recs[f.c].loop, f), plain, f.c)
  {
    PostGrows(e, s, s.recs[f.c].loop, f, plain, f.c);
  }

  lemma StoreCallOn(e: Edition, s: Sys, c: CId, plain: bool)
    requires Enabled(e, s, StoreShutdown(c))
    ensures CallsOn(e, s, Next(e, s, StoreShutdown(c)), plain, c)
  {
  }

  lemma CallsGetLess(e: Edition, s: Sys, c: CId)
    requires Enabled(e, s, NextOfCalls(s, c))
    ensures CallsLeft(Next(e, s, NextOfCalls(s, c)), c) < CallsLeft(s, c)
  {
  }

  lemma OneCallOn(e: Edition, s: Sys, c: CId, plain: bool)
    requires Sane(e, s) && Calling(s, c) && (plain ==> e == C.AsWritten || Sending(c) !in s.calls)
    ensures Enabled(e, s, NextOfCalls(s, c))
    ensures CallsOn(e, s, Next(e, s, NextOfCalls(s, c)), plain, c)
  {
    UserIsAlive(e, s, c);
    if Sending(c) in s.calls {
      PushCallOn(e, s, s.calls - multiset{Sending(c)}, SendFn(c), plain);
    } else if Stopped(c) in s.calls {
      PushCallOn(e, s, s.calls - multiset{Stopped(c)}, ShutdownFn(c), plain);
    } else {
      StoreCallOn(e, s, c, plain);
    }
  }

  lemma CallsOnSelf(e: Edition, s: Sys, plain: bool, c: CId)
    requires c in s.recs
    ensures CallsOn(e, s, s, plain, c)
  {
  }

  lemma NextCall(e: Edition, s: Sys, c: CId, plain: bool, q: LId) returns (t: Sys)
    requires Sane(e, s) && Calling(s, c) && (plain ==> e == C.AsWritten || Sending(c) !in s.calls)
    ensures Sane(e, t) && CallsOn(e, s, t, plain, c) && CallsLeft(t, c) < CallsLeft(s, c) && Reaches(e, s, t, q, 0)
  {
    OneCallOn(e, s, c, plain);
    CallsGetLess(e, s, c);
    t := TakeStep(e, s, NextOfCalls(s, c), q);
  }

  lemma TakeStep(e: Edition, s: Sys, step: Step, q: LId) returns (t: Sys)
    requires Sane(e, s) && Enabled(e, s, step) && !step.RunFn?
    ensures t == Next(e, s, step) && Sane(e, t) && Reaches(e, s, t, q, 0)
  {
    ReachesNext(e, s, step, q);
    StepKeepsSane(e, s, step);
    t := Next(e, s, step);
  }

  lemma {:induction false} EndCalls(e: Edition, s: Sys, c: CId, plain: bool, q: LId) returns (t: Sys)
    requires Sane(e, s) && c in s.recs && (plain ==> e == C.AsWritten || Sending(c) !in s.calls)
    ensures Sane(e, t) && CallsOn(e, s, t, plain, c) && !Calling(t, c) && Reaches(e, s, t, q, 0)
    decreases CallsLeft(s, c)
  {
    if Calling(s, c) {
      var u := NextCall(e, s, c, plain, q);
      t := EndCalls(e, u, c, plain, q);
      CallsOnTrans(e, s, u, t, plain, c);
      ReachesBefore(e, s, u, t, q, 0);
    } else {
      t := s;
      ReachesSelf(e, s, q);
      CallsOnSelf(e, s, plain, c);
    }
  }

  /** All calls on a connection end and user code drops its pointer. */
  lemma LetGo(e: Edition, s: Sys, c: CId, plain: bool, q: LId) returns (t: Sys)
    requires Sane(e, s) && c in s.recs && (plain ==> e == C.AsWritten || Sending(c) !in s.calls)
    ensures Sane(e, t) && CallsOn(e, s, t.(users := s.users), plain, c) && Reaches(e, s, t, q, 0)
    ensures !Calling(t, c) && c !in t.users
    ensures !ToQueue(s, c) ==> !ToQueue(t, c) && (!ToRun(s, c) ==> !ToRun(t, c)) && SameChan(s, t, c)
  {
    t := EndCalls(e, s, c, plain, q);
    if !ToQueue(s, c) {
      CallsOnLoose(e, s, t, plain, c);
    }
    if c in t.users {
      var u := Next(e, t, Drop(c));
      StepKeepsSane(e, t, Drop(c));
      ReachesNext(e, t, Drop(c), q);
      ReachesBefore(e, s, t, u, q, 0);
      DroppedLoose(e, t, c);
      t := u;
    }
  }

  lemma DroppedLoose(e: Edition, s: Sys, c: CId)
    requires c in s.users
    ensures var t := Next(e, s, Drop(c));
            && (ToQueue(t, c) <==> ToQueue(s, c)) && (ToRun(t, c) <==> ToRun(s, c)) && SameChan(s, t, c)
  {
  }

  // ---------------------------------------------------------------- nobody left

  /** Functors of a connection are on its own loop, and on the base loop only those
      that take it out of the map. */
  lemma ForeignLoop(e: Edition, s: Sys, c: CId, l: LId)
    requires Sane(e, s) && c in s.recs && l < |s.loops| && l != s.recs[c].loop && !ToQueue(s, c)
    requires l == 0 ==> s.loops[0].ran == []
    ensures !HeldBy(e, s.loops[l], c)
  {
    assert Fits(s, l, s.loops[l]);
    LooseLoop(s, c, l);
    TokenInQueue(s.loops[l], UnlistFn(c));
    ForeignQueue(e, s, c, l, s.loops[l].ran);
    ForeignQueue(e, s, c, l, s.loops[l].batch);
    ForeignQueue(e, s, c, l, s.loops[l].pending);
  }

  lemma InQueuePlaced(s: Sys, l: LId, q: seq<Fn>, f: Fn)
    requires AllPlaced(s, l, q)
    ensures f in q ==> Placed(s, l, f)
  {
  }

  lemma ForeignQueue(e: Edition, s: Sys, c: CId, l: LId, q: seq<Fn>)
    requires AllPlaced(s, l, q) && c in s.recs && l != s.recs[c].loop && (l == 0 ==> UnlistFn(c) !in q)
    ensures !HeldIn(e, q, c)
  {
    InQueuePlaced(s, l, q, EstablishFn(c));
    InQueuePlaced(s, l, q, UnlistFn(c));
    InQueuePlaced(s, l, q, DestroyFn(c));
    InQueuePlaced(s, l, q, SendFn(c));
    InQueuePlaced(s, l, q, NotifyFn(c));
  }

  lemma NobodyLeft(e: Edition, s: Sys, c: CId)
    requires Sane(e, s) && c in s.recs && !ToQueue(s, c) && c !in s.users && !Calling(s, c)
    requires s.recs[c].loop < |s.loops| && (s.recs[c].loop != 0 ==> s.loops[0].ran == [])
    requires var loop := s.loops[s.recs[c].loop];
             !HeldIn(e, loop.ran, c) && !HeldIn(e, loop.batch, c) && !HeldIn(e, loop.pending, c)
    ensures !Owned(e, s, c)
  {
    forall l | 0 <= l < |s.loops|
      ensures !HeldBy(e, s.loops[l], c)
    {
      if l == s.recs[c].loop {
        LooseLoop(s, c, l);
      } else {
        ForeignLoop(e, s, c, l);
      }
    }
  }

  lemma RanOnlyWhileRunning(e: Edition, s: Sys, l: LId)
    requires Sane(e, s) && l < |s.loops| && s.loops[l].phase != Running
    ensures s.loops[l].ran == [] && s.loops[l].batch == []
  {
    assert Fits(s, l, s.loops[l]);
  }

  lemma QuieterSelf(e: Edition, s: Sys, l: LId, c: CId)
    requires c in s.recs && !ToQueue(s, c)
    ensures Quieter(e, s, s, l, c)
  {
  }

  lemma OtherIsQuiet(e: Edition, s: Sys, t: Sys, l: LId, c: CId, q: LId)
    requires Quieter(e, s, t, l, c) && q < |s.loops| && q != l
    ensures QuietLoop(e, s.loops[q], t.loops[q], false, c)
  {
  }

  /** The base loop, when it is not the connection's own, finishes its batch. */
  lemma DrainBase(e: Edition, s: Sys, c: CId, q: LId) returns (t: Sys)
    requires Sane(e, s) && c in s.recs && !ToQueue(s, c) && 0 < q < |s.loops|
    ensures Sane(e, t) && Quieter(e, s, t, 0, c) && Reaches(e, s, t, q, 0)
    ensures t.loops[0].ran == [] && QuietLoop(e, s.loops[q], t.loops[q], false, c)
  {
    if s.loops[0].phase == Running {
      t := DrainBatch(e, s, 0, c, q);
    } else {
      t := s;
      ReachesSelf(e, s, q);
      RanOnlyWhileRunning(e, s, 0);
      QuieterSelf(e, s, 0, c);
    }
    OtherIsQuiet(e, s, t, 0, c, q);
  }
}
