/** The server's map by name, over every run of the server, its loops and its users. */
module ServerMap {
  import opened Names
  import opened Lifetime
  import opened LifetimeSanity
  import LifetimeTheorems
  import C = ConnectionSpec

  datatype Server = Server(name: string, address: Address) {
    /** Connections count from 0, their ids from 1. */
    function NameOf(c: CId): string {
      ConnName(name, address.ToIpPort(), c + 1)
    }
  }

  /** The connection whose removeConnectionInLoop a step runs, if it runs one. */
  function Unlists(s: Sys, step: Step): set<CId> {
    match step
    case CloseCallback(l) => if l == 0 && 0 < |s.loops| && s.loops[0].frame.Closing? then {s.loops[0].frame.c} else {}
    case RunFn(l, _) => if CanRun(s, l) && Head(s, l).UnlistFn? then {Head(s, l).c} else {}
    case _ => {}
  }

  /** What a step does to the map: newConnection inserts, removeConnectionInLoop erases
      by name. */
  function MapStep(server: Server, s: Sys, step: Step, m: map<string, CId>): map<string, CId> {
    if step.Accept? then m[server.NameOf(step.c) := step.c]
    else m - set c <- Unlists(s, step) :: server.NameOf(c)
  }

  function MapAfter(server: Server, e: Edition, s: Sys, steps: seq<Step>, m: map<string, CId>): map<string, CId>
    requires LegalRun(e, s, steps)
    decreases |steps|
  {
    if steps == [] then m
    else MapAfter(server, e, Next(e, s, steps[0]), steps[1..], MapStep(server, s, steps[0], m))
  }

  /** The map has the listed connections, each by its name. */
  predicate Mirrors(server: Server, s: Sys, m: map<string, CId>) {
    && (forall c :: c in s.listed ==> c in s.recs)
    && (forall c :: c in s.recs ==> c + 1 < INT_LIMIT)
    && (forall k :: k in m ==> m[k] in s.listed && server.NameOf(m[k]) == k)
    && (forall c :: c in s.listed ==> server.NameOf(c) in m && m[server.NameOf(c)] == c)
  }

  predicate IdsFit(steps: seq<Step>) {
    forall i :: 0 <= i < |steps| && steps[i].Accept? ==> steps[i].c + 1 < INT_LIMIT
  }

  // What a step does to the records' keys and to the listed connections.

  lemma HandlersList(e: Edition, s: Sys, c: CId, watch: bool)
    requires c in s.recs
    ensures DoEstablish(s, c).listed == s.listed && DoClose(s, c).listed == s.listed
    ensures DoSend(e, s, c, watch).listed == s.listed
  {
  }

  lemma DestroyLists(s: Sys, c: CId)
    requires c in s.recs
    ensures DoDestroy(s, c).listed == s.listed
  {
  }

  lemma ExecuteLists(e: Edition, s: Sys, f: Fn, watch: bool)
    requires f.c in s.recs && 0 < |s.loops| && (f.UnlistFn? ==> f.c !in s.freed)
    ensures Execute(e, s, f, watch).recs.Keys == s.recs.Keys
    ensures Execute(e, s, f, watch).listed == s.listed - if f.UnlistFn? then {f.c} else {}
  {
    ExecuteAddsNone(e, s, f, watch);
    HandlersList(e, s, f.c, watch);
    DestroyLists(s, f.c);
  }

  lemma RunFnLists(e: Edition, s: Sys, l: LId, watch: bool)
    requires Sane(e, s) && Enabled(e, s, RunFn(l, watch))
    ensures Next(e, s, RunFn(l, watch)).recs.Keys == s.recs.Keys
    ensures Next(e, s, RunFn(l, watch)).listed == s.listed - Unlists(s, RunFn(l, watch))
  {
    if Head(s, l).UnlistFn? {
      HeadIsHeld(e, s, l);
    }
    ExecuteLists(e, PutLoop(s, l, Popped(s.loops[l])), Head(s, l), watch);
  }

  lemma FrameStepLists(e: Edition, s: Sys, step: Step)
    requires Enabled(e, s, step) && (step.HandOver? || step.Close? || step.CloseCallback?)
    ensures Next(e, s, step).recs.Keys == s.recs.Keys
    ensures Next(e, s, step).listed == s.listed - Unlists(s, step)
  {
    match step {
      case HandOver =>
        HandlersAddNone(e, SetFrame(s, 0, Idle), s.loops[0].frame.c, false);
        HandlersList(e, SetFrame(s, 0, Idle), s.loops[0].frame.c, false);
      case Close(l) =>
        HandlersAddNone(e, PutLoop(s, l, Advanced(s.loops[l])), Current(s, l), false);
        HandlersList(e, PutLoop(s, l, Advanced(s.loops[l])), Current(s, l), false);
      case CloseCallback(l) =>
    }
  }

  lemma LoopStepLists(e: Edition, s: Sys, step: Step)
    requires Enabled(e, s, step) && (LoopStep(step) || step.QueueDestroy?)
    ensures Next(e, s, step).recs.Keys == s.recs.Keys
    ensures Next(e, s, step).listed == s.listed - Unlists(s, step)
  {
  }

  lemma OwnStepLists(e: Edition, s: Sys, step: Step)
    requires Enabled(e, s, step) && OwnStep(step)
    ensures Next(e, s, step).recs.Keys == s.recs.Keys
    ensures Next(e, s, step).listed == s.listed - Unlists(s, step)
  {
    if step.DirectSend? {
      HandlersAddNone(e, s, step.c, step.watch);
      HandlersList(e, s, step.c, step.watch);
    }
  }

  lemma CallStepLists(e: Edition, s: Sys, step: Step)
    requires Enabled(e, s, step) && CallStep(step)
    ensures Next(e, s, step).recs.Keys == s.recs.Keys
    ensures Next(e, s, step).listed == s.listed - Unlists(s, step)
  {
    if step.PushSend? || step.PushShutdown? {
      PushLists(e, s, step);
    } else {
      assert Unlists(s, step) == {};
    }
  }

  lemma PushLists(e: Edition, s: Sys, step: Step)
    requires Enabled(e, s, step) && (step.PushSend? || step.PushShutdown?)
    ensures Next(e, s, step).recs.Keys == s.recs.Keys
    ensures Next(e, s, step).listed == s.listed - Unlists(s, step)
  {
    assert Unlists(s, step) == {};
  }

  lemma StepLists(e: Edition, s: Sys, step: Step)
    requires Sane(e, s) && Enabled(e, s, step)
    ensures Next(e, s, step).recs.Keys == s.recs.Keys + if step.Accept? then {step.c} else {}
    ensures Next(e, s, step).listed == if step.Accept? then s.listed + {step.c} else s.listed - Unlists(s, step)
  {
    if step.RunFn? {
      RunFnLists(e, s, step.l, step.watch);
    } else if step.HandOver? || step.Close? || step.CloseCallback? {
      FrameStepLists(e, s, step);
    } else if OwnStep(step) {
      OwnStepLists(e, s, step);
    } else if CallStep(step) {
      CallStepLists(e, s, step);
    } else if !step.Accept? {
      LoopStepLists(e, s, step);
    }
  }

  lemma SameName(server: Server, c: CId, d: CId)
    requires server.address.Valid() && c + 1 < INT_LIMIT && d + 1 < INT_LIMIT
    ensures server.NameOf(c) == server.NameOf(d) <==> c == d
  {
    NamesAreDistinct(server.name, server.address, c + 1, d + 1);
  }

  lemma InsertMirrors(server: Server, s: Sys, t: Sys, c: CId, m: map<string, CId>)
    requires server.address.Valid() && Mirrors(server, s, m) && c !in s.recs && c + 1 < INT_LIMIT
    requires t.recs.Keys == s.recs.Keys + {c} && t.listed == s.listed + {c}
    ensures server.NameOf(c) !in m && Mirrors(server, t, m[server.NameOf(c) := c])
  {
    forall d | d in s.recs
      ensures server.NameOf(d) != server.NameOf(c)
    {
      SameName(server, c, d);
    }
    assert forall d :: d in t.recs ==> d in s.recs || d == c;
  }

  lemma EraseMirrors(server: Server, s: Sys, t: Sys, erased: set<CId>, m: map<string, CId>)
    requires server.address.Valid() && Mirrors(server, s, m) && forall c <- erased :: c in s.recs
    requires t.recs.Keys == s.recs.Keys && t.listed == s.listed - erased
    ensures Mirrors(server, t, m - set c <- erased :: server.NameOf(c))
  {
    forall c, d | c in erased && d in s.recs && server.NameOf(c) == server.NameOf(d)
      ensures c == d
    {
      SameName(server, c, d);
    }
    assert forall d :: d in t.recs ==> d in s.recs;
  }

  lemma ListedMirrors(server: Server, e: Edition, s: Sys, step: Step, m: map<string, CId>)
    requires server.address.Valid() && Mirrors(server, s, m) && Enabled(e, s, step)
    requires step.Accept? ==> step.c + 1 < INT_LIMIT
    requires Next(e, s, step).recs.Keys == s.recs.Keys + if step.Accept? then {step.c} else {}
    requires Next(e, s, step).listed == if step.Accept? then s.listed + {step.c} else s.listed - Unlists(s, step)
    ensures step.Accept? ==> server.NameOf(step.c) !in m
    ensures Mirrors(server, Next(e, s, step), MapStep(server, s, step, m))
  {
    if step.Accept? {
      InsertMirrors(server, s, Next(e, s, step), step.c, m);
    } else {
      EraseMirrors(server, s, Next(e, s, step), Unlists(s, step), m);
    }
  }

  /** Insertion never overwrites; erasure takes out what it means to and nothing else. */
  lemma StepMirrors(server: Server, e: Edition, s: Sys, step: Step, m: map<string, CId>)
    requires server.address.Valid() && Mirrors(server, s, m) && Sane(e, s) && Enabled(e, s, step)
    requires step.Accept? ==> step.c + 1 < INT_LIMIT
    ensures step.Accept? ==> server.NameOf(step.c) !in m
    ensures Mirrors(server, Next(e, s, step), MapStep(server, s, step, m))
  {
    StepLists(e, s, step);
    ListedMirrors(server, e, s, step, m);
  }

  lemma TailFits(steps: seq<Step>)
    requires steps != [] && IdsFit(steps)
    ensures IdsFit(steps[1..]) && (steps[0].Accept? ==> steps[0].c + 1 < INT_LIMIT)
  {
    assert forall i :: 0 <= i < |steps| - 1 ==> steps[1..][i] == steps[i + 1];
  }

  lemma {:induction false} RunMirrors(server: Server, e: Edition, s: Sys, steps: seq<Step>, m: map<string, CId>)
    requires server.address.Valid() && Mirrors(server, s, m) && Sane(e, s) && LegalRun(e, s, steps) && IdsFit(steps)
    ensures Mirrors(server, After(e, s, steps), MapAfter(server, e, s, steps, m))
    decreases |steps|
  {
    if steps != [] {
      TailFits(steps);
      StepMirrors(server, e, s, steps[0], m);
      StepKeepsSane(e, s, steps[0]);
      RunMirrors(server, e, Next(e, s, steps[0]), steps[1..], MapStep(server, s, steps[0], m));
    }
  }

  /** On every run, late sends or not, the keys of the map are the names of the
      connections created and not yet removed, and each leads to the connection it
      names. */
  lemma MapIsCreatedNotRemoved(server: Server, e: Edition, n: nat, steps: seq<Step>)
    requires server.address.Valid() && n > 0 && LegalRun(e, Start(n), steps) && IdsFit(steps)
    ensures var s := After(e, Start(n), steps);
            var m := MapAfter(server, e, Start(n), steps, map[]);
            && (forall k :: k in m ==>
                  m[k] in s.recs && server.NameOf(m[k]) == k && Unlisted !in s.recs[m[k]].history)
            && (forall c :: c in s.recs && Unlisted !in s.recs[c].history ==>
                  server.NameOf(c) in m && m[server.NameOf(c)] == c)
  {
    LifetimeTheorems.StartIsSane(e, n);
    RunMirrors(server, e, Start(n), steps, map[]);
    var s := After(e, Start(n), steps);
    forall c
      ensures c in s.listed <==> c in s.recs && Unlisted !in s.recs[c].history
    {
      LifetimeTheorems.ListedUntilRemoved(e, n, steps, c);
    }
  }
}
