/** The pool of io loops and its round robin. */
module ThreadPool {
  import opened EventLoopModel
  import opened LoopProtocol

  class EventLoopThreadPool<F> {
    const baseLoop: EventLoop<F>
    var started: bool
    var numThreads: int
    var next: nat
    var loops: seq<EventLoop<F>>

    /** One loop per thread, none of them the base loop. */
    ghost predicate Valid()
      reads this
    {
      && (if loops == [] then next == 0 else next < |loops|)
      && (forall i :: 0 <= i < |loops| ==> loops[i] != baseLoop && loops[i].threadId != baseLoop.threadId)
      && (forall i, j :: 0 <= i < j < |loops| ==> loops[i] != loops[j] && loops[i].threadId != loops[j].threadId)
    }

    constructor (baseLoop: EventLoop<F>)
      ensures Valid() && this.baseLoop == baseLoop && loops == [] && !started
    {
      this.baseLoop := baseLoop;
      started, numThreads, next, loops := false, 0, 0, [];
    }

    method SetThreadNum(numThreads: int)
      modifies this`numThreads
      ensures this.numThreads == numThreads
    {
      this.numThreads := numThreads;
    }

    method AddLoop(tid: Tid) returns (loop: EventLoop<F>)
      requires Valid() && tid != baseLoop.threadId
      requires forall i :: 0 <= i < |loops| ==> loops[i].threadId != tid
      modifies this`loops
      ensures Valid() && loops == old(loops) + [loop]
      ensures fresh(loop) && loop.threadId == tid && loop.Valid() && loop.proto == Init<F>()
    {
      loop := new EventLoop<F>(tid);
      loops := loops + [loop];
    }

    /** One loop for each new thread. */
    method AddLoops(tids: seq<Tid>) returns (added: seq<EventLoop<F>>)
      requires Valid()
      requires forall i :: 0 <= i < |tids| ==> tids[i] != baseLoop.threadId
      requires forall i, j :: 0 <= i < j < |tids| ==> tids[i] != tids[j]
      requires forall i, j :: 0 <= i < |loops| && 0 <= j < |tids| ==> loops[i].threadId != tids[j]
      modifies this`loops
      ensures Valid() && loops == old(loops) + added && |added| == |tids|
      ensures forall i :: 0 <= i < |added| ==>
                fresh(added[i]) && added[i].threadId == tids[i] && added[i].Valid() && added[i].proto == Init<F>()
    {
      added := [];
      for i := 0 to |tids|
        invariant Valid() && loops == old(loops) + added && |added| == i
        invariant forall k :: 0 <= k < i ==> added[k].threadId == tids[k]
        invariant forall l <- added :: fresh(l) && l.Valid() && l.proto == Init<F>()
      {
        var loop := AddLoop(tids[i]);
        added := added + [loop];
      }
      assert forall i :: 0 <= i < |added| ==> added[i] in added;
    }

    /** `inits` are the loops the callback of a thread's start, if there is one, is
        called with. A number of threads that is negative adds nothing and calls
        nothing. */
    method Start(tids: seq<Tid>, hasCallback: bool) returns (inits: seq<EventLoop<F>>, added: seq<EventLoop<F>>)
      requires Valid() && |tids| == if numThreads < 0 then 0 else numThreads
      requires forall i :: 0 <= i < |tids| ==> tids[i] != baseLoop.threadId
      requires forall i, j :: 0 <= i < j < |tids| ==> tids[i] != tids[j]
      requires forall i, j :: 0 <= i < |loops| && 0 <= j < |tids| ==> loops[i].threadId != tids[j]
      modifies this`started, this`loops
      ensures Valid() && started && loops == old(loops) + added && |added| == |tids|
      ensures forall i :: 0 <= i < |added| ==>
                fresh(added[i]) && added[i].threadId == tids[i] && added[i].Valid() && added[i].proto == Init<F>()
      ensures inits == if !hasCallback then [] else if numThreads == 0 then [baseLoop] else added
    {
      started := true;
      added := AddLoops(tids);
      inits := if !hasCallback then [] else if numThreads == 0 then [baseLoop] else added;
    }

    method GetNextLoop() returns (loop: EventLoop<F>)
      requires Valid()
      modifies this`next
      ensures Valid()
      ensures loops == [] ==> loop == baseLoop && next == old(next)
      ensures loops != [] ==>
                loop == loops[old(next)] && next == if old(next) + 1 == |loops| then 0 else old(next) + 1
    {
      loop := baseLoop;
      if loops != [] {
        loop := loops[next];
        next := next + 1;
        if next >= |loops| {
          next := 0;
        }
      }
    }

    method GetAllLoops() returns (all: seq<EventLoop<F>>)
      ensures all != [] && (loops == [] ==> all == [baseLoop]) && (loops != [] ==> all == loops)
    {
      if loops == [] {
        all := [baseLoop];
      } else {
        all := loops;
      }
    }
  }

  // ---------------------------------------------------------------- balance

  lemma NextTurn(k: nat, n: nat)
    requires n > 0
    ensures (k + 1) % n == if k % n + 1 == n then 0 else k % n + 1
    ensures (k + 1) / n == if k % n + 1 == n then k / n + 1 else k / n
  {
    var q, r := k / n, k % n;
    assert k + 1 == n * q + (r + 1);
    if r + 1 == n {
      assert n * q + n == n * (q + 1);
      Divided(k + 1, n, q + 1, 0);
    } else {
      Divided(k + 1, n, q, r + 1);
    }
  }

  lemma Multiples(n: int, d: int)
    requires n >= 0
    ensures d >= 1 ==> n * d >= n
    ensures d <= -1 ==> n * d <= -n
  {
    if d >= 1 {
      assert n * d == n * (d - 1) + n;
    } else if d <= -1 {
      assert n * d == n * (d + 1) - n;
    }
  }

  lemma Divided(k: nat, n: nat, q: nat, r: nat)
    requires r < n && k == n * q + r
    ensures k / n == q && k % n == r
  {
    var d := k / n - q;
    assert n * d + k % n == r;
    Multiples(n, d);
  }

  /** How many of the entries are x. */
  function Load<T(==)>(entries: seq<T>, x: T): nat {
    if entries == [] then 0
    else Load(entries[..|entries| - 1], x) + if entries[|entries| - 1] == x then 1 else 0
  }

  /** The entries go round the loops in turn. */
  predicate RoundRobin<T(==)>(entries: seq<T>, loops: seq<T>) {
    loops != [] && forall k :: 0 <= k < |entries| ==> entries[k] == loops[k % |loops|]
  }

  /** What the i-th of n loops has after k turns. */
  function Share(k: nat, n: nat, i: nat): nat
    requires n > 0
  {
    k / n + if i < k % n then 1 else 0
  }

  lemma ShareGrows(k: nat, n: nat, i: nat)
    requires i < n
    ensures Share(0, n, i) == 0
    ensures Share(k + 1, n, i) == Share(k, n, i) + if i == k % n then 1 else 0
  {
    NextTurn(k, n);
    Divided(0, n, 0, 0);
  }

  lemma {:induction false} LoadIs<T>(entries: seq<T>, loops: seq<T>, i: nat)
    requires RoundRobin(entries, loops) && i < |loops|
    requires forall a, b :: 0 <= a < b < |loops| ==> loops[a] != loops[b]
    ensures Load(entries, loops[i]) == Share(|entries|, |loops|, i)
  {
    var k := |entries| - 1;
    if k < 0 {
      ShareGrows(0, |loops|, i);
    } else {
      assert forall j :: 0 <= j < k ==> entries[..k][j] == entries[j];
      LoadIs(entries[..k], loops, i);
      ShareGrows(k, |loops|, i);
      TurnOf(entries, loops, i);
    }
  }

  lemma RoundRobinGrows<T>(entries: seq<T>, loops: seq<T>)
    requires RoundRobin(entries, loops)
    ensures RoundRobin(entries + [loops[|entries| % |loops|]], loops)
  {
  }

  lemma TurnOf<T>(entries: seq<T>, loops: seq<T>, i: nat)
    requires entries != [] && RoundRobin(entries, loops) && i < |loops|
    requires forall a, b :: 0 <= a < b < |loops| ==> loops[a] != loops[b]
    ensures entries[|entries| - 1] == loops[i] <==> i == (|entries| - 1) % |loops|
  {
  }

  /** Handed out in turn, the loads of two loops differ by at most one, and an earlier
      loop never has less. */
  lemma LoadsAreBalanced<T>(entries: seq<T>, loops: seq<T>, i: nat, j: nat)
    requires RoundRobin(entries, loops) && i < j < |loops|
    requires forall a, b :: 0 <= a < b < |loops| ==> loops[a] != loops[b]
    ensures Load(entries, loops[j]) <= Load(entries, loops[i]) <= Load(entries, loops[j]) + 1
  {
    LoadIs(entries, loops, i);
    LoadIs(entries, loops, j);
  }
}
