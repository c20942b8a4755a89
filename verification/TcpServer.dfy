/** The server as an object: its map of connections by name, and the loops it gives
    them to. */
module TcpServerModel {
  import opened Names
  import opened EventLoopModel
  import opened ThreadPool
  import opened LoopProtocol

  /** What the server looks at in a connection; all of it is fixed. */
  datatype Conn = Conn(name: string, sockfd: int, loop: EventLoop<Task>)

  /** What the server has a loop do: listen, or connectEstablished,
      removeConnectionInLoop and connectDestroyed of a connection. */
  datatype Task = Listen | Establish(conn: Conn) | Unlist(conn: Conn) | Destroy(conn: Conn)

  function LoopsOf(conns: seq<Conn>): seq<EventLoop<Task>> {
    seq(|conns|, i requires 0 <= i < |conns| => conns[i].loop)
  }

  lemma TurnTaken(before: seq<Conn>, conn: Conn, loops: seq<EventLoop<Task>>)
    requires RoundRobin(LoopsOf(before), loops) && conn.loop == loops[|before| % |loops|]
    ensures RoundRobin(LoopsOf(before + [conn]), loops)
    ensures |before + [conn]| % |loops| == if |before| % |loops| + 1 == |loops| then 0 else |before| % |loops| + 1
  {
    NextTurn(|before|, |loops|);
    RoundRobinGrows(LoopsOf(before), loops);
    assert LoopsOf(before + [conn]) == LoopsOf(before) + [conn.loop];
  }

  class TcpServer {
    const base: EventLoop<Task>
    const address: Address
    const name: string
    const pool: EventLoopThreadPool<Task>
    var started: nat
    var nextConnId: nat
    var connections: map<string, Conn>
    ghost var created: seq<Conn>
    ghost var removed: set<Conn>

    /** The map has exactly the connections created and not removed, by their names. */
    ghost predicate MapAgrees()
      reads this
    {
      && (forall k :: k in connections ==>
            connections[k] in created && connections[k] !in removed && connections[k].name == k)
      && (forall c :: c in created && c !in removed ==> c.name in connections && connections[c.name] == c)
    }

    ghost predicate NamesAgree()
      reads this
    {
      && address.Valid() && nextConnId == |created| + 1 && nextConnId < INT_LIMIT
      && (forall i :: 0 <= i < |created| ==> created[i].name == ConnName(name, address.ToIpPort(), i + 1))
      && (forall c :: c in removed ==> c in created)
    }

    /** The connections went round the io loops, or all to the base loop. */
    ghost predicate LoopsAgree()
      reads this, pool
    {
      && (started == 0 ==> created == [] && pool.loops == [])
      && if pool.loops == [] then forall c :: c in created ==> c.loop == base
         else pool.next == |created| % |pool.loops| && RoundRobin(LoopsOf(created), pool.loops)
    }

    ghost predicate Valid()
      reads this, pool, base, pool.loops
    {
      && pool.Valid() && pool.baseLoop == base
      && base.Valid() && (forall i :: 0 <= i < |pool.loops| ==> pool.loops[i].Valid())
      && NamesAgree() && MapAgrees() && LoopsAgree()
    }

    constructor (base: EventLoop<Task>, address: Address, name: string)
      requires base.Valid() && address.Valid()
      ensures Valid() && this.base == base && this.address == address && this.name == name && fresh(pool)
      ensures started == 0 && created == [] && connections == map[] && nextConnId == 1
    {
      this.base := base;
      this.address := address;
      this.name := name;
      pool := new EventLoopThreadPool<Task>(base);
      started, nextConnId, connections := 0, 1, map[];
      created, removed := [], {};
    }

    /** The loop that serves the connection after these. */
    ghost function LoopAt(k: nat): EventLoop<Task>
      reads pool
    {
      if pool.loops == [] then pool.baseLoop else pool.loops[k % |pool.loops|]
    }

    /** The threads start once, however often this is called. Returns whether the
        caller has to listen itself. */
    method Start(tid: Tid, tids: seq<Tid>, hasCallback: bool)
      returns (listenNow: bool, inits: seq<EventLoop<Task>>)
      requires Valid() && base.MayCall(tid)
      requires |tids| == if pool.numThreads < 0 then 0 else pool.numThreads
      requires forall i :: 0 <= i < |tids| ==> tids[i] != base.threadId
      requires forall i, j :: 0 <= i < j < |tids| ==> tids[i] != tids[j]
      modifies this`started, pool`started, pool`loops, base`pending, base`evt, base`proto
      ensures Valid() && started == old(started) + 1
      ensures old(started) > 0 ==>
                pool.loops == old(pool.loops) && inits == [] && !listenNow && base.pending == old(base.pending)
      ensures old(started) == 0 ==>
                && |pool.loops| == |tids| && listenNow == (tid == base.threadId)
                && (forall i :: 0 <= i < |tids| ==> fresh(pool.loops[i]) && pool.loops[i].threadId == tids[i])
                && inits == (if !hasCallback then [] else if pool.numThreads == 0 then [base] else pool.loops)
                && base.pending == old(base.pending) + if listenNow then [] else [Listen]
    {
      listenNow, inits := false, [];
      started := started + 1;
      if started == 1 {
        ghost var added;
        inits, added := pool.Start(tids, hasCallback);
        if pool.loops != [] {
          Divided(0, |pool.loops|, 0, 0);
        }
        listenNow := base.RunInLoop(Listen, tid);
      }
    }

    lemma NameIsNew()
      requires NamesAgree() && MapAgrees()
      ensures ConnName(name, address.ToIpPort(), nextConnId) !in connections
    {
      var newName := ConnName(name, address.ToIpPort(), nextConnId);
      if newName in connections {
        var i :| 0 <= i < |created| && created[i] == connections[newName];
        NamesAreDistinct(name, address, i + 1, nextConnId);
      }
    }

    /** A name belongs to one connection only. */
    lemma SameNameSameConn(c: Conn, d: Conn)
      requires NamesAgree() && c in created && d in created && c.name == d.name
      ensures c == d
    {
      var i :| 0 <= i < |created| && created[i] == c;
      var j :| 0 <= j < |created| && created[j] == d;
      NamesAreDistinct(name, address, i + 1, j + 1);
    }

    lemma ServedByItsLoop(c: Conn)
      requires LoopsAgree() && c in created
      ensures c.loop == base || c.loop in pool.loops
    {
      var i :| 0 <= i < |created| && created[i] == c;
      if pool.loops != [] {
        assert LoopsOf(created)[i] == pool.loops[i % |pool.loops|];
      }
    }

    /** Names a connection and puts it into the map. */
    method Insert(sockfd: int, ioLoop: EventLoop<Task>) returns (conn: Conn)
      requires NamesAgree() && MapAgrees() && nextConnId + 1 < INT_LIMIT
      modifies this`nextConnId, this`connections, this`created
      ensures NamesAgree() && MapAgrees()
      ensures conn == Conn(ConnName(name, address.ToIpPort(), old(nextConnId)), sockfd, ioLoop)
      ensures conn.name !in old(connections) && connections == old(connections)[conn.name := conn]
      ensures created == old(created) + [conn]
    {
      NameIsNew();
      conn := Conn(ConnName(name, address.ToIpPort(), nextConnId), sockfd, ioLoop);
      assert conn !in removed by {
        if conn in removed {
          var i :| 0 <= i < |created| && created[i] == conn;
          NamesAreDistinct(name, address, i + 1, nextConnId);
        }
      }
      nextConnId := nextConnId + 1;
      connections := connections[conn.name := conn];
      created := created + [conn];
    }

    /** The loop whose turn it is gets the socket. */
    method AddConnection(sockfd: int) returns (conn: Conn)
      requires Valid() && started > 0 && nextConnId + 1 < INT_LIMIT
      modifies this`nextConnId, this`connections, this`created, pool`next
      ensures Valid()
      ensures conn == Conn(ConnName(name, address.ToIpPort(), old(nextConnId)), sockfd, LoopAt(|old(created)|))
      ensures conn.name !in old(connections) && connections == old(connections)[conn.name := conn]
      ensures created == old(created) + [conn]
    {
      var ioLoop := pool.GetNextLoop();
      ghost var before := created;
      conn := Insert(sockfd, ioLoop);
      if pool.loops != [] {
        TurnTaken(before, conn, pool.loops);
      }
    }

    /** Has its loop establish the new connection. Returns whether the caller has to
        run connectEstablished itself. */
    method NewConnection(sockfd: int) returns (conn: Conn, establishNow: bool)
      requires Valid() && started > 0 && nextConnId + 1 < INT_LIMIT && base.MayCall(base.threadId)
      modifies this`nextConnId, this`connections, this`created, pool`next
      modifies base`pending, base`evt, base`proto, pool.loops`pending, pool.loops`evt, pool.loops`proto
      ensures Valid() && unchanged(base)
      ensures conn == Conn(ConnName(name, address.ToIpPort(), old(nextConnId)), sockfd, LoopAt(|old(created)|))
      ensures conn.name !in old(connections) && connections == old(connections)[conn.name := conn]
      ensures created == old(created) + [conn]
      ensures establishNow <==> pool.loops == []
      ensures !establishNow ==> conn.loop.pending == old(conn.loop.pending) + [Establish(conn)] && conn.loop.evt > 0
      ensures forall l <- pool.loops :: l != conn.loop ==> unchanged(l)
    {
      conn := AddConnection(sockfd);
      establishNow := conn.loop.RunInLoop(Establish(conn), base.threadId);
    }

    method RemoveConnection(conn: Conn, tid: Tid)
      requires Valid() && conn in created && base.MayCall(tid)
      modifies this`connections, this`removed, base`pending, base`evt, base`proto
      modifies pool.loops`pending, pool.loops`evt, pool.loops`proto
      ensures Valid()
      ensures tid == base.threadId ==>
                && connections == old(connections) - {conn.name} && removed == old(removed) + {conn}
                && conn.loop.pending == old(conn.loop.pending) + [Destroy(conn)]
      ensures tid != base.threadId ==>
                && connections == old(connections) && removed == old(removed)
                && base.pending == old(base.pending) + [Unlist(conn)] && base.evt > 0
                && forall l <- pool.loops :: unchanged(l)
    {
      var unlistNow := base.RunInLoop(Unlist(conn), tid);
      if unlistNow {
        RemoveConnectionInLoop(conn);
      }
    }

    /** Takes the connection, and no other, out of the map. */
    method Erase(conn: Conn)
      requires NamesAgree() && MapAgrees() && conn in created
      modifies this`connections, this`removed
      ensures NamesAgree() && MapAgrees()
      ensures connections == old(connections) - {conn.name} && removed == old(removed) + {conn}
      ensures forall k :: k in old(connections) && k !in connections ==> old(connections)[k] == conn
    {
      forall c | c in created && c.name == conn.name
        ensures c == conn
      {
        SameNameSameConn(c, conn);
      }
      connections := connections - {conn.name};
      removed := removed + {conn};
    }

    /** The destruction is always queued and never run here, even when the connection's
        loop is this one. */
    method RemoveConnectionInLoop(conn: Conn)
      requires Valid() && conn in created && base.MayCall(base.threadId)
      modifies this`connections, this`removed, base`pending, base`evt, base`proto
      modifies pool.loops`pending, pool.loops`evt, pool.loops`proto
      ensures Valid()
      ensures connections == old(connections) - {conn.name} && removed == old(removed) + {conn}
      ensures forall k :: k in old(connections) && k !in connections ==> old(connections)[k] == conn
      ensures conn.loop.pending == old(conn.loop.pending) + [Destroy(conn)]
      ensures conn.loop != base ==> conn.loop.evt > 0 && unchanged(base)
      ensures forall l <- pool.loops :: l != conn.loop ==> unchanged(l)
    {
      ServedByItsLoop(conn);
      Erase(conn);
      conn.loop.QueueInLoop(Destroy(conn), base.threadId);
    }

    /** After any number of accepted connections, two io loops have been given numbers
        of them that differ by at most one. */
    lemma LoopsAreBalanced(i: nat, j: nat)
      requires Valid() && i < j < |pool.loops|
      ensures var given := LoopsOf(created);
              Load(given, pool.loops[j]) <= Load(given, pool.loops[i]) <= Load(given, pool.loops[j]) + 1
    {
      LoadsAreBalanced(LoopsOf(created), pool.loops, i, j);
    }
  }
}
