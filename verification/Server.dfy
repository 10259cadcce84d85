// The server's side of a session: which connection speaks for which client.
module Serving {
  import opened Domain
  import opened Registry
  import opened Disconnection
  import opened Runs
  import opened Management

  // ---------------------------------------------------------------- releasing one after the other

  lemma DropAfter(s: Book, done: set<Token>, t: Token)
    ensures Drop(DropSet(s, done), t) == DropSet(s, done + {t})
  {
    forall id | id in s.tuners ensures s.tuners[id] - done - {t} == s.tuners[id] - (done + {t}) {}
    assert Drop(DropSet(s, done), t).tuners == DropSet(s, done + {t}).tuners;
    MinusBoth(s.preStartTimers, done, t);
    MinusBoth(s.startTimers, done, t);
    MinusBoth(s.expireTimers, done, t);
    MinusBoth(s.attrs, done, t);
    MinusBoth(s.activations, done, t);
  }

  lemma MinusBoth<V>(m: map<Token, V>, done: set<Token>, t: Token)
    ensures m - done - {t} == m - (done + {t})
  {
  }

  // A token nobody holds is in none of the maps of a coherent book.
  lemma DropUnheld(s: Book, t: Token)
    requires Coherent(s) && !IsHeld(s, t)
    ensures Drop(s, t) == s
  {
    UnheldNowhere(s, t);
    hide Coherent, IsHeld;
    forall id | id in s.tuners ensures s.tuners[id] - {t} == s.tuners[id] {
      MinusAbsent(s.tuners[id], t);
    }
    assert Drop(s, t).tuners == s.tuners;
    MinusAbsent(s.preStartTimers, t);
    MinusAbsent(s.startTimers, t);
    MinusAbsent(s.expireTimers, t);
    MinusAbsent(s.attrs, t);
    MinusAbsent(s.activations, t);
  }

  lemma UnheldNowhere(s: Book, t: Token)
    requires Coherent(s) && !IsHeld(s, t)
    ensures forall id :: id in s.tuners ==> t !in s.tuners[id]
    ensures t !in s.preStartTimers && t !in s.startTimers && t !in s.expireTimers && t !in s.attrs && t !in s.activations
  {
    forall id | id in s.tuners ensures t !in s.tuners[id] {
      assert !Holds(s, id, t);
    }
  }

  lemma MinusAbsent<V>(m: map<Token, V>, t: Token)
    requires t !in m
    ensures m - {t} == m
  {
  }

  ghost function Elements(tokens: seq<Token>): set<Token> {
    set t | t in tokens
  }

  method ReleaseTokens(m: Manager, tokens: seq<Token>)
    requires m.Valid()
    modifies m`preStartTimers, m`startTimers, m`expireTimers, m`attrs, m`activations, m.tuners.Values
    ensures m.Valid() && m.View() == DropSet(old(m.View()), Elements(tokens))
  {
    ghost var s := m.View();
    DropSetNone(s);
    assert Elements(tokens[..0]) == {} && tokens[..|tokens|] == tokens;
    hide *;
    for i := 0 to |tokens|
      invariant m.Valid() && m.View() == DropSet(s, Elements(tokens[..i]))
    {
      DropAfter(s, Elements(tokens[..i]), tokens[i]);
      ElementsNext(tokens, i);
      ReleaseToken(m, tokens[i]);
    }
  }

  lemma ElementsNext(tokens: seq<Token>, i: nat)
    requires i < |tokens|
    ensures Elements(tokens[..i + 1]) == Elements(tokens[..i]) + {tokens[i]}
  {
    assert tokens[..i + 1] == tokens[..i] + [tokens[i]];
  }

  method ReleaseToken(m: Manager, t: Token)
    requires m.Valid()
    modifies m`preStartTimers, m`startTimers, m`expireTimers, m`attrs, m`activations, m.tuners.Values
    ensures m.Valid() && m.View() == Drop(old(m.View()), t)
  {
    ghost var s := m.View();
    m.IsCoherent();
    hide *;
    var found := m.ReleaseReservation(t);
    if !found {
      DropUnheld(s, t);
    }
  }

  // Everything a client owns.
  method ReleaseClient(m: Manager, client: ClientId)
    requires m.Valid()
    modifies m`preStartTimers, m`startTimers, m`expireTimers, m`attrs, m`activations, m.tuners.Values
    ensures m.Valid() && m.View() == DropSet(old(m.View()), OwnedBy(old(m.View()), {client}))
  {
    ghost var s := m.View();
    assert s.attrs == m.attrs;
    var tokens := m.GetClientTokens(client);
    assert Elements(tokens) == OwnedBy(s, {client});
    hide *;
    assert m.View() == s && m.Valid();
    ReleaseTokens(m, tokens);
  }

  // ---------------------------------------------------------------- the server

  class Server {
    const manager: Manager
    var connectionClientMap: map<ClientId, Conn>
    var connections: seq<Conn>

    constructor (manager: Manager)
      ensures this.manager == manager && connectionClientMap == map[] && connections == []
    {
      this.manager, connectionClientMap, connections := manager, map[], [];
    }

    ghost function SystemView(): System
      reads this, manager, manager.tuners.Values
    {
      System(manager.StateView(), connectionClientMap)
    }

    lemma SystemIs()
      ensures SystemView() == System(manager.StateView(), connectionClientMap)
    {
    }

    method OnNewConnection(conn: Conn)
      modifies this`connections
      ensures connections == old(connections) + [conn]
    {
      connections := connections + [conn];
    }

    method GetConnection(client: ClientId) returns (conn: Option<Conn>)
      ensures conn == if client in connectionClientMap then Some(connectionClientMap[client]) else None
    {
      conn := if client in connectionClientMap then Some(connectionClientMap[client]) else None;
    }

    // Forgets one client: first what it owns, then the client.
    method ForgetClient(client: ClientId)
      requires manager.Valid()
      modifies this`connectionClientMap, manager, manager.tuners.Values
      ensures manager.Valid() && SystemView() == Forget(old(SystemView()), {client})
    {
      manager.StateIs();
      ghost var s := manager.View();
      hide DropSet, OwnedBy, Manager.Valid, Manager.View, Manager.StateView;
      ReleaseClient(manager, client);
      manager.StateIs();
      connectionClientMap := connectionClientMap - {client};
    }

    // Every client of the connection is forgotten, then the connection itself. The result is the
    // same whatever order the clients come in.
    method OnDisconnected(conn: Conn) returns (removed: bool)
      requires manager.Valid()
      modifies this, manager, manager.tuners.Values
      ensures manager.Valid() && SystemView() == Forget(old(SystemView()), ClientsOn(old(connectionClientMap), conn))
      ensures removed == (conn in old(connections))
      ensures connections == WithoutFirst(old(connections), conn)
    {
      ForgetClientsOf(conn);
      removed := RemoveOne(conn);
    }

    method ForgetClientsOf(conn: Conn)
      requires manager.Valid()
      modifies this`connectionClientMap, manager, manager.tuners.Values
      ensures manager.Valid() && SystemView() == Forget(old(SystemView()), ClientsOn(old(connectionClientMap), conn))
    {
      ghost var sys := SystemView();
      ghost var done: set<ClientId> := {};
      var todo := connectionClientMap.Keys;
      ForgetNobody(sys);
      SystemIs();
      hide DropSet, OwnedBy, Forget, Manager.Valid, Manager.View, Manager.StateView, SystemView;
      while todo != {}
        invariant manager.Valid() && SystemView() == Forget(sys, done)
        invariant connectionClientMap == sys.clients - done
        invariant todo <= sys.clients.Keys && todo !! done
        invariant forall c :: c in sys.clients && c !in todo ==> (c in done <==> sys.clients[c] == conn)
        invariant done <= sys.clients.Keys
        decreases |todo|
      {
        var client :| client in todo;
        todo := todo - {client};
        if connectionClientMap[client] == conn {
          ForgetAlso(sys, done, client);
          ForgetClient(client);
          SystemIs();
          done := done + {client};
        }
      }
      assert done == ClientsOn(sys.clients, conn);
    }

    // A client's first message ties it to the connection it came on.
    method Introduce(client: ClientId, conn: Conn)
      modifies this`connectionClientMap
      ensures SystemView() == old(SystemView()).(clients := Known(old(connectionClientMap), client, conn))
      ensures old(manager.Valid()) ==> manager.Valid()
    {
      hide Manager.View, Manager.StateView, Manager.Valid;
      if client !in connectionClientMap {
        connectionClientMap := connectionClientMap[client := conn];
      }
    }

    // A message without payload: the client has gone, if it is one of this connection's.
    method OnEmptyMessage(client: ClientId, conn: Conn)
      requires manager.Valid()
      modifies this`connectionClientMap, manager, manager.tuners.Values
      ensures manager.Valid() && SystemView() == EndSession(old(SystemView()), client, conn)
    {
      SystemIs();
      SessionEnds(SystemView(), client, conn);
      hide *;
      Introduce(client, conn);
      SystemIs();
      var found := SpeaksFor(conn, client);
      if found {
        ForgetClient(client);
      }
    }

    // The walk over the map that looks for the client among those of the connection.
    method SpeaksFor(conn: Conn, client: ClientId) returns (found: bool)
      ensures found <==> client in ClientsOn(connectionClientMap, conn)
    {
      var todo := connectionClientMap.Keys;
      found := false;
      while todo != {} && !found
        invariant todo <= connectionClientMap.Keys
        invariant found ==> client in ClientsOn(connectionClientMap, conn)
        invariant !found && client in connectionClientMap && client !in todo ==> connectionClientMap[client] != conn
        decreases |todo|
      {
        var key :| key in todo;
        todo := todo - {key};
        found := connectionClientMap[key] == conn && key == client;
      }
    }

    method RemoveOne(conn: Conn) returns (removed: bool)
      modifies this`connections
      ensures removed == (conn in old(connections))
      ensures connections == WithoutFirst(old(connections), conn)
    {
      var it := 0;
      while it < |connections| && connections[it] != conn
        invariant 0 <= it <= |connections|
        invariant conn !in connections[..it]
      {
        it := it + 1;
      }
      removed := it < |connections|;
      WithoutAt(connections, conn, it);
      if removed {
        connections := connections[..it] + connections[it + 1..];
      }
    }
  }

  lemma SessionEnds(sys: System, client: ClientId, conn: Conn)
    ensures var sys' := sys.(clients := Known(sys.clients, client, conn));
      EndSession(sys, client, conn) ==
        if client in ClientsOn(sys'.clients, conn) then Forget(sys', {client}) else sys'
  {
    hide Forget, ClientsOn, Known;
  }

  function WithoutFirst(xs: seq<Conn>, x: Conn): seq<Conn> {
    if xs == [] then [] else if xs[0] == x then xs[1..] else [xs[0]] + WithoutFirst(xs[1..], x)
  }

  lemma {:induction false} WithoutAt(xs: seq<Conn>, x: Conn, it: nat)
    requires it <= |xs| && x !in xs[..it] && (it < |xs| ==> xs[it] == x)
    ensures it < |xs| <==> x in xs
    ensures WithoutFirst(xs, x) == if it < |xs| then xs[..it] + xs[it + 1..] else xs
    decreases it
  {
    if 0 < it {
      assert xs[..it][0] == xs[0] && xs[..it][1..] == xs[1..][..it - 1];
      WithoutAt(xs[1..], x, it - 1);
      assert xs == [xs[0]] + xs[1..];
      if it < |xs| {
        var rest := xs[1..];
        assert rest[..it - 1] + rest[it..] == xs[1..it] + xs[it + 1..];
        assert [xs[0]] + xs[1..it] == xs[..it];
        assert [xs[0]] + (xs[1..it] + xs[it + 1..]) == xs[..it] + xs[it + 1..];
      }
    }
  }

  lemma ForgetNobody(sys: System)
    ensures Forget(sys, {}) == sys && sys.clients - {} == sys.clients
  {
    assert OwnedBy(sys.state.book, {}) == {};
    DropSetNone(sys.state.book);
  }

  // Forgetting one more client after others is forgetting them together.
  lemma ForgetAlso(sys: System, done: set<ClientId>, client: ClientId)
    ensures Forget(Forget(sys, done), {client}) == Forget(sys, done + {client})
    ensures Forget(sys, done + {client}).clients == sys.clients - (done + {client})
  {
    var s := sys.state.book;
    var first := OwnedBy(s, done);
    var rest := OwnedBy(DropSet(s, first), {client});
    OwnedAlso(s, done, client);
    hide OwnedBy;
    DropSetTwice(s, first, rest);
    assert sys.clients - done - {client} == sys.clients - (done + {client});
  }

  lemma OwnedAlso(s: Book, done: set<ClientId>, client: ClientId)
    ensures OwnedBy(s, done) + OwnedBy(DropSet(s, OwnedBy(s, done)), {client}) == OwnedBy(s, done + {client})
  {
  }

  lemma DropSetTwice(s: Book, a: set<Token>, b: set<Token>)
    ensures DropSet(DropSet(s, a), b) == DropSet(s, a + b)
  {
    forall id | id in s.tuners ensures s.tuners[id] - a - b == s.tuners[id] - (a + b) {}
    assert DropSet(DropSet(s, a), b).tuners == DropSet(s, a + b).tuners;
    MinusSets(s.preStartTimers, a, b);
    MinusSets(s.startTimers, a, b);
    MinusSets(s.expireTimers, a, b);
    MinusSets(s.attrs, a, b);
    MinusSets(s.activations, a, b);
  }

  lemma MinusSets<V>(m: map<Token, V>, a: set<Token>, b: set<Token>)
    ensures m - a - b == m - (a + b)
  {
  }
}
