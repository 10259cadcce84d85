// The whole server as a program: every admissible sequence of events drives the objects through the
// states of the run.
module Engine {
  import opened Domain
  import opened Registry
  import opened Lifecycle
  import opened Protocol
  import opened ProtocolInvariants
  import opened Disconnection
  import opened Runs
  import opened Management
  import opened Serving
  import RequestExecutor
  import UpdateExecutor

  lemma InvCoherent(s: State)
    requires Inv(s)
    ensures Coherent(s.book)
  {
  }

  method SetClock(m: Manager, now: nat)
    modifies m`now
    ensures m.StateView() == old(m.StateView()).(book := old(m.View()).(now := now))
  {
    m.now := now;
  }

  method Release(m: Manager, token: Token)
    requires m.Valid()
    modifies m, m.tuners.Values
    ensures m.StateView() == old(m.StateView()).(book := Expire(old(m.StateView()).book, token))
  {
    m.StateIs();
    hide IsHeld, Drop, Manager.Valid, Manager.View, Manager.StateView;
    var found := m.ReleaseReservation(token);
    m.StateIs();
  }

  method StartTimerFired(m: Manager, token: Token, online: set<ClientId>)
    requires m.Valid()
    modifies m, m.tuners.Values
    ensures m.StateView() == old(m.StateView()).(book := StartClock(old(m.StateView()).book, token))
  {
    m.StateIs();
    hide *;
    m.OnStartTimer(token, online);
    m.StateIs();
  }

  method ExpireTimerFired(m: Manager, token: Token)
    requires m.Valid()
    modifies m, m.tuners.Values
    ensures m.StateView() == old(m.StateView()).(book := ExpireClock(old(m.StateView()).book, token))
  {
    m.StateIs();
    hide *;
    m.OnExpireTimer(token);
    m.StateIs();
  }

  // An event for the manager alone.
  predicate ForManager(e: Event) {
    !e.Heard? && !e.EmptyMessage? && !e.Disconnected?
  }

  method HandleAtManager(m: Manager, e: Event, ghost clients: map<ClientId, Conn>, online: set<ClientId>)
    requires ForManager(e) && m.Valid() && online == clients.Keys
    modifies m, m.tuners.Values
    ensures System(m.StateView(), clients) == Step(System(old(m.StateView()), clients), e)
  {
    m.StateIs();
    m.IsApart();
    hide Expire, StartClock, ExpireClock, PendingClock, Reserve, Reevaluate, CancelLiveReply, CancelRecording,
      CancelRecordingReply, Manager.View, Manager.StateView, Manager.Valid, Manager.Apart;
    match e {
      case Tick(now) => SetClock(m, now);
      case ReserveRequest(q, client) => RequestExecutor.Execute(m, q, client);
      case ReleaseRequest(token) => Release(m, token);
      case StartTimer(token) => StartTimerFired(m, token, online);
      case ExpireTimer(token) => ExpireTimerFired(m, token);
      case PendingTimer(uuid) => RequestExecutor.OnPendingTimer(m, online, uuid);
      case ReservationUpdated => UpdateExecutor.OnReservationUpdated(m, online);
      case CancelLiveAnswer(uuid) => RequestExecutor.ExecuteCancelLiveResponse(m, uuid);
      case CancelRecordingRequest(client, uuid, token) => RequestExecutor.ExecuteCancelRecording(m, online, client, uuid, token);
      case CancelRecordingAnswer(client, uuid, token) => RequestExecutor.ExecuteCancelRecordingResponse(m, online, client, uuid, token);
      case _ =>
    }
  }

  method Handle(server: Server, e: Event)
    requires server.manager.Apart() && Inv(server.SystemView().state) && Admissible(server.SystemView(), e)
    modifies server, server.manager, server.manager.tuners.Values
    ensures server.SystemView() == Step(old(server.SystemView()), e)
    ensures Inv(server.SystemView().state)
  {
    server.SystemIs();
    InvCoherent(server.SystemView().state);
    server.manager.StillValid(server.manager.StateView().book);
    StepInv(server.SystemView(), e);
    hide *;
    Dispatch(server, e);
  }

  method Dispatch(server: Server, e: Event)
    requires server.manager.Valid()
    modifies server, server.manager, server.manager.tuners.Values
    ensures server.SystemView() == Step(old(server.SystemView()), e)
  {
    server.SystemIs();
    hide *;
    if ForManager(e) {
      HandleAtManager(server.manager, e, server.connectionClientMap, server.connectionClientMap.Keys);
      server.SystemIs();
    } else {
      ForServer(e);
      HandleAtServer(server, e);
    }
  }

  lemma ForServer(e: Event)
    requires !ForManager(e)
    ensures e.Heard? || e.EmptyMessage? || e.Disconnected?
  {
  }

  method HandleAtServer(server: Server, e: Event)
    requires server.manager.Valid() && (e.Heard? || e.EmptyMessage? || e.Disconnected?)
    modifies server, server.manager, server.manager.tuners.Values
    ensures server.SystemView() == Step(old(server.SystemView()), e)
  {
    server.SystemIs();
    hide Known, EndSession, Forget, ClientsOn, Server.SystemView, Manager.StateView, Manager.Valid, Manager.View;
    match e {
      case Heard(client, conn) => server.Introduce(client, conn);
      case EmptyMessage(client, conn) => server.OnEmptyMessage(client, conn);
      case Disconnected(conn) => var removed := server.OnDisconnected(conn);
    }
  }

  // The objects follow the run, event by event, and every state on the way keeps the invariant.
  method Drive(server: Server, events: seq<Event>)
    requires server.manager.Apart() && Inv(server.SystemView().state) && AdmissibleRun(server.SystemView(), events)
    modifies server, server.manager, server.manager.tuners.Values
    ensures server.SystemView() == Run(old(server.SystemView()), events)
    ensures Inv(server.SystemView().state)
  {
    ghost var sys := server.SystemView();
    RunNone(sys);
    assert events[..0] == [] && events[..|events|] == events;
    hide *;
    for i := 0 to |events|
      invariant server.SystemView() == Run(sys, events[..i]) && Inv(server.SystemView().state)
    {
      RunNext(sys, events, i);
      Handle(server, events[i]);
    }
  }

  lemma RunNone(sys: System)
    ensures Run(sys, []) == sys
  {
  }

  lemma RunNext(sys: System, events: seq<Event>, i: nat)
    requires i < |events| && AdmissibleRun(sys, events)
    ensures Admissible(Run(sys, events[..i]), events[i])
    ensures Run(sys, events[..i + 1]) == Step(Run(sys, events[..i]), events[i])
  {
    assert events[..i + 1][..i] == events[..i];
    hide Step, Admissible;
  }

  // A server as the program starts it.
  method Boot(deviceId: Device, uuid: nat -> Uuid, numOfTuners: nat) returns (server: Server)
    requires deviceId != "" && numOfTuners > 0
    requires forall m: nat, n: nat :: uuid(m) == uuid(n) ==> m == n
    requires forall n: nat :: uuid(n) != ""
    ensures fresh(server) && fresh(server.manager) && fresh(server.manager.tuners.Values)
    ensures server.manager.Apart() && Initial(server.SystemView())
  {
    var manager := new Manager(deviceId, uuid, numOfTuners);
    server := new Server(manager);
    manager.IsApart();
    hide Coherent;
  }
}
