// The server as a state machine: its events, what each relies on, and what holds in every run.
module Runs {
  import opened Domain
  import opened Registry
  import opened LivePlacement
  import opened Invariants
  import opened LiveRequests
  import opened RecordRequests
  import opened Lifecycle
  import opened Protocol
  import opened ProtocolInvariants
  import opened Reevaluation
  import opened ProtocolSteps
  import opened ReserveSteps
  import opened Disconnection
  import Timers

  // The manager's state and the server's client map.
  datatype System = System(state: State, clients: map<ClientId, Conn>)

  // A timer event is its clock going off, at any moment while it runs.
  datatype Event =
    | Tick(now: nat)
    | ReserveRequest(q: ReserveTuner, client: ClientId)
    | ReleaseRequest(token: Token)
    | StartTimer(token: Token)
    | ExpireTimer(token: Token)
    | PendingTimer(uuid: Uuid)
    | ReservationUpdated
    | CancelLiveAnswer(uuid: Uuid)
    | CancelRecordingRequest(client: ClientId, uuid: Uuid, token: Token)
    | CancelRecordingAnswer(client: ClientId, uuid: Uuid, token: Token)
    | Heard(client: ClientId, conn: Conn)
    | EmptyMessage(client: ClientId, conn: Conn)
    | Disconnected(conn: Conn)

  ghost function Online(sys: System): set<ClientId> {
    sys.clients.Keys
  }

  ghost function ClientsOn(clients: map<ClientId, Conn>, conn: Conn): set<ClientId> {
    set c | c in clients && clients[c] == conn
  }

  // A client becomes known with its first message.
  function Known(clients: map<ClientId, Conn>, client: ClientId, conn: Conn): map<ClientId, Conn> {
    if client in clients then clients else clients[client := conn]
  }

  // Forgetting clients releases everything they own.
  ghost function Forget(sys: System, clients: set<ClientId>): System {
    System(sys.state.(book := DropSet(sys.state.book, OwnedBy(sys.state.book, clients))), sys.clients - clients)
  }

  // A message without payload ends its client's session, if the client is on that connection.
  ghost function EndSession(sys: System, client: ClientId, conn: Conn): System {
    var sys' := sys.(clients := Known(sys.clients, client, conn));
    if client in ClientsOn(sys'.clients, conn) then Forget(sys', {client}) else sys'
  }

  ghost function Step(sys: System, e: Event): System {
    var s := sys.state;
    match e
    case Tick(now) => sys.(state := s.(book := s.book.(now := now)))
    case ReserveRequest(q, client) => sys.(state := Reserve(s, q, client))
    case ReleaseRequest(token) => sys.(state := s.(book := Expire(s.book, token)))
    case StartTimer(token) => sys.(state := s.(book := StartClock(s.book, token)))
    case ExpireTimer(token) => sys.(state := s.(book := ExpireClock(s.book, token)))
    case PendingTimer(uuid) => sys.(state := PendingClock(s, Online(sys), uuid))
    case ReservationUpdated => sys.(state := Reevaluate(s, Online(sys)))
    case CancelLiveAnswer(uuid) => sys.(state := CancelLiveReply(s, uuid))
    case CancelRecordingRequest(client, uuid, token) => sys.(state := CancelRecording(s, Online(sys), client, uuid, token))
    case CancelRecordingAnswer(client, uuid, token) => sys.(state := CancelRecordingReply(s, Online(sys), client, uuid, token))
    case Heard(client, conn) => sys.(clients := Known(sys.clients, client, conn))
    case EmptyMessage(client, conn) => EndSession(sys, client, conn)
    case Disconnected(conn) => Forget(sys, ClientsOn(sys.clients, conn))
  }

  // A reservation about to start finds the tuner's running Records on its locator.
  ghost predicate StartsInTune(s: Book, t: Token) {
    IsHeld(s, t) && Lookup(s, t).phase == IDLE ==> SameChannel(s.tuners[HomeOf(s, t)], t)
  }

  // What the code relies on, event by event. The clock never goes backwards; a timer goes off only
  // while it runs; a Record that starts finds the tuner's running Records on its locator; where a
  // reservation is about to be added, adding fails only before it inserts; an answer names an entry of
  // its own kind; a client's own request ids are new.
  ghost predicate Admissible(sys: System, e: Event) {
    var s := sys.state;
    match e
    case Tick(now) => now >= s.book.now
    case ReserveRequest(q, client) => ReserveAdmissible(s, q)
    case ReleaseRequest(token) => true
    case StartTimer(token) =>
      && token in s.book.startTimers && s.book.startTimers[token].armed
      && (s.book.startTimers[token].future <= s.book.now ==> StartsInTune(s.book, token))
    case ExpireTimer(token) => token in s.book.expireTimers && s.book.expireTimers[token].armed
    case PendingTimer(uuid) =>
      && uuid in s.pendingTimers && s.pendingTimers[uuid].armed
      && (s.pendingTimers[uuid].future <= s.book.now ==> RoomToSettle(s, uuid))
    case ReservationUpdated => true
    case CancelLiveAnswer(uuid) =>
      (forall p :: p in s.pending && p.uuid == uuid ==> p.CancelLiveEntry?) && RoomToSettle(s, uuid)
    case CancelRecordingRequest(client, uuid, token) => uuid !in Ids(s.pending) && !Undrawn(s, uuid)
    case CancelRecordingAnswer(client, uuid, token) =>
      forall p :: p in s.pending && p.uuid == uuid ==> p.CancelRecordingEntry?
    case Heard(client, conn) => true
    case EmptyMessage(client, conn) => true
    case Disconnected(conn) => true
  }

  // ---------------------------------------------------------------- one step

  lemma TickSound(s: Book, now: nat)
    requires Sound(s) && now >= s.now
    ensures Sound(s.(now := now))
  {
    hide *;
    SoundParts(s);
    TickCoherent(s, now);
    TickRest(s, now);
    TickLives(s, now);
    SoundFrom(s.(now := now));
  }

  lemma TickCoherent(s: Book, now: nat)
    requires Coherent(s)
    ensures Coherent(s.(now := now))
    ensures forall t :: IsHeld(s.(now := now), t) <==> IsHeld(s, t)
  {
    var s' := s.(now := now);
    forall t ensures IsHeld(s', t) <==> IsHeld(s, t) { HeldAlike(s, s', t); }
    assert forall i, t :: Holds(s', i, t) <==> Holds(s, i, t);
  }

  lemma TickRest(s: Book, now: nat)
    requires AllWellKept(s) && AllTuned(s) && Timely(s) && now >= s.now
    ensures var s' := s.(now := now); AllWellKept(s') && AllTuned(s') && Timely(s')
  {
    var s' := s.(now := now);
    forall i, t | Holds(s', i, t) ensures TimelyFor(s', i, t) && WellKept(s'.tuners[i][t]) {
      assert Holds(s, i, t) && TimelyFor(s, i, t);
    }
  }

  lemma TickLives(s: Book, now: nat)
    requires OneLive(s) && Reservable(s, s.local)
    ensures var s' := s.(now := now); OneLive(s') && Reservable(s', s'.local)
  {
    assert forall i, t :: HoldsLive(s.(now := now), i, t) <==> HoldsLive(s, i, t);
  }

  lemma TickInv(s: State, now: nat)
    requires Inv(s) && now >= s.book.now
    ensures Inv(s.(book := s.book.(now := now)))
  {
    hide *;
    InvParts(s);
    SoundParts(s.book);
    TickSound(s.book, now);
    TickCoherent(s.book, now);
    BookInv(s, s.book.(now := now));
  }

  lemma StartInv(s: State, t: Token)
    requires Inv(s) && (IsHeld(s.book, t) && Lookup(s.book, t).phase == IDLE ==> Startable(s.book, t))
    ensures Inv(s.(book := Start(s.book, t)))
  {
    if IsHeld(s.book, t) && Lookup(s.book, t).phase == IDLE {
      StartHolds(s.book, t);
      hide *;
      InvParts(s);
      StartSound(s.book, t);
      BookInv(s, Start(s.book, t));
    } else {
      assert Start(s.book, t) == s.book;
      assert s.(book := s.book) == s;
    }
  }

  // The start clock's task runs only at or after the start of the window.
  lemma StartTaskDue(s: Book, t: Token)
    requires Sound(s) && t in s.startTimers && s.startTimers[t].armed
    ensures IsHeld(s, t) && s.startTimers[t] == Timers.Clockwork(Some(t), Lookup(s, t).start, true)
  {
    assert t in s.attrs;
    assert TimelyFor(s, HomeOf(s, t), t);
  }

  lemma ExpireTaskDue(s: Book, t: Token)
    requires Sound(s) && t in s.expireTimers && s.expireTimers[t].armed
    ensures IsHeld(s, t) && s.expireTimers[t].task == Some(t)
    ensures s.expireTimers[t].future <= s.now <==> Lookup(s, t).End() <= s.now
  {
    assert t in s.attrs;
    assert TimelyFor(s, HomeOf(s, t), t);
  }

  // What a delivery comes to: the task, if the window has started or is over, or a clock set again.
  lemma StartClockIs(s: Book, t: Token)
    requires Sound(s) && t in s.startTimers && s.startTimers[t].armed
    ensures IsHeld(s, t)
    ensures StartClock(s, t) == if Lookup(s, t).start <= s.now then Start(StartMarked(s, t), t) else StartMarked(s, t)
  {
    StartTaskDue(s, t);
    hide Sound, Start, IsHeld, Lookup;
  }

  lemma ExpireClockIs(s: Book, t: Token)
    requires Sound(s) && t in s.expireTimers && s.expireTimers[t].armed
    ensures IsHeld(s, t)
    ensures ExpireClock(s, t) == if Lookup(s, t).End() <= s.now then Expire(ExpireMarked(s, t), t) else ExpireMarked(s, t)
  {
    ExpireTaskDue(s, t);
    hide Sound, Expire, IsHeld, Lookup;
  }

  lemma StartMarkedInv(s: State, t: Token)
    requires Inv(s) && t in s.book.startTimers && s.book.startTimers[t].armed
    ensures Inv(s.(book := StartMarked(s.book, t)))
    ensures SameButClocks(s.book, StartMarked(s.book, t))
  {
    hide *;
    InvParts(s);
    StartFiredSound(s.book, t);
    MarkedSame(s.book, t);
    ClocksHold(s.book, StartMarked(s.book, t));
    BookInv(s, StartMarked(s.book, t));
  }

  lemma ExpireMarkedInv(s: State, t: Token)
    requires Inv(s) && t in s.book.expireTimers && s.book.expireTimers[t].armed
    ensures Inv(s.(book := ExpireMarked(s.book, t)))
    ensures SameButClocks(s.book, ExpireMarked(s.book, t))
  {
    hide *;
    InvParts(s);
    ExpireFiredSound(s.book, t);
    MarkedSame(s.book, t);
    ClocksHold(s.book, ExpireMarked(s.book, t));
    BookInv(s, ExpireMarked(s.book, t));
  }

  lemma StartClockInv(s: State, t: Token)
    requires Inv(s) && t in s.book.startTimers && s.book.startTimers[t].armed
    requires s.book.startTimers[t].future <= s.book.now ==> StartsInTune(s.book, t)
    ensures Inv(s.(book := StartClock(s.book, t)))
  {
    hide *;
    InvParts(s);
    StartTaskDue(s.book, t);
    StartMarkedInv(s, t);
    StartClockIs(s.book, t);
    if Lookup(s.book, t).start <= s.book.now {
      StartableMarked(s.book, t);
      StartInv(s.(book := StartMarked(s.book, t)), t);
    }
  }

  lemma StartableMarked(s: Book, t: Token)
    requires t in s.startTimers && IsHeld(s, t) && Lookup(s, t).start <= s.now && StartsInTune(s, t)
    ensures var s' := StartMarked(s, t); IsHeld(s', t) && Lookup(s', t).phase == IDLE ==> Startable(s', t)
  {
    ClocksHold(s, StartMarked(s, t));
  }

  lemma ExpireClockInv(s: State, t: Token)
    requires Inv(s) && t in s.book.expireTimers && s.book.expireTimers[t].armed
    ensures Inv(s.(book := ExpireClock(s.book, t)))
  {
    hide *;
    InvParts(s);
    ExpireMarkedInv(s, t);
    ExpireClockIs(s.book, t);
    ReleaseInv(s.(book := ExpireMarked(s.book, t)), t);
  }

  lemma StartTuners(s: Book, t: Token)
    requires IsHeld(s, t) && Lookup(s, t).phase == IDLE
    ensures Start(s, t).tuners == s.tuners[HomeOf(s, t) := StartedTuner(s, t)]
  {
    hide Synced, SyncRaises, Activated;
  }

  lemma StartHolds(s: Book, t: Token)
    ensures Start(s, t).tuners.Keys == s.tuners.Keys
    ensures forall u :: IsHeld(Start(s, t), u) ==> IsHeld(s, u)
  {
    if IsHeld(s, t) && Lookup(s, t).phase == IDLE {
      StartTuners(s, t);
      StartedWindows(s.tuners[HomeOf(s, t)], t);
      hide Start, Synced, Activated;
      forall u | IsHeld(Start(s, t), u) ensures IsHeld(s, u) {
        var i :| Holds(Start(s, t), i, u);
        assert Holds(s, i, u);
      }
    }
  }

  lemma ForgetInv(sys: System, clients: set<ClientId>)
    requires Inv(sys.state)
    ensures Inv(Forget(sys, clients).state)
  {
    var s := sys.state;
    var ts := OwnedBy(s.book, clients);
    hide Inv, Sound, OwnedBy, DropSet;
    InvParts(s);
    DropSetSound(s.book, ts);
    DropSetHolds(s.book, ts);
    BookInv(s, DropSet(s.book, ts));
  }

  lemma ReleaseInv(s: State, t: Token)
    requires Inv(s)
    ensures Inv(s.(book := Expire(s.book, t)))
  {
    hide Inv, Drop, IsHeld;
    DropInv(s, t);
    assert s.(book := s.book) == s;
  }

  // Every admissible event keeps the invariant.
  lemma StepInv(sys: System, e: Event)
    requires Inv(sys.state) && Admissible(sys, e)
    ensures Inv(Step(sys, e).state)
  {
    hide Inv, Reserve, PendingClock, Reevaluate, CancelLiveReply, CancelRecording, CancelRecordingReply, StartClock,
         ExpireClock, Expire, ReserveAdmissible, StartsInTune, RoomToSettle, Undrawn, Ids;
    var s := sys.state;
    match e
    case Tick(now) => TickInv(s, now);
    case ReserveRequest(q, client) => ReserveInv(s, q, client);
    case ReleaseRequest(token) => ReleaseInv(s, token);
    case StartTimer(token) => StartClockInv(s, token);
    case ExpireTimer(token) => ExpireClockInv(s, token);
    case PendingTimer(uuid) => PendingClockInv(s, Online(sys), uuid);
    case ReservationUpdated => ReevaluateEffect(s, Online(sys));
    case CancelLiveAnswer(uuid) => CancelLiveReplyInv(s, uuid);
    case CancelRecordingRequest(client, uuid, token) => CancelRecordingInv(s, Online(sys), client, uuid, token);
    case CancelRecordingAnswer(client, uuid, token) => CancelRecordingReplyInv(s, Online(sys), client, uuid, token);
    case Heard(client, conn) =>
    case EmptyMessage(client, conn) => ForgetInv(sys.(clients := Known(sys.clients, client, conn)), {client});
    case Disconnected(conn) => ForgetInv(sys, ClientsOn(sys.clients, conn));
  }

  // After a connection drops no reservation of its clients is left, none of its clients is mapped, and
  // every other client's reservations, timers and mapping are unchanged.
  lemma DisconnectEffect(sys: System, conn: Conn)
    requires Inv(sys.state)
    ensures var gone, sys' := ClientsOn(sys.clients, conn), Step(sys, Disconnected(conn));
      var s, s' := sys.state.book, sys'.state.book;
      && (forall t :: IsHeld(s', t) ==> t in s'.attrs && s'.attrs[t] !in gone)
      && (forall c :: c in sys'.clients ==> sys'.clients[c] != conn)
      && (forall c :: c in sys.clients && sys.clients[c] != conn ==> c in sys'.clients && sys'.clients[c] == sys.clients[c])
      && (forall t :: t in s.attrs && s.attrs[t] !in gone ==> SameFor(s, s', t))
      && s'.local == s.local && sys'.state.pending == sys.state.pending
      && sys'.state.pendingTimers == sys.state.pendingTimers
  {
    var gone := ClientsOn(sys.clients, conn);
    InvParts(sys.state);
    ForgottenClients(sys.clients, conn);
    ForgetIs(sys, gone);
    hide *;
    ReleaseClientsEffect(sys.state.book, gone);
    DisconnectIs(sys, conn);
  }

  lemma ForgetIs(sys: System, clients: set<ClientId>)
    ensures var sys' := Forget(sys, clients);
      && sys'.state.book == DropSet(sys.state.book, OwnedBy(sys.state.book, clients))
      && sys'.state.book.local == sys.state.book.local
      && sys'.state.pending == sys.state.pending && sys'.state.pendingTimers == sys.state.pendingTimers
      && sys'.clients == sys.clients - clients
  {
  }

  lemma DisconnectIs(sys: System, conn: Conn)
    ensures Step(sys, Disconnected(conn)) == Forget(sys, ClientsOn(sys.clients, conn))
  {
  }

  lemma ForgottenClients(clients: map<ClientId, Conn>, conn: Conn)
    ensures var left := clients - ClientsOn(clients, conn);
      && (forall c :: c in left ==> left[c] != conn)
      && (forall c :: c in clients && clients[c] != conn ==> c in left && left[c] == clients[c])
  {
  }

  // ---------------------------------------------------------------- runs

  ghost predicate Initial(sys: System) {
    var s, book := sys.state, sys.state.book;
    && book.deviceId != ""
    && book.local in book.tuners && "" !in book.tuners
    && (forall id :: id in book.tuners ==> book.tuners[id] == map[])
    && book.attrs == map[] && book.activations == map[]
    && book.preStartTimers == map[] && book.startTimers == map[] && book.expireTimers == map[]
    && (forall m: nat, n: nat :: s.uuid(m) == s.uuid(n) ==> m == n)
    && (forall n: nat :: s.uuid(n) != "")
    && s.issued == 0 && s.pending == [] && s.pendingTimers == map[]
    && s.seen == {} && s.granted == multiset{} && s.cancelled == {}
    && sys.clients == map[]
  }

  ghost function Run(sys: System, events: seq<Event>): System {
    if events == [] then sys
    else Step(Run(sys, events[..|events| - 1]), events[|events| - 1])
  }

  ghost predicate AdmissibleRun(sys: System, events: seq<Event>) {
    forall i :: 0 <= i < |events| ==> Admissible(Run(sys, events[..i]), events[i])
  }

  lemma InitialInv(sys: System)
    requires Initial(sys)
    ensures Inv(sys.state)
  {
    var s := sys.state;
    assert forall i, t :: !Holds(s.book, i, t);
    assert forall t :: !IsHeld(s.book, t);
    assert Sound(s.book);
    assert Claims(s.pending) + s.granted == multiset{};
  }

  lemma {:induction false} RunInv(sys: System, events: seq<Event>)
    requires Initial(sys) && AdmissibleRun(sys, events)
    ensures Inv(Run(sys, events).state)
  {
    if events == [] {
      InitialInv(sys);
    } else {
      var n := |events| - 1;
      hide *;
      LastEvent(sys, events);
      RunInv(sys, events[..n]);
      StepInv(Run(sys, events[..n]), events[n]);
    }
  }

  // The conditions can be met: at the start, any well-formed Live request is admissible and is granted,
  // if it is the host's or the server has a second tuner.
  lemma FirstLiveGranted(sys: System, q: ReserveTuner, client: ClientId)
    requires Initial(sys)
    requires q.reservation.activity == Live && q.reservation.phase == IDLE && q.reservation.locator != ""
    requires q.reservation.token == "" && q.device == q.reservation.device
    requires q.device == sys.state.book.deviceId || exists id :: id in sys.state.book.tuners && id != sys.state.book.local
    ensures Admissible(sys, ReserveRequest(q, client))
    ensures Step(sys, ReserveRequest(q, client)).state.granted == multiset{q.uuid}
  {
    hide *;
    var s := sys.state;
    InitialInv(sys);
    InvParts(s);
    InitialParts(sys);
    StartsEmpty(s.book, q);
    FirstAdmissible(s, q);
    FirstStep(sys, q, client);
    LiveAdmissibleNow(s, q);
    LiveRequestEffect(s.book, q, client, Minted(s));
    ReserveLiveIs(s, q, client);
    ServedCounts(s, q.uuid, ReserveLive(s.book, q, client, Minted(s)));
  }

  lemma ServedCounts(s: State, u: Uuid, served: (Book, LiveReply))
    requires served.1.LiveGranted?
    ensures var issued := if served.1.reservation.token == Minted(s) then s.issued + 1 else s.issued;
      Served(s, u, served.0, issued).granted == s.granted + multiset{u}
  {
  }

  lemma InitialParts(sys: System)
    requires Initial(sys)
    ensures var s := sys.state;
      && Coherent(s.book) && s.book.local in s.book.tuners && s.seen == {} && s.granted == multiset{}
      && forall id :: id in s.book.tuners ==> s.book.tuners[id] == map[]
  {
    assert forall i, t :: !Holds(sys.state.book, i, t);
  }

  lemma FirstAdmissible(s: State, q: ReserveTuner)
    requires s.seen == {} && LivesStarted(s.book)
    requires q.reservation.phase == IDLE && q.reservation.locator != "" && q.reservation.token == ""
    requires q.device == q.reservation.device && q.reservation.activity == Live && LiveRoom(s.book, q)
    ensures ReserveAdmissible(s, q)
  {
    hide OwnLive, LivesStarted, IsHeld, LiveRoom;
  }

  lemma FirstStep(sys: System, q: ReserveTuner, client: ClientId)
    ensures Admissible(sys, ReserveRequest(q, client)) <==> ReserveAdmissible(sys.state, q)
    ensures Step(sys, ReserveRequest(q, client)).state == Reserve(sys.state, q, client)
  {
    hide Reserve, ReserveAdmissible;
  }

  lemma StartsEmpty(s: Book, q: ReserveTuner)
    requires Coherent(s) && s.local in s.tuners && (forall id :: id in s.tuners ==> s.tuners[id] == map[])
    requires q.reservation.token == ""
    requires q.device == s.deviceId || exists id :: id in s.tuners && id != s.local
    ensures LivesStarted(s) && OwnLive(s, q.device) == None && LiveRoom(s, q)
    ensures !TokenMismatch(q, None) && LiveGrantable(s, q.device, q.reservation.locator, None)
  {
    assert forall i, t :: !Holds(s, i, t);
    var own := OwnLive(s, q.device);
    assert own.Some? ==> IsHeld(s, own.value);
    hide OwnLive, Coherent;
    assert forall id :: id in s.tuners ==> Uncrowded(s.tuners[id]);
    var id :| id in s.tuners && (q.device == s.deviceId || id != s.local);
    assert InState(s, id, FreeState);
    assert Takeable(s, q.device, q.reservation.locator, id);
  }

  ghost predicate BothActive(s: Book, id: TunerId, t: Token, u: Token) {
    Holds(s, id, t) && Holds(s, id, u) && s.tuners[id][t].phase == ACTIVE && s.tuners[id][u].phase == ACTIVE
  }

  // What holds between any two events of any admissible run, spelled out.
  lemma RunSafety(sys: System, events: seq<Event>)
    requires Initial(sys) && AdmissibleRun(sys, events)
    ensures var s := Run(sys, events).state.book;
      // the reserved tuner carries no Live of another device
      && s.local in s.tuners
      && (forall t :: t in s.tuners[s.local] && s.tuners[s.local][t].activity == Live ==>
            s.tuners[s.local][t].device == s.deviceId)
      // all ACTIVE reservations of a tuner are on one locator
      && (forall id, t, u :: BothActive(s, id, t, u) ==> s.tuners[id][t].locator == s.tuners[id][u].locator)
      // no device and no tuner has two Lives
      && OneLive(s)
      // tokens, timers and attributes agree, and each token has one home, under its own name
      && (forall t :: IsHeld(s, t) <==> t in s.attrs)
      && s.preStartTimers.Keys == s.startTimers.Keys == s.expireTimers.Keys == s.attrs.Keys
      && OneHome(s) && OwnName(s)
      // EXPIRED is never seen, nothing is ACTIVE before its start, each grant is started at most once
      && (forall id, t :: Holds(s, id, t) ==>
            && s.tuners[id][t].phase != EXPIRED
            && (s.tuners[id][t].phase == ACTIVE ==> s.tuners[id][t].start <= s.now)
            && t in s.activations && s.activations[t] <= 1)
  {
    RunInv(sys, events);
    InvParts(Run(sys, events).state);
    hide Inv, Run, AdmissibleRun, Initial, Listed, Supply, Once, Claims;
    BookSafety(Run(sys, events).state.book);
  }

  lemma BookSafety(s: Book)
    requires Sound(s)
    ensures s.local in s.tuners
    ensures forall t :: t in s.tuners[s.local] && s.tuners[s.local][t].activity == Live ==>
              s.tuners[s.local][t].device == s.deviceId
    ensures forall id, t, u :: BothActive(s, id, t, u) ==> s.tuners[id][t].locator == s.tuners[id][u].locator
    ensures forall id, t :: Holds(s, id, t) ==>
              && s.tuners[id][t].phase != EXPIRED
              && (s.tuners[id][t].phase == ACTIVE ==> s.tuners[id][t].start <= s.now)
              && t in s.activations && s.activations[t] <= 1
  {
    forall t | t in s.tuners[s.local] && s.tuners[s.local][t].activity == Live
      ensures s.tuners[s.local][t].device == s.deviceId
    {
      assert HoldsLive(s, s.local, t);
    }
    forall id, t | Holds(s, id, t)
      ensures s.tuners[id][t].phase != EXPIRED && t in s.activations && s.activations[t] <= 1
      ensures s.tuners[id][t].phase == ACTIVE ==> s.tuners[id][t].start <= s.now
    {
      assert WellKept(s.tuners[id][t]) && TimelyFor(s, id, t);
    }
  }

  // A request yields at most one granted reservation; while it waits it has one entry and no grant.
  lemma RunGrantsOnce(sys: System, events: seq<Event>, u: Uuid)
    requires Initial(sys) && AdmissibleRun(sys, events)
    ensures var s := Run(sys, events).state;
      && Claims(s.pending)[u] + s.granted[u] <= 1
      && (u in s.cancelled ==> Claims(s.pending)[u] == 0 && s.granted[u] == 0)
      && DistinctIds(s.pending) && s.pendingTimers.Keys == Ids(s.pending)
  {
    RunInv(sys, events);
    var s := Run(sys, events).state;
    var total := Claims(s.pending) + s.granted;
    assert Once(total, s.seen, s.cancelled);
    assert total[u] == Claims(s.pending)[u] + s.granted[u];
  }

  // ---- once cancelled, never granted

  lemma ReevaluateKeepsCancelled(s: State, online: set<ClientId>)
    requires Inv(s)
    ensures Reevaluate(s, online).cancelled == s.cancelled
  {
    InvWalking(s);
    WalkEffect(s, online, 0, []);
    var (walked, done) := Walk(s, online, 0, []);
    WalkingParts(walked, |walked.pending|, done);
    RemoveAllIs(walked, done);
  }

  lemma TimeoutKeepsCancelled(s: State, online: set<ClientId>, p: Pending)
    ensures Timeout(s, online, p).0.cancelled == s.cancelled
  {
    if !p.CancelRecordingEntry? { GrantKeepsPending(s, p.request, p.parent); }
    hide Grant, OpeningAsserts;
  }

  lemma ReserveKeepsCancelled(s: State, q: ReserveTuner, client: ClientId)
    ensures Reserve(s, q, client).cancelled == s.cancelled
  {
    hide ReserveLive, ReserveRecord;
  }

  lemma StepKeepsCancelled(sys: System, e: Event)
    requires Inv(sys.state)
    ensures sys.state.cancelled <= Step(sys, e).state.cancelled
  {
    hide Inv, Reserve, Reevaluate, Timeout, Grant, StartClock, ExpireClock, Expire, DropSet;
    var s := sys.state;
    match e
    case ReserveRequest(q, client) => ReserveKeepsCancelled(s, q, client);
    case ReservationUpdated => ReevaluateKeepsCancelled(s, Online(sys));
    case PendingTimer(uuid) =>
      if uuid in s.pendingTimers {
        var p := FindPending(s.pending, uuid);
        if p.Some? { TimeoutKeepsCancelled(PendingMarked(s, uuid), Online(sys), p.value); }
      }
    case CancelLiveAnswer(uuid) =>
      var p := FindPending(s.pending, uuid);
      if p.Some? && p.value.CancelLiveEntry? { GrantKeepsPending(s, p.value.request, p.value.parent); }
    case _ =>
  }

  lemma {:induction false} CancelledGrows(sys: System, events: seq<Event>, k: nat)
    requires Initial(sys) && AdmissibleRun(sys, events) && k <= |events|
    ensures Run(sys, events[..k]).state.cancelled <= Run(sys, events).state.cancelled
    decreases |events|
  {
    hide *;
    if k == |events| {
      assert events[..k] == events;
    } else {
      var n := |events| - 1;
      assert events[..n][..k] == events[..k];
      LastEvent(sys, events);
      CancelledGrows(sys, events[..n], k);
      RunInv(sys, events[..n]);
      StepKeepsCancelled(Run(sys, events[..n]), events[n]);
    }
  }

  lemma LastEvent(sys: System, events: seq<Event>)
    requires events != [] && AdmissibleRun(sys, events)
    ensures var n := |events| - 1;
      && AdmissibleRun(sys, events[..n])
      && Admissible(Run(sys, events[..n]), events[n])
      && Run(sys, events) == Step(Run(sys, events[..n]), events[n])
  {
    var n := |events| - 1;
    hide Step, Admissible;
    forall i | 0 <= i < n ensures Admissible(Run(sys, events[..n][..i]), events[..n][i]) {
      assert events[..n][..i] == events[..i];
    }
  }

  // Once the user cancelled a request, no later state of the run holds a claim or a grant for it.
  lemma CancelledNeverGranted(sys: System, events: seq<Event>, k: nat, u: Uuid)
    requires Initial(sys) && AdmissibleRun(sys, events) && k <= |events|
    requires u in Run(sys, events[..k]).state.cancelled
    ensures var s := Run(sys, events).state; Claims(s.pending)[u] == 0 && s.granted[u] == 0
  {
    CancelledGrows(sys, events, k);
    RunGrantsOnce(sys, events, u);
  }

  // ---- the timers and the windows

  // The expiration clock going off releases the reservation exactly when the window is over.
  lemma ExpiresExactly(sys: System, t: Token)
    requires Inv(sys.state) && Admissible(sys, ExpireTimer(t))
    ensures IsHeld(sys.state.book, t)
    ensures !IsHeld(Step(sys, ExpireTimer(t)).state.book, t) <==> Lookup(sys.state.book, t).End() <= sys.state.book.now
  {
    hide *;
    ClockRuns(sys, t);
    var s, s' := sys.state.book, sys.state.(book := ExpireMarked(sys.state.book, t));
    InvParts(sys.state);
    ExpireMarkedInv(sys.state, t);
    ClocksHold(s, s'.book);
    ExpireClockIs(s, t);
    InvParts(s');
    SoundParts(s'.book);
    ExpireReleases(s'.book, t);
  }

  lemma ExpireReleases(s: Book, t: Token)
    requires Coherent(s)
    ensures !IsHeld(Expire(s, t), t)
  {
    DropCoherent(s, t);
  }

  // What a timer event's admissibility and step are.
  lemma ClockRuns(sys: System, t: Token)
    ensures var s, e := sys.state.book, ExpireTimer(t);
      && Step(sys, e).state.book == ExpireClock(s, t)
      && (Admissible(sys, e) ==> t in s.expireTimers && s.expireTimers[t].armed)
    ensures var s, e := sys.state.book, StartTimer(t);
      && Step(sys, e).state.book == StartClock(s, t)
      && (Admissible(sys, e) ==> t in s.startTimers && s.startTimers[t].armed)
  {
    hide StartClock, ExpireClock;
  }

  // The start clock going off makes an IDLE reservation ACTIVE exactly when the window has started, and then
  // sets its expiration clock again.
  lemma StartsExactly(sys: System, t: Token)
    requires Inv(sys.state) && Admissible(sys, StartTimer(t))
    ensures IsHeld(sys.state.book, t) && IsHeld(Step(sys, StartTimer(t)).state.book, t)
    ensures Lookup(sys.state.book, t).phase == IDLE ==>
      (Lookup(Step(sys, StartTimer(t)).state.book, t).phase == ACTIVE <==> Lookup(sys.state.book, t).start <= sys.state.book.now)
    ensures Lookup(sys.state.book, t).phase == IDLE && Lookup(sys.state.book, t).start <= sys.state.book.now ==>
      EndClockSet(Step(sys, StartTimer(t)).state.book, t, Lookup(sys.state.book, t).End())
  {
    hide *;
    ClockRuns(sys, t);
    var s, s' := sys.state.book, sys.state.(book := StartMarked(sys.state.book, t));
    InvParts(sys.state);
    StartMarkedInv(sys.state, t);
    ClocksHold(s, s'.book);
    StartClockIs(s, t);
    InvParts(s');
    SoundParts(s'.book);
    StartedPhase(s'.book, t);
    if Lookup(s, t).phase == IDLE && Lookup(s, t).start <= s.now { EndClockStarts(s'.book, t); }
  }

  // The expiration clock runs, and is set for the end of the window, or for now if that has passed.
  ghost predicate EndClockSet(s: Book, t: Token, end: nat) {
    t in s.expireTimers && s.expireTimers[t] == Timers.Clockwork(Some(t), if end > s.now then end else s.now, true)
  }

  lemma EndClockStarts(s: Book, t: Token)
    requires KeysAgree(s) && AllWellKept(s) && IsHeld(s, t) && Lookup(s, t).phase == IDLE
    ensures EndClockSet(Start(s, t), t, Lookup(s, t).End())
  {
    hide *;
    StartKeys(s, t);
    HomeHolds(s, t);
    KeptOn(s, HomeOf(s, t));
    NeverRaises(s.tuners[HomeOf(s, t)], t);
    StartIs(s, t);
    ClockIs(s, t);
  }

  lemma HomeHolds(s: Book, t: Token)
    requires IsHeld(s, t)
    ensures HomeOf(s, t) in s.tuners && t in s.tuners[HomeOf(s, t)]
  {
  }

  lemma ClockIs(s: Book, t: Token)
    requires IsHeld(s, t) && Lookup(s, t).phase == IDLE && t in s.activations && t in s.expireTimers
    requires Start(s, t) == WithTimers(Recast(s, HomeOf(s, t), StartedTuner(s, t)),
                                       s.activations[t := s.activations[t] + 1],
                                       s.expireTimers[t := Timers.SetIn(t, Remaining(s.now, Lookup(s, t)), s.now)])
    ensures EndClockSet(Start(s, t), t, Lookup(s, t).End())
  {
    hide Start, StartedTuner, IsHeld, HomeOf, Lookup;
  }

  lemma StartedPhase(s: Book, t: Token)
    requires OneHome(s) && IsHeld(s, t)
    ensures IsHeld(Start(s, t), t)
    ensures Lookup(s, t).phase == IDLE ==> Lookup(Start(s, t), t).phase == ACTIVE
  {
    if Lookup(s, t).phase == IDLE {
      var id := HomeOf(s, t);
      StartTuners(s, t);
      StartedWindows(s.tuners[id], t);
      hide Start, Synced, Activated;
      assert Holds(Start(s, t), id, t);
      forall i | Holds(Start(s, t), i, t) ensures i == id {
        assert Holds(s, i, t);
      }
    }
  }
}
