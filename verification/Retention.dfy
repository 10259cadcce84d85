// What no event takes away: reservations stay until something that names them releases them.
module Retention {
  import opened Domain
  import opened Ordering
  import opened Registry
  import opened Invariants
  import opened LiveRequests
  import opened RecordRequests
  import opened Lifecycle
  import opened Protocol
  import opened ProtocolInvariants
  import opened Reevaluation
  import opened ProtocolSteps
  import opened ReserveSteps
  import opened Disconnection
  import opened Runs

  // ---------------------------------------------------------------- resolving conflicts only adds

  // Every reservation is where it was, as it was; what is new is an IDLE Record of the recorder.
  ghost predicate OnlyAdds(b: Book, b': Book) {
    && b'.tuners.Keys == b.tuners.Keys
    && (forall id, t :: Holds(b, id, t) ==> Holds(b', id, t) && b'.tuners[id][t] == b.tuners[id][t])
    && (forall id, t :: Holds(b', id, t) && !Holds(b, id, t) ==> RecorderOwns(b', id, t))
  }

  ghost predicate RecorderOwns(b: Book, id: TunerId, t: Token)
    requires Holds(b, id, t)
  {
    var r := b.tuners[id][t];
    r.activity == Record && r.phase == IDLE && t in b.attrs && b.attrs[t] == RECORDER_CLIENT
  }

  // The attributes of tokens held before are untouched as well.
  ghost predicate OwnersKept(b: Book, b': Book) {
    forall t :: t in b.attrs ==> t in b'.attrs && b'.attrs[t] == b.attrs[t]
  }

  ghost predicate Grown(b: Book, b': Book) {
    OnlyAdds(b, b') && OwnersKept(b, b')
  }

  lemma GrownSame(b: Book)
    ensures Grown(b, b)
  {
  }

  lemma GrownTwice(b: Book, b': Book, b'': Book)
    requires Grown(b, b') && Grown(b', b'')
    ensures Grown(b, b'')
  {
    forall id, t | Holds(b'', id, t) && !Holds(b, id, t) ensures RecorderOwns(b'', id, t) {
      if Holds(b', id, t) {
        assert RecorderOwns(b', id, t);
      }
    }
  }

  lemma PutGrows(b: Book, r: Reservation, id: TunerId)
    requires id in b.tuners && Coherent(b) && !IsHeld(b, r.token) && r.activity == Record && r.phase == IDLE
    ensures Grown(b, Put(b, r, id, RECORDER_CLIENT))
  {
    assert r.token !in b.attrs;
    hide Coherent;
    PutAdds(b, r, id);
    hide Put;
    PutOwners(b, r, id);
  }

  lemma PutAdds(b: Book, r: Reservation, id: TunerId)
    requires id in b.tuners && !IsHeld(b, r.token) && r.activity == Record && r.phase == IDLE
    ensures OnlyAdds(b, Put(b, r, id, RECORDER_CLIENT))
  {
    var b' := Put(b, r, id, RECORDER_CLIENT);
    PutHolds(b, r, id, RECORDER_CLIENT);
    forall i, t | Holds(b, i, t) ensures Holds(b', i, t) && b'.tuners[i][t] == b.tuners[i][t] {
      assert t != r.token;
      PutAt(b, r, id, RECORDER_CLIENT, i, t);
    }
  }

  lemma PutOwners(b: Book, r: Reservation, id: TunerId)
    requires id in b.tuners && r.token !in b.attrs
    ensures OwnersKept(b, Put(b, r, id, RECORDER_CLIENT))
  {
  }

  lemma GrantGrows(s: State, q: ReserveTuner, parent: TunerId)
    requires Sound(s.book) && Supply(s) && Waitable(q) && parent in s.book.tuners && GrantRoom(s.book, q, parent)
    ensures Grown(s.book, Grant(s, q, parent).0.book)
  {
    var r := GrantedRecord(s.book, q, parent, Minted(s));
    assert Coherent(s.book) && r.activity == Record && r.phase == IDLE && r.token == Minted(s);
    GrantBook(s, q, parent);
    hide *;
    GrantInsertable(s, q, parent);
    InsertSound(s.book, r, parent, RECORDER_CLIENT);
    MintedUnused(s);
    GrownSame(s.book);
    PutGrows(s.book, r, parent);
  }

  lemma GrantBook(s: State, q: ReserveTuner, parent: TunerId)
    requires Waitable(q) && parent in s.book.tuners
    ensures Grant(s, q, parent).0.book ==
      Insert(s.book, GrantedRecord(s.book, q, parent, Minted(s)), parent, RECORDER_CLIENT).0
  {
    hide Insert, GrantedRecord;
  }

  lemma ConflictGrows(s: State, online: set<ClientId>, p: Pending)
    requires Sound(s.book) && Supply(s) && Listed(s) && p in s.pending && p.ConflictEntry?
    ensures Grown(s.book, ConflictTimeout(s, online, p).0.book)
  {
    hide *;
    ConflictTimeoutIs(s, online, p);
    GrownSame(s.book);
    var h := s.book.tuners[p.parent];
    if |h| == 1 {
      LoneBook(s, online, p, h[Sorted(h.Keys)[0]]);
    } else if |h| <= 2 {
      FewHaveRoom(s.book, p.request, p.parent);
      GrantGrows(s, p.request, p.parent);
    }
  }

  lemma LoneBook(s: State, online: set<ClientId>, p: Pending, r: Reservation)
    requires p.ConflictEntry?
    ensures LoneTimeout(s, online, p, r).0.book == s.book
  {
  }

  lemma {:induction false} WalkGrows(s: State, online: set<ClientId>, i: nat, done: seq<Uuid>)
    requires Walking(s, i, done)
    ensures i <= |s.pending|
    ensures Grown(s.book, Walk(s, online, i, done).0.book)
    decreases if i <= |s.pending| then Work(s.pending, i) else 0
  {
    hide *;
    WalkingParts(s, i, done);
    if i == |s.pending| {
      WalkEnds(s, online, done);
      GrownSame(s.book);
    } else {
      WalkStep(s, online, i, done);
      var p := s.pending[i];
      if p.ConflictEntry? && Ripe(s.book, p) {
        var (s1, ok) := ConflictTimeout(s, online, p);
        var done1 := if ok then done + [p.uuid] else done;
        Visit(s, online, i, done);
        ConflictGrows(s, online, p);
        WalkGrows(s1, online, i + 1, done1);
        GrownTwice(s.book, s1.book, Walk(s1, online, i + 1, done1).0.book);
      } else {
        SettledSkip(s.pending, i, done);
        WalkingFrom(s, i + 1, done);
        WalkGrows(s, online, i + 1, done);
      }
    }
  }

  lemma {:induction false} RemoveAllBook(s: State, done: seq<Uuid>)
    ensures RemoveAll(s, done).book == s.book
    decreases |done|
  {
    if done != [] { RemoveAllBook(RemovePending(s, done[0]), done[1..]); }
  }

  // A timeout, an answer to CancelLive and a re-evaluation take nothing away from anyone: they leave
  // every reservation and its owner as they are, and what they add are Records for the recorder.
  lemma ResolvingOnlyAdds(s: State, online: set<ClientId>, u: Uuid)
    requires Inv(s)
    ensures Grown(s.book, Reevaluate(s, online).book)
    ensures RoomToSettle(s, u) ==> Grown(s.book, PendingDue(s, online, u).book) && Grown(s.book, CancelLiveReply(s, u).book)
  {
    hide *;
    InvParts(s);
    InvWalking(s);
    WalkGrows(s, online, 0, []);
    ReevaluateBook(s, online);
    if RoomToSettle(s, u) {
      SettlingOnlyAdds(s, online, u);
    }
  }

  lemma SettlingOnlyAdds(s: State, online: set<ClientId>, u: Uuid)
    requires Inv(s) && RoomToSettle(s, u)
    ensures Grown(s.book, PendingDue(s, online, u).book) && Grown(s.book, CancelLiveReply(s, u).book)
  {
    hide *;
    InvParts(s);
    GrownSame(s.book);
    DueBook(s, online, u);
    var p := FindPending(s.pending, u);
    if p.Some? {
      FoundEntry(s, p.value, u);
      if p.value.ConflictEntry? {
        ConflictGrows(s, online, p.value);
      } else if p.value.CancelLiveEntry? {
        GrantGrows(s, p.value.request, p.value.parent);
      }
    }
  }

  lemma ReevaluateBook(s: State, online: set<ClientId>)
    ensures Reevaluate(s, online).book == Walk(s, online, 0, []).0.book
  {
    var (walked, done) := Walk(s, online, 0, []);
    RemoveAllBook(walked, done);
    hide Walk;
  }

  lemma FoundEntry(s: State, p: Pending, u: Uuid)
    requires Listed(s) && p in s.pending && p.uuid == u && RoomToSettle(s, u)
    ensures !p.CancelRecordingEntry? ==> Waitable(p.request) && p.parent in s.book.tuners
    ensures p.CancelLiveEntry? ==> GrantRoom(s.book, p.request, p.parent)
  {
    assert EntryOk(s.book.tuners.Keys, p);
  }

  // The book after a timeout or an answer, entry by entry.
  lemma DueBook(s: State, online: set<ClientId>, u: Uuid)
    ensures var p := FindPending(s.pending, u);
      && PendingDue(s, online, u).book == (
           if p.None? || p.value.CancelRecordingEntry? then s.book
           else if p.value.ConflictEntry? then ConflictTimeout(s, online, p.value).0.book
           else Grant(s, p.value.request, p.value.parent).0.book)
      && CancelLiveReply(s, u).book == (
           if p.None? || !p.value.CancelLiveEntry? then s.book else Grant(s, p.value.request, p.value.parent).0.book)
  {
    hide FindPending, ConflictTimeout, Grant;
  }

  // ---------------------------------------------------------------- who can lose a reservation

  // The events that may release a token: its own release, its expiry once the window is over, its
  // renewal, the recorder's answer to its cancellation, and the end of its owner's session.
  ghost predicate Takes(sys: System, e: Event, t: Token) {
    match e
    case ReleaseRequest(token) => token == t
    case ExpireTimer(token) => token == t && (IsHeld(sys.state.book, t) ==> Lookup(sys.state.book, t).End() <= sys.state.book.now)
    case ReserveRequest(q, _) => q.reservation.activity == Record && q.reservation.token == t
    case CancelRecordingAnswer(_, _, token) => token == t
    case EmptyMessage(client, _) => t in sys.state.book.attrs && sys.state.book.attrs[t] == client
    case Disconnected(conn) => t in sys.state.book.attrs && sys.state.book.attrs[t] in ClientsOn(sys.clients, conn)
    case _ => false
  }

  lemma StillHeldApart(b: Book, b': Book, x: Token, t: Token)
    requires SameHoldingsApartFrom(b, b', x) && x != t && IsHeld(b, t)
    ensures IsHeld(b', t)
  {
    var id := HomeOf(b, t);
    assert t in b.tuners[id] - {x};
    assert Holds(b', id, t);
  }

  lemma StillHeldGrown(b: Book, b': Book, t: Token)
    requires Grown(b, b') && IsHeld(b, t)
    ensures IsHeld(b', t)
  {
    assert Holds(b', HomeOf(b, t), t);
  }

  lemma StillHeldDropSet(b: Book, ts: set<Token>, t: Token)
    requires t !in ts && IsHeld(b, t)
    ensures IsHeld(DropSet(b, ts), t)
  {
    assert Holds(DropSet(b, ts), HomeOf(b, t), t);
  }

  lemma StillHeldDrop(b: Book, x: Token, t: Token)
    requires x != t && IsHeld(b, t)
    ensures IsHeld(Drop(b, x), t)
  {
    assert Holds(Drop(b, x), HomeOf(b, t), t);
  }

  lemma StillHeldStarted(b: Book, x: Token, t: Token)
    requires IsHeld(b, t)
    ensures IsHeld(Start(b, x), t)
  {
    if IsHeld(b, x) && Lookup(b, x).phase == IDLE {
      StartTuners(b, x);
      StartedWindows(b.tuners[HomeOf(b, x)], x);
      hide Start, Synced, Activated;
      assert Holds(Start(b, x), HomeOf(b, t), t);
    }
  }

  lemma StillHeldLive(s: State, q: ReserveTuner, client: ClientId, t: Token)
    requires Inv(s) && ReserveAdmissible(s, q) && q.reservation.activity == Live && IsHeld(s.book, t)
    ensures IsHeld(Reserve(s, q, client).book, t)
  {
    hide *;
    InvParts(s);
    LiveAdmissibleNow(s, q);
    var served := ReserveLive(s.book, q, client, Minted(s));
    LiveRequestEffect(s.book, q, client, Minted(s));
    LiveBook(s, q, client);
    if served.1.LiveGranted? {
      var r := served.1.reservation;
      GrantEffectHoldings(s.book, served.0, r, client);
      GrantedIsHeld(s.book, served.0, r, client);
      if r.token != t { StillHeldApart(s.book, served.0, r.token, t); }
    }
  }

  lemma GrantedIsHeld(b: Book, b': Book, r: Reservation, client: ClientId)
    requires GrantEffect(b, b', r, client)
    ensures IsHeld(b', r.token)
  {
  }

  lemma LiveBook(s: State, q: ReserveTuner, client: ClientId)
    requires q.reservation.activity == Live
    ensures Reserve(s, q, client).book == ReserveLive(s.book, q, client, Minted(s)).0
  {
    hide ReserveLive;
  }

  lemma RecordBook(s: State, q: ReserveTuner, client: ClientId)
    requires q.reservation.activity == Record
    ensures Reserve(s, q, client).book == ReserveRecord(s.book, Temps(s.pending), q, client, Minted(s)).0
  {
    hide ReserveRecord;
  }

  lemma StillHeldRecord(s: State, q: ReserveTuner, client: ClientId, t: Token)
    requires Inv(s) && ReserveAdmissible(s, q) && q.reservation.activity == Record && IsHeld(s.book, t)
    requires q.reservation.token != t
    ensures IsHeld(Reserve(s, q, client).book, t)
  {
    hide *;
    RecordBook(s, q, client);
    if q.reservation.token != "" {
      StillHeldRenewal(s, q, client, t);
    } else {
      StillHeldFresh(s, q, client, t);
    }
  }

  lemma StillHeldRenewal(s: State, q: ReserveTuner, client: ClientId, t: Token)
    requires Inv(s) && ReserveAdmissible(s, q) && q.reservation.activity == Record && IsHeld(s.book, t)
    requires q.reservation.token != "" && q.reservation.token != t
    ensures IsHeld(ReserveRecord(s.book, Temps(s.pending), q, client, Minted(s)).0, t)
  {
    hide *;
    InvParts(s);
    ReserveRecordParts(s, q);
    var r, b := q.reservation, s.book;
    RenewEffect(b, Temps(s.pending), q, client, Minted(s));
    if FirstRenewable(b, r) == Some(r.token) {
      StillHeldDrop(b, r.token, t);
      RenewedHoldings(b, r, client);
      StillHeldApart(b, Put(Drop(b, r.token), r, HomeOf(b, r.token), client), r.token, t);
    }
  }

  lemma StillHeldFresh(s: State, q: ReserveTuner, client: ClientId, t: Token)
    requires Inv(s) && ReserveAdmissible(s, q) && q.reservation.activity == Record && IsHeld(s.book, t)
    requires q.reservation.token == ""
    ensures IsHeld(ReserveRecord(s.book, Temps(s.pending), q, client, Minted(s)).0, t)
  {
    hide *;
    InvParts(s);
    SoundParts(s.book);
    ReserveRecordParts(s, q);
    MintedUnused(s);
    if RecordPlacement.SearchRecord(s.book, q.reservation).Place? {
      RecordPlacedEffect(s.book, Temps(s.pending), q, client, Minted(s));
      var (b', reply) := ReserveRecord(s.book, Temps(s.pending), q, client, Minted(s));
      if reply.RecordGranted? {
        var r := q.reservation.(token := Minted(s));
        GrantEffectHoldings(s.book, b', r, client);
        StillHeldApart(s.book, b', r.token, t);
      }
    } else {
      RecordUnplacedEffect(s.book, Temps(s.pending), q, client, Minted(s));
    }
  }

  lemma StillHeldUpdate(s: State, online: set<ClientId>, t: Token)
    requires Inv(s) && IsHeld(s.book, t)
    ensures IsHeld(Reevaluate(s, online).book, t)
  {
    hide *;
    ResolvingOnlyAdds(s, online, "");
    StillHeldGrown(s.book, Reevaluate(s, online).book, t);
  }

  lemma StillHeldSettling(s: State, online: set<ClientId>, u: Uuid, t: Token)
    requires Inv(s) && IsHeld(s.book, t) && RoomToSettle(s, u)
    ensures IsHeld(PendingDue(s, online, u).book, t) && IsHeld(CancelLiveReply(s, u).book, t)
  {
    hide *;
    SettlingOnlyAdds(s, online, u);
    StillHeldGrown(s.book, PendingDue(s, online, u).book, t);
    StillHeldGrown(s.book, CancelLiveReply(s, u).book, t);
  }

  lemma StillHeldPending(s: State, online: set<ClientId>, u: Uuid, t: Token)
    requires Inv(s) && IsHeld(s.book, t) && u in s.pendingTimers
    requires s.pendingTimers[u].future <= s.book.now ==> RoomToSettle(s, u)
    ensures IsHeld(PendingClock(s, online, u).book, t)
  {
    hide *;
    var s' := PendingMarked(s, u);
    PendingMarkedInv(s, u);
    PendingClockIs(s, online, u);
    if s.pendingTimers[u].future <= s.book.now {
      StillHeldSettling(s', online, u, t);
    }
  }

  lemma PendingClockIs(s: State, online: set<ClientId>, u: Uuid)
    requires u in s.pendingTimers
    ensures var s' := PendingMarked(s, u);
      && s'.book == s.book && s'.pending == s.pending && (RoomToSettle(s, u) ==> RoomToSettle(s', u))
      && (PendingClock(s, online, u) == s' ||
          (s.pendingTimers[u].future <= s.book.now && PendingClock(s, online, u) == PendingDue(s', online, u)))
  {
    hide PendingDue, GrantRoom;
  }

  lemma StillHeldStartClock(s: State, u: Token, t: Token)
    requires Inv(s) && u in s.book.startTimers && s.book.startTimers[u].armed && IsHeld(s.book, t)
    ensures IsHeld(StartClock(s.book, u), t)
  {
    hide *;
    InvParts(s);
    StartClockIs(s.book, u);
    MarkedSame(s.book, u);
    ClocksHold(s.book, StartMarked(s.book, u));
    StillHeldStarted(StartMarked(s.book, u), u, t);
  }

  lemma StillHeldExpireClock(s: State, u: Token, t: Token)
    requires Inv(s) && u in s.book.expireTimers && s.book.expireTimers[u].armed && IsHeld(s.book, t)
    requires u != t || Lookup(s.book, t).End() > s.book.now
    ensures IsHeld(ExpireClock(s.book, u), t)
  {
    hide *;
    InvParts(s);
    ExpireClockIs(s.book, u);
    MarkedSame(s.book, u);
    ClocksHold(s.book, ExpireMarked(s.book, u));
    if u != t { StillHeldReleased(ExpireMarked(s.book, u), u, t); }
  }

  lemma CancelKeepsBook(s: State, online: set<ClientId>, client: ClientId, uuid: Uuid, token: Token)
    ensures CancelRecording(s, online, client, uuid, token).book == s.book
  {
    hide FindPending, IsHeld, Lookup;
  }

  lemma StillHeldAnswer(s: State, online: set<ClientId>, client: ClientId, uuid: Uuid, token: Token, t: Token)
    requires IsHeld(s.book, t) && token != t
    ensures IsHeld(CancelRecordingReply(s, online, client, uuid, token).book, t)
  {
    StillHeldDrop(s.book, token, t);
    hide FindPending, IsHeld, Lookup, Drop, RemoveFirst;
  }

  lemma StillHeldTick(s: State, now: nat, t: Token)
    requires Inv(s) && IsHeld(s.book, t)
    ensures IsHeld(s.book.(now := now), t)
  {
    assert Holds(s.book.(now := now), HomeOf(s.book, t), t);
  }

  lemma StillHeldRequest(s: State, q: ReserveTuner, client: ClientId, t: Token)
    requires Inv(s) && ReserveAdmissible(s, q) && IsHeld(s.book, t)
    requires !(q.reservation.activity == Record && q.reservation.token == t)
    ensures IsHeld(Reserve(s, q, client).book, t)
  {
    hide *;
    if q.reservation.activity == Live {
      StillHeldLive(s, q, client, t);
    } else if q.reservation.activity == Record {
      StillHeldRecord(s, q, client, t);
    } else {
      OtherActivity(s, q, client);
    }
  }

  lemma OtherActivity(s: State, q: ReserveTuner, client: ClientId)
    requires q.reservation.activity != Live && q.reservation.activity != Record
    ensures Reserve(s, q, client).book == s.book
  {
  }

  lemma StillHeldForget(sys: System, clients: set<ClientId>, t: Token)
    requires IsHeld(sys.state.book, t) && (t in sys.state.book.attrs ==> sys.state.book.attrs[t] !in clients)
    ensures IsHeld(Forget(sys, clients).state.book, t)
  {
    StillHeldDropSet(sys.state.book, OwnedBy(sys.state.book, clients), t);
    hide IsHeld, DropSet;
  }

  lemma StillHeldSession(sys: System, client: ClientId, conn: Conn, t: Token)
    requires IsHeld(sys.state.book, t) && (t in sys.state.book.attrs ==> sys.state.book.attrs[t] != client)
    ensures IsHeld(EndSession(sys, client, conn).state.book, t)
  {
    StillHeldForget(sys.(clients := Known(sys.clients, client, conn)), {client}, t);
    hide IsHeld, Forget, ClientsOn;
  }

  // A reservation that an event does not take is still there afterwards.
  lemma NothingElseIsLost(sys: System, e: Event, t: Token)
    requires Inv(sys.state) && Admissible(sys, e) && IsHeld(sys.state.book, t) && !Takes(sys, e, t)
    ensures IsHeld(Step(sys, e).state.book, t)
  {
    var s := sys.state;
    hide Inv, IsHeld, Lookup, ReserveAdmissible, RoomToSettle, StartsInTune, Undrawn, Ids, Reserve,
      Expire, StartClock, ExpireClock, PendingClock, Reevaluate, CancelLiveReply, CancelRecording, CancelRecordingReply,
      EndSession, Forget, ClientsOn, Known, Drop;
    match e
    case Tick(now) => StillHeldTick(s, now, t);
    case ReserveRequest(q, client) => StillHeldRequest(s, q, client, t);
    case ReleaseRequest(token) => StillHeldReleased(s.book, token, t);
    case StartTimer(token) => StillHeldStartClock(s, token, t);
    case ExpireTimer(token) => StillHeldExpireClock(s, token, t);
    case PendingTimer(uuid) => StillHeldPending(s, Online(sys), uuid, t);
    case ReservationUpdated => StillHeldUpdate(s, Online(sys), t);
    case CancelLiveAnswer(uuid) => StillHeldSettling(s, Online(sys), uuid, t);
    case CancelRecordingRequest(client, uuid, token) => CancelKeepsBook(s, Online(sys), client, uuid, token);
    case CancelRecordingAnswer(client, uuid, token) => StillHeldAnswer(s, Online(sys), client, uuid, token, t);
    case Heard(client, conn) =>
    case EmptyMessage(client, conn) => StillHeldSession(sys, client, conn, t);
    case Disconnected(conn) => StillHeldForget(sys, ClientsOn(sys.clients, conn), t);
  }

  lemma StillHeldReleased(b: Book, x: Token, t: Token)
    requires x != t && IsHeld(b, t)
    ensures IsHeld(Expire(b, x), t)
  {
    StillHeldDrop(b, x, t);
  }

  // Over a whole run: a reservation held at some point and gone at the end was taken in between.
  lemma {:induction false} LostOnlyIfTaken(sys: System, events: seq<Event>, k: nat, t: Token)
    requires Initial(sys) && AdmissibleRun(sys, events) && k <= |events|
    requires IsHeld(Run(sys, events[..k]).state.book, t)
    ensures IsHeld(Run(sys, events).state.book, t) || exists i :: k <= i < |events| && Takes(Run(sys, events[..i]), events[i], t)
    decreases |events|
  {
    hide *;
    if k == |events| {
      assert events[..k] == events;
    } else {
      var n := |events| - 1;
      var before := events[..n];
      assert before[..k] == events[..k];
      LastEvent(sys, events);
      RunInv(sys, before);
      LostOnlyIfTaken(sys, before, k, t);
      if IsHeld(Run(sys, before).state.book, t) {
        if !Takes(Run(sys, before), events[n], t) {
          NothingElseIsLost(Run(sys, before), events[n], t);
        }
      } else {
        var i :| k <= i < |before| && Takes(Run(sys, before[..i]), before[i], t);
        assert before[..i] == events[..i] && before[i] == events[i];
      }
    }
  }
}
