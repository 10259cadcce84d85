// A reserve request on the whole state, and what a session's messages do to the client map.
module RequestEffects {
  import opened Domain
  import opened Registry
  import opened Invariants
  import opened LivePreference
  import opened LiveRequests
  import opened LiveAnswers
  import RecordPlacement
  import opened RecordRequests
  import opened RecordPreference
  import opened RecordAnswers
  import opened Protocol
  import opened ProtocolInvariants
  import opened ReserveSteps
  import opened Disconnection
  import opened Runs
  import Timers

  // ---------------------------------------------------------------- Record

  // The conflict a request opens: with an id of its own, for the client and the request, about one Live and its
  // tuner, with 53.5 seconds to resolve it.
  ghost predicate OpensConflict(s: State, q: ReserveTuner, client: ClientId, s': State) {
    exists t, id :: Contends(s.book, Temps(s.pending), q.reservation, t) && Holds(s.book, id, t) &&
      var u := s.uuid(s.issued);
      var p := ConflictEntry(u, client, s.book.tuners[id][t], [q.reservation.(token := u)], q, id);
      s' == s.(seen := s.seen + {q.uuid}, issued := s.issued + 1, pending := s.pending + [p],
               pendingTimers := s.pendingTimers[u := Timers.Clockwork(Some(u), s.book.now + 53500, true)])
  }

  // A grant to the request: the new book, one more id drawn, one more grant.
  ghost predicate GrantsRecord(s: State, q: ReserveTuner, client: ClientId, s': State) {
    var t := s.uuid(s.issued);
    && s' == s.(seen := s.seen + {q.uuid}, book := s'.book, issued := s.issued + 1, granted := s.granted + multiset{q.uuid})
    && GrantEffect(s.book, s'.book, q.reservation.(token := t), client)
    && SomeChoice(s.book, q.reservation, HomeOf(s'.book, t))
  }

  // What a fresh Record request does to the state: it is granted where it belongs, or waits in a conflict, or
  // leaves nothing but its id.
  lemma RecordRequestExact(s: State, q: ReserveTuner, client: ClientId)
    requires Inv(s) && ReserveAdmissible(s, q) && Waitable(q)
    ensures var s' := Reserve(s, q, client);
      if exists id :: SomeChoice(s.book, q.reservation, id) && !Refuses(s.book.tuners[id], q.reservation)
      then GrantsRecord(s, q, client, s')
      else if NoneAtAll(s.book, q.reservation) && exists t :: Contends(s.book, Temps(s.pending), q.reservation, t)
      then OpensConflict(s, q, client, s')
      else s' == s.(seen := s.seen + {q.uuid})
  {
    WaitableParts(q);
    hide *;
    var s' := Reserve(s, q, client);
    var (book, reply) := ReserveRecord(s.book, Temps(s.pending), q, client, Minted(s));
    InvParts(s);
    MintedUnused(s);
    ReserveRecordParts(s, q);
    ReserveRecordIs(s, q, client);
    RecordAnswerIs(s.book, Temps(s.pending), q, client, Minted(s));
    if reply.RecordGranted? {
      GrantOf(s, q, client);
      GrantsFrom(s, q, client, book);
    } else if reply.RecordInConflict? {
      OpensFrom(s, q, client, book, reply.live, reply.parent);
    } else {
      assert s.(seen := s.seen + {q.uuid}, book := s.book) == s.(seen := s.seen + {q.uuid});
    }
  }

  lemma WaitableParts(q: ReserveTuner)
    requires Waitable(q)
    ensures q.reservation.activity == Record && q.reservation.token == ""
  {
  }

  lemma GrantOf(s: State, q: ReserveTuner, client: ClientId)
    requires Inv(s) && ReserveAdmissible(s, q) && Waitable(q)
    requires ReserveRecord(s.book, Temps(s.pending), q, client, Minted(s)).1.RecordGranted?
    ensures GrantEffect(s.book, ReserveRecord(s.book, Temps(s.pending), q, client, Minted(s)).0, q.reservation.(token := Minted(s)), client)
  {
    WaitableParts(q);
    hide *;
    InvParts(s);
    SoundParts(s.book);
    ReserveRecordParts(s, q);
    if RecordPlacement.SearchRecord(s.book, q.reservation).Place? {
      RecordPlacedEffect(s.book, Temps(s.pending), q, client, Minted(s));
    } else {
      RecordUnplacedEffect(s.book, Temps(s.pending), q, client, Minted(s));
    }
  }

  lemma GrantsFrom(s: State, q: ReserveTuner, client: ClientId, book: Book)
    requires GrantEffect(s.book, book, q.reservation.(token := Minted(s)), client)
    requires IsHeld(book, Minted(s)) && SomeChoice(s.book, q.reservation, HomeOf(book, Minted(s)))
    ensures GrantsRecord(s, q, client, Served(s, q.uuid, book, s.issued + 1))
  {
    hide GrantEffect, SomeChoice, HomeOf;
  }

  lemma OpensFrom(s: State, q: ReserveTuner, client: ClientId, book: Book, live: Reservation, parent: TunerId)
    requires Listed(s) && Minted(s) !in Ids(s.pending) && book == s.book
    requires Contends(s.book, Temps(s.pending), q.reservation, live.token)
    requires Holds(s.book, parent, live.token) && s.book.tuners[parent][live.token] == live
    ensures OpensConflict(s, q, client,
      AddPending(s.(seen := s.seen + {q.uuid}, book := book, issued := s.issued + 1), ConflictOf(s, q, client, live, parent), CONFLICT_RESOLUTION_TIMEOUT_MS))
  {
    hide Contends, Ids, Temps;
  }

  // ---------------------------------------------------------------- Live

  // What a Live request does to the state: granted, it changes the book for one token; otherwise only its id is
  // remembered.
  lemma LiveRequestExact(s: State, q: ReserveTuner, client: ClientId)
    requires Inv(s) && ReserveAdmissible(s, q) && q.reservation.activity == Live
    ensures var s', own := Reserve(s, q, client), OwnLive(s.book, q.device);
      if !WrongToken(q, own) && exists id :: Picked(s.book, q.device, q.reservation.locator, own, id)
      then exists r :: GrantsLive(s, q, client, own, r, s')
      else s' == s.(seen := s.seen + {q.uuid})
  {
    hide *;
    var own := OwnLive(s.book, q.device);
    var (book, reply) := ReserveLive(s.book, q, client, Minted(s));
    InvParts(s);
    LiveAdmissibleNow(s, q);
    ReserveLiveIs(s, q, client);
    LiveAnswerIs(s.book, q, client, Minted(s));
    LiveRequestEffect(s.book, q, client, Minted(s));
    if reply.LiveGranted? {
      LiveGrantIs(s.book, q, client, Minted(s));
      GrantsLiveFrom(s, q, client, own, book, reply.reservation);
    } else {
      assert s.(seen := s.seen + {q.uuid}, book := s.book) == s.(seen := s.seen + {q.uuid});
    }
  }

  ghost predicate GrantsLive(s: State, q: ReserveTuner, client: ClientId, own: Option<Token>, r: Reservation, s': State) {
    && s' == s.(seen := s.seen + {q.uuid}, book := s'.book, granted := s.granted + multiset{q.uuid},
                issued := if r.token == s.uuid(s.issued) then s.issued + 1 else s.issued)
    && GrantEffect(s.book, s'.book, r, client)
    && var home := HomeOf(s'.book, r.token);
    && Picked(s.book, q.device, q.reservation.locator, own, home)
    && MadeFor(s.book, q, own, s.uuid(s.issued), home, r)
    && Reserves(s.book, q.device, q.reservation.locator, own, home, s'.book.local)
  }

  lemma GrantsLiveFrom(s: State, q: ReserveTuner, client: ClientId, own: Option<Token>, book: Book, r: Reservation)
    requires GrantEffect(s.book, book, r, client) && IsHeld(book, r.token)
    requires var home := HomeOf(book, r.token);
      && Picked(s.book, q.device, q.reservation.locator, own, home)
      && MadeFor(s.book, q, own, Minted(s), home, r)
      && Reserves(s.book, q.device, q.reservation.locator, own, home, book.local)
    ensures GrantsLive(s, q, client, own, r, Served(s, q.uuid, book, if r.token == Minted(s) then s.issued + 1 else s.issued))
  {
    hide GrantEffect, Picked, MadeFor, Reserves, HomeOf;
  }

  // ---------------------------------------------------------------- sessions

  // A client is known by the connection of its first message.
  lemma HeardExact(sys: System, client: ClientId, conn: Conn)
    ensures var sys' := Step(sys, Heard(client, conn));
      && sys'.state == sys.state
      && (forall c :: c in sys'.clients <==> c in sys.clients || c == client)
      && (forall c :: c in sys.clients ==> sys'.clients[c] == sys.clients[c])
      && (client !in sys.clients ==> sys'.clients[client] == conn)
  {
  }

  function Owner(s: Book, t: Token): Option<ClientId> {
    if t in s.attrs then Some(s.attrs[t]) else None
  }

  // A message without payload releases what its client owns and forgets it, if the client belongs to that
  // connection; a client of another connection is left alone.
  lemma EmptyMessageExact(sys: System, client: ClientId, conn: Conn)
    requires Inv(sys.state)
    ensures var sys' := Step(sys, EmptyMessage(client, conn));
      if client in sys.clients && sys.clients[client] != conn then sys' == sys
      else
        && client !in sys'.clients
        && (forall c :: c in sys.clients && c != client ==> c in sys'.clients && sys'.clients[c] == sys.clients[c])
        && (forall t :: IsHeld(sys'.state.book, t) <==> IsHeld(sys.state.book, t) && Owner(sys.state.book, t) != Some(client))
        && (forall t :: t in sys.state.book.attrs && sys.state.book.attrs[t] != client ==> SameFor(sys.state.book, sys'.state.book, t))
        && sys'.state == sys.state.(book := sys'.state.book)
  {
    hide *;
    InvParts(sys.state);
    SoundParts(sys.state.book);
    EmptyMessageIs(sys, client, conn);
    if !(client in sys.clients && sys.clients[client] != conn) {
      var sys1 := sys.(clients := Known(sys.clients, client, conn));
      ReleaseClientsEffect(sys.state.book, {client});
      ForgetIs(sys1, {client});
      ForgetStates(sys1, {client});
      KnownIs(sys.clients, client, conn);
      HeldOwned(sys.state.book, client);
    }
  }

  lemma EmptyMessageIs(sys: System, client: ClientId, conn: Conn)
    ensures Step(sys, EmptyMessage(client, conn)) ==
      if client in sys.clients && sys.clients[client] != conn then sys
      else Forget(sys.(clients := Known(sys.clients, client, conn)), {client})
  {
    assert sys.(clients := sys.clients) == sys;
    hide Forget;
  }

  lemma ForgetStates(sys: System, clients: set<ClientId>)
    ensures Forget(sys, clients).state == sys.state.(book := DropSet(sys.state.book, OwnedBy(sys.state.book, clients)))
  {
  }

  lemma KnownIs(clients: map<ClientId, Conn>, client: ClientId, conn: Conn)
    ensures var left := Known(clients, client, conn) - {client};
      client !in left && forall c :: c in clients && c != client ==> c in left && left[c] == clients[c]
  {
  }

  lemma HeldOwned(s: Book, client: ClientId)
    requires KeysAgree(s)
    ensures forall t :: IsHeld(s, t) ==> t in s.attrs
    ensures forall t :: IsHeld(DropSet(s, OwnedBy(s, {client})), t) <==> IsHeld(s, t) && Owner(s, t) != Some(client)
  {
    var ts := OwnedBy(s, {client});
    DropSetHolds(s, ts);
    hide DropSet;
    forall t ensures IsHeld(DropSet(s, ts), t) <==> IsHeld(s, t) && t !in ts {
      if t !in ts { HeldAlike(s, DropSet(s, ts), t); }
    }
  }
}
