// A reserve request keeps the invariant, whatever its answer.
module ReserveSteps {
  import opened Domain
  import opened Registry
  import opened LivePlacement
  import opened Invariants
  import opened LiveRequests
  import opened RecordPlacement
  import opened RecordRequests
  import opened Protocol
  import opened ProtocolInvariants
  import opened ProtocolSteps

  // A well-formed reserve request: a new request id, every granted Live started, a named locator,
  // and for a Live the message device owning the reservation and a token asked back being nobody's.
  // If it is about to be put on a tuner, that tuner takes it whole or not at all.
  ghost predicate ReserveAdmissible(s: State, q: ReserveTuner) {
    && q.uuid !in s.seen
    && LivesStarted(s.book)
    && q.reservation.phase == IDLE
    && q.reservation.locator != ""
    && (q.reservation.activity == Live ==>
          && q.device == q.reservation.device
          && (Resurrects(q, OwnLive(s.book, q.device)) ==>
                !IsHeld(s.book, q.reservation.token) && !Undrawn(s, q.reservation.token))
          && LiveRoom(s.book, q))
    && (q.reservation.activity == Record ==> RecordRoom(s.book, q))
  }

  lemma HeldApart(s: Book, s': Book, t: Token, x: Token)
    requires SameHoldingsApartFrom(s, s', t) && x != t && IsHeld(s', x)
    ensures IsHeld(s, x)
  {
    var i :| Holds(s', i, x);
    assert x in s'.tuners[i] - {t};
    assert Holds(s, i, x);
  }

  // Granting a token that can no longer be drawn keeps the supply new.
  lemma GrantedSupply(s: State, s': State, t: Token)
    requires Supply(s) && SameHoldingsApartFrom(s.book, s'.book, t)
    requires s'.uuid == s.uuid && s'.issued >= s.issued && s'.pending == s.pending
    requires forall n: nat :: n >= s'.issued && s.uuid(n) == t ==> IsHeld(s.book, t)
    ensures Supply(s')
  {
    forall n: nat | n >= s'.issued && IsHeld(s'.book, s.uuid(n)) ensures IsHeld(s.book, s.uuid(n)) {
      if s.uuid(n) != t { HeldApart(s.book, s'.book, t, s.uuid(n)); }
    }
  }

  lemma OnceNew(total: multiset<Uuid>, seen: set<Uuid>, cancelled: set<Uuid>, u: Uuid)
    requires Once(total, seen, cancelled) && cancelled <= seen && u !in seen
    ensures Once(total, seen + {u}, cancelled) && Once(total + multiset{u}, seen + {u}, cancelled)
  {
    assert u !in total;
  }

  // The state after a grant to the request, given what the grant did to the book.
  ghost function Served(s: State, u: Uuid, book: Book, issued: nat): State {
    s.(seen := s.seen + {u}, book := book, issued := issued, granted := s.granted + multiset{u})
  }

  lemma ServedInv(s: State, u: Uuid, book: Book, issued: nat, t: Token)
    requires Inv(s) && u !in s.seen && Sound(book) && issued >= s.issued
    requires SameHoldingsApartFrom(s.book, book, t)
    requires forall n: nat :: n >= issued && s.uuid(n) == t ==> IsHeld(s.book, t)
    ensures Inv(Served(s, u, book, issued))
  {
    hide *;
    InvParts(s);
    ServedIs(s, u, book, issued, t);
    var s' := Served(s, u, book, issued);
    GrantedSupply(s, s', t);
    ListedSame(s, s');
    OnceNew(Claims(s.pending) + s.granted, s.seen, s.cancelled, u);
    assert Claims(s.pending) + s.granted + multiset{u} == Claims(s'.pending) + s'.granted;
    InvFrom(s');
  }

  lemma ServedIs(s: State, u: Uuid, book: Book, issued: nat, t: Token)
    requires SameHoldingsApartFrom(s.book, book, t)
    ensures var s' := Served(s, u, book, issued);
      && s'.book == book && s'.book.tuners.Keys == s.book.tuners.Keys
      && s'.uuid == s.uuid && s'.issued == issued
      && s'.pending == s.pending && s'.pendingTimers == s.pendingTimers
      && s'.seen == s.seen + {u} && s'.cancelled == s.cancelled && s'.granted == s.granted + multiset{u}
  {
  }

  lemma SeenInv(s: State, u: Uuid)
    requires Inv(s) && u !in s.seen
    ensures Inv(s.(seen := s.seen + {u}))
  {
    InvParts(s);
    hide Inv, Sound, Listed, Once, Claims;
    var s' := s.(seen := s.seen + {u});
    OnceNew(Claims(s.pending) + s.granted, s.seen, s.cancelled, u);
    ListedSame(s, s');
    assert Supply(s');
    InvFrom(s');
  }

  // ---------------------------------------------------------------- Live

  lemma LiveTokenDrawn(s: State, q: ReserveTuner, t: Token)
    requires Supply(s) && ReserveAdmissible(s, q) && q.reservation.activity == Live
    requires t == LiveToken(q, OwnLive(s.book, q.device), Minted(s))
    ensures var issued := if t == Minted(s) then s.issued + 1 else s.issued;
      forall n: nat :: n >= issued && s.uuid(n) == t ==> IsHeld(s.book, t)
  {
  }

  lemma ReserveLiveIs(s: State, q: ReserveTuner, client: ClientId)
    requires q.reservation.activity == Live
    ensures var (book, reply) := ReserveLive(s.book, q, client, Minted(s));
      Reserve(s, q, client) ==
        if reply.LiveGranted? then
          Served(s, q.uuid, book, if reply.reservation.token == Minted(s) then s.issued + 1 else s.issued)
        else s.(seen := s.seen + {q.uuid}, book := book)
  {
    hide ReserveLive;
  }

  lemma LiveAdmissibleNow(s: State, q: ReserveTuner)
    requires Supply(s) && ReserveAdmissible(s, q) && q.reservation.activity == Live
    ensures LivesStarted(s.book) && LiveAdmissible(s.book, q, OwnLive(s.book, q.device), Minted(s)) && LiveRoom(s.book, q)
  {
    hide OwnLive, LivesStarted, IsHeld, LiveRoom;
  }

  lemma ReserveLiveInv(s: State, q: ReserveTuner, client: ClientId)
    requires Inv(s) && ReserveAdmissible(s, q) && q.reservation.activity == Live
    ensures Inv(Reserve(s, q, client))
  {
    assert q.uuid !in s.seen;
    hide *;
    InvParts(s);
    LiveAdmissibleNow(s, q);
    ReserveLiveIs(s, q, client);
    LiveRequestEffect(s.book, q, client, Minted(s));
    var (book, reply) := ReserveLive(s.book, q, client, Minted(s));
    if reply.LiveGranted? {
      var t := reply.reservation.token;
      GrantEffectHoldings(s.book, book, reply.reservation, client);
      LiveTokenDrawn(s, q, t);
      ServedInv(s, q.uuid, book, if t == Minted(s) then s.issued + 1 else s.issued, t);
    } else {
      SeenInv(s, q.uuid);
    }
  }

  lemma GrantEffectHoldings(s: Book, s': Book, r: Reservation, client: ClientId)
    requires GrantEffect(s, s', r, client)
    ensures SameHoldingsApartFrom(s, s', r.token)
  {
  }

  // ---------------------------------------------------------------- Record

  ghost function ConflictOf(s: State, q: ReserveTuner, client: ClientId, live: Reservation, parent: TunerId): Pending {
    ConflictEntry(Minted(s), client, live, [q.reservation.(token := Minted(s))], q, parent)
  }

  lemma ReserveRecordIs(s: State, q: ReserveTuner, client: ClientId)
    requires q.reservation.activity == Record
    ensures var (book, reply) := ReserveRecord(s.book, Temps(s.pending), q, client, Minted(s));
      Reserve(s, q, client) ==
        match reply
        case RecordGranted(_) => Served(s, q.uuid, book, s.issued + 1)
        case RecordRenewed(_) => Served(s, q.uuid, book, s.issued)
        case RecordInConflict(live, parent) =>
          AddPending(s.(seen := s.seen + {q.uuid}, book := book, issued := s.issued + 1),
                     ConflictOf(s, q, client, live, parent), CONFLICT_RESOLUTION_TIMEOUT_MS)
        case _ => s.(seen := s.seen + {q.uuid}, book := book)
  {
    hide ReserveRecord;
  }

  // A conflict is listed with an id of its own, for a Record that can wait, on a known tuner.
  lemma ConflictInv(s: State, q: ReserveTuner, client: ClientId, live: Reservation, parent: TunerId)
    requires Inv(s) && q.uuid !in s.seen && Waitable(q) && live.activity == Live && parent in s.book.tuners
    requires IsHeld(s.book, live.token)
    ensures Inv(AddPending(s.(seen := s.seen + {q.uuid}, issued := s.issued + 1),
                           ConflictOf(s, q, client, live, parent), CONFLICT_RESOLUTION_TIMEOUT_MS))
  {
    hide *;
    SeenInv(s, q.uuid);
    var s0 := s.(seen := s.seen + {q.uuid});
    var s1 := s.(seen := s.seen + {q.uuid}, issued := s.issued + 1);
    var p := ConflictOf(s, q, client, live, parent);
    var s' := AddPending(s1, p, CONFLICT_RESOLUTION_TIMEOUT_MS);
    ConflictIs(s, q, client, live, parent);
    InvParts(s);
    InvParts(s0);
    MintedUnused(s0);
    LaterListed(s0);
    AppendSupply(s0, p, CONFLICT_RESOLUTION_TIMEOUT_MS);
    AppendListed(s1, p, CONFLICT_RESOLUTION_TIMEOUT_MS);
    ClaimsAppend(s.pending, [p]);
    OnceNew(Claims(s.pending) + s.granted, s.seen, s.cancelled, q.uuid);
    assert Claims(s.pending) + s.granted + multiset{q.uuid} == Claims(s'.pending) + s'.granted;
    InvFrom(s');
  }

  lemma ConflictIs(s: State, q: ReserveTuner, client: ClientId, live: Reservation, parent: TunerId)
    requires Waitable(q) && live.activity == Live && parent in s.book.tuners
    ensures var s1 := s.(seen := s.seen + {q.uuid}, issued := s.issued + 1);
      var p := ConflictOf(s, q, client, live, parent);
      var s' := AddPending(s1, p, CONFLICT_RESOLUTION_TIMEOUT_MS);
      && p.uuid == Minted(s) == Minted(s.(seen := s.seen + {q.uuid})) && p.ConflictEntry? && p.live == live
      && EntryOk(s.book.tuners.Keys, p)
      && Claims([p]) == multiset{q.uuid}
      && s'.pending == s.pending + [p] && s'.book == s.book && s'.granted == s.granted
      && s'.seen == s.seen + {q.uuid} && s'.cancelled == s.cancelled
  {
  }

  lemma NeverDrawnAgain(s: State, n: nat)
    requires Supply(s) && n >= s.issued + 1
    ensures s.uuid(n) != Minted(s)
  {
  }

  lemma FreshRecordInv(s: State, q: ReserveTuner, client: ClientId)
    requires Inv(s) && ReserveAdmissible(s, q) && Waitable(q)
    ensures Inv(Reserve(s, q, client))
  {
    ReserveRecordParts(s, q);
    hide *;
    InvParts(s);
    ReserveRecordIs(s, q, client);
    MintedUnused(s);
    var (book, reply) := ReserveRecord(s.book, Temps(s.pending), q, client, Minted(s));
    if SearchRecord(s.book, q.reservation).Place? {
      RecordPlacedEffect(s.book, Temps(s.pending), q, client, Minted(s));
      if reply.RecordGranted? {
        GrantEffectHoldings(s.book, book, reply.reservation, client);
        forall n: nat | n >= s.issued + 1 ensures s.uuid(n) != Minted(s) { NeverDrawnAgain(s, n); }
        ServedInv(s, q.uuid, book, s.issued + 1, Minted(s));
      } else {
        SeenInv(s, q.uuid);
      }
    } else {
      SoundParts(s.book);
      RecordUnplacedEffect(s.book, Temps(s.pending), q, client, Minted(s));
      if reply.RecordInConflict? {
        HeldLiveParts(s.book, reply.parent, reply.live);
        ConflictInv(s, q, client, reply.live, reply.parent);
      } else {
        SeenInv(s, q.uuid);
      }
    }
  }

  lemma HeldLiveParts(s: Book, id: TunerId, live: Reservation)
    requires HoldsLive(s, id, live.token) && s.tuners[id][live.token] == live
    ensures id in s.tuners && live.activity == Live && IsHeld(s, live.token)
  {
  }

  lemma ReserveRecordParts(s: State, q: ReserveTuner)
    requires Inv(s) && ReserveAdmissible(s, q) && q.reservation.activity == Record
    ensures q.uuid !in s.seen && LivesStarted(s.book) && q.reservation.phase == IDLE && q.reservation.locator != ""
    ensures RecordAdmissible(s.book, q, Minted(s)) && RecordRoom(s.book, q)
  {
    hide RecordRoom;
    InvParts(s);
    MintedUnused(s);
  }

  lemma RenewalInv(s: State, q: ReserveTuner, client: ClientId)
    requires Inv(s) && ReserveAdmissible(s, q) && q.reservation.activity == Record && q.reservation.token != ""
    ensures Inv(Reserve(s, q, client))
  {
    hide *;
    ReserveRecordParts(s, q);
    var r := q.reservation;
    InvParts(s);
    ReserveRecordIs(s, q, client);
    RenewEffect(s.book, Temps(s.pending), q, client, Minted(s));
    var (book, reply) := ReserveRecord(s.book, Temps(s.pending), q, client, Minted(s));
    if reply.RecordRenewed? {
      RenewedHoldings(s.book, r, client);
      ServedInv(s, q.uuid, book, s.issued, r.token);
    } else if reply.RecordLost? {
      SeenInv(s, q.uuid);
      DropInv(s.(seen := s.seen + {q.uuid}), r.token);
    } else {
      SeenInv(s, q.uuid);
    }
  }

  lemma RenewedHoldings(s: Book, r: Reservation, client: ClientId)
    requires IsHeld(s, r.token)
    ensures HomeOf(s, r.token) in Drop(s, r.token).tuners
    ensures SameHoldingsApartFrom(s, Put(Drop(s, r.token), r, HomeOf(s, r.token), client), r.token)
  {
    var s1 := Drop(s, r.token);
    PutHoldings(s1, r, HomeOf(s, r.token), client);
    assert forall id :: id in s.tuners ==> s1.tuners[id] - {r.token} == s.tuners[id] - {r.token};
  }

  // A well-formed reserve request keeps the invariant.
  lemma ReserveInv(s: State, q: ReserveTuner, client: ClientId)
    requires Inv(s) && ReserveAdmissible(s, q)
    ensures Inv(Reserve(s, q, client))
  {
    assert q.uuid !in s.seen;
    assert q.reservation.activity == Record && q.reservation.token == "" ==> Waitable(q);
    assert q.reservation.activity == NoActivity || q.reservation.activity == EAS ==>
      Reserve(s, q, client) == s.(seen := s.seen + {q.uuid});
    hide *;
    match q.reservation.activity
    case Live => ReserveLiveInv(s, q, client);
    case Record =>
      if q.reservation.token == "" {
        FreshRecordInv(s, q, client);
      } else {
        RenewalInv(s, q, client);
      }
    case _ => SeenInv(s, q.uuid);
  }
}
