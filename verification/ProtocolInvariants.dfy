// What every event keeps about pending requests: one claim per request, at most one grant.
module ProtocolInvariants {
  import opened Domain
  import opened Ordering
  import opened Tuners
  import opened Registry
  import opened Invariants
  import opened Protocol

  // ---------------------------------------------------------------- the list without what is settled

  function Survivors(pending: seq<Pending>, done: set<Uuid>): (rest: seq<Pending>)
    ensures forall p :: p in rest <==> p in pending && p.uuid !in done
  {
    if pending == [] then []
    else if pending[0].uuid in done then Survivors(pending[1..], done)
    else [pending[0]] + Survivors(pending[1..], done)
  }

  lemma {:induction false} SurvivorsAppend(a: seq<Pending>, b: seq<Pending>, done: set<Uuid>)
    ensures Survivors(a + b, done) == Survivors(a, done) + Survivors(b, done)
  {
    if a == [] {
      assert a + b == b;
    } else {
      assert (a + b)[1..] == a[1..] + b;
      SurvivorsAppend(a[1..], b, done);
    }
  }

  ghost predicate DistinctIds(pending: seq<Pending>) {
    forall i, j :: 0 <= i < j < |pending| ==> pending[i].uuid != pending[j].uuid
  }

  lemma {:induction false} SurvivorsAll(pending: seq<Pending>, done: set<Uuid>)
    requires forall p :: p in pending ==> p.uuid !in done
    ensures Survivors(pending, done) == pending
  {
    if pending != [] {
      assert pending[0] in pending;
      SurvivorsAll(pending[1..], done);
    }
  }

  // With distinct ids, removing the first entry of an id removes exactly the entries of that id.
  lemma {:induction false} RemoveFirstIs(pending: seq<Pending>, u: Uuid)
    requires DistinctIds(pending)
    ensures RemoveFirst(pending, u) == Survivors(pending, {u})
  {
    if pending != [] {
      if pending[0].uuid == u {
        SurvivorsAll(pending[1..], {u});
      } else {
        RemoveFirstIs(pending[1..], u);
      }
    }
  }

  lemma {:induction false} SurvivorsTwice(pending: seq<Pending>, a: set<Uuid>, b: set<Uuid>)
    ensures Survivors(Survivors(pending, a), b) == Survivors(pending, a + b)
  {
    if pending != [] {
      SurvivorsTwice(pending[1..], a, b);
    }
  }

  lemma {:induction false} SurvivorsDistinct(pending: seq<Pending>, done: set<Uuid>)
    requires DistinctIds(pending)
    ensures DistinctIds(Survivors(pending, done))
  {
    if pending != [] {
      SurvivorsDistinct(pending[1..], done);
      var rest := Survivors(pending[1..], done);
      assert forall i :: 0 <= i < |rest| ==> rest[i] in rest;
    }
  }

  // ---------------------------------------------------------------- claims

  // The reserve request an entry stands for.
  function ClaimOf(p: Pending): multiset<Uuid> {
    if p.CancelRecordingEntry? then multiset{} else multiset{p.request.uuid}
  }

  function Claims(pending: seq<Pending>): multiset<Uuid> {
    if pending == [] then multiset{} else ClaimOf(pending[0]) + Claims(pending[1..])
  }

  lemma {:induction false} ClaimsAppend(a: seq<Pending>, b: seq<Pending>)
    ensures Claims(a + b) == Claims(a) + Claims(b)
  {
    if a == [] {
      assert a + b == b;
    } else {
      assert (a + b)[1..] == a[1..] + b;
      ClaimsAppend(a[1..], b);
    }
  }

  // Settling one more entry gives back its claim.
  lemma {:induction false} ClaimsSettled(pending: seq<Pending>, done: set<Uuid>, p: Pending)
    requires DistinctIds(pending) && p in pending && p.uuid !in done
    ensures Claims(Survivors(pending, done)) == Claims(Survivors(pending, done + {p.uuid})) + ClaimOf(p)
  {
    if pending[0] == p {
      SameSurvivors(pending[1..], done, p.uuid);
    } else {
      assert pending == [pending[0]] + pending[1..];
      HeadDiffers(pending, p);
      ClaimsSettled(pending[1..], done, p);
      SettledCons(pending, done, p);
    }
  }

  lemma SettledCons(pending: seq<Pending>, done: set<Uuid>, p: Pending)
    requires pending != [] && pending[0].uuid != p.uuid
    requires Claims(Survivors(pending[1..], done)) == Claims(Survivors(pending[1..], done + {p.uuid})) + ClaimOf(p)
    ensures Claims(Survivors(pending, done)) == Claims(Survivors(pending, done + {p.uuid})) + ClaimOf(p)
  {
    hide *;
    var head, rest := pending[0], pending[1..];
    SurvivorsCons(pending, done);
    SurvivorsCons(pending, done + {p.uuid});
    ClaimsCons(head, Survivors(rest, done));
    ClaimsCons(head, Survivors(rest, done + {p.uuid}));
  }

  lemma SurvivorsCons(pending: seq<Pending>, done: set<Uuid>)
    requires pending != []
    ensures Survivors(pending, done) ==
      if pending[0].uuid in done then Survivors(pending[1..], done) else [pending[0]] + Survivors(pending[1..], done)
  {
  }

  lemma ClaimsCons(head: Pending, rest: seq<Pending>)
    ensures Claims([head] + rest) == ClaimOf(head) + Claims(rest)
  {
    assert ([head] + rest)[1..] == rest;
  }

  lemma HeadDiffers(pending: seq<Pending>, p: Pending)
    requires DistinctIds(pending) && pending != [] && p in pending[1..]
    ensures pending[0].uuid != p.uuid
  {
  }

  lemma {:induction false} SameSurvivors(pending: seq<Pending>, done: set<Uuid>, u: Uuid)
    requires forall p :: p in pending ==> p.uuid != u
    ensures Survivors(pending, done) == Survivors(pending, done + {u})
  {
    if pending != [] {
      assert pending[0] in pending;
      SameSurvivors(pending[1..], done, u);
    }
  }

  // ---------------------------------------------------------------- the invariant

  // The tokens of the Lives that conflicts are about.
  function Viewers(pending: seq<Pending>): set<Token> {
    set i | 0 <= i < |pending| && pending[i].ConflictEntry? :: pending[i].live.token
  }

  // Identifiers drawn from the supply are new: distinct, not empty, and not in use before they are drawn.
  ghost predicate Supply(s: State) {
    && (forall m: nat, n: nat :: s.uuid(m) == s.uuid(n) ==> m == n)
    && (forall n: nat :: s.uuid(n) != "")
    && (forall n: nat :: n >= s.issued ==>
          !IsHeld(s.book, s.uuid(n)) && s.uuid(n) !in Ids(s.pending) && s.uuid(n) !in Viewers(s.pending))
  }

  // A Record request that may wait for a tuner.
  predicate Waitable(q: ReserveTuner) {
    var r := q.reservation;
    r.activity == Record && r.token == "" && r.phase == IDLE && r.locator != ""
  }

  ghost predicate EntryOk(tuners: set<TunerId>, p: Pending) {
    match p
    case CancelLiveEntry(_, request, parent) => Waitable(request) && parent in tuners
    case ConflictEntry(uuid, _, live, conflicts, request, parent) =>
      Waitable(request) && parent in tuners && live.activity == Live && conflicts == [request.reservation.(token := uuid)]
    case CancelRecordingEntry(_, _, _) => true
  }

  ghost predicate Listed(s: State) {
    && DistinctIds(s.pending)
    && s.pendingTimers.Keys == Ids(s.pending)
    && (forall u :: u in s.pendingTimers ==> s.pendingTimers[u].task == Some(u))
    && forall p :: p in s.pending ==> EntryOk(s.book.tuners.Keys, p)
  }

  // Claims and grants together: at most one per request, only for requests that were served
  // and that the user did not cancel.
  ghost predicate Once(total: multiset<Uuid>, seen: set<Uuid>, cancelled: set<Uuid>) {
    forall u :: total[u] <= 1 && (u in total ==> u in seen && u !in cancelled)
  }

  ghost predicate OnceApartFrom(s: State, done: set<Uuid>) {
    Once(Claims(Survivors(s.pending, done)) + s.granted, s.seen, s.cancelled)
  }

  ghost predicate Inv(s: State) {
    && Sound(s.book)
    && Supply(s)
    && Listed(s)
    && Once(Claims(s.pending) + s.granted, s.seen, s.cancelled)
    && s.cancelled <= s.seen
  }

  lemma InvFrom(s: State)
    requires Sound(s.book) && Supply(s) && Listed(s)
    requires Once(Claims(s.pending) + s.granted, s.seen, s.cancelled) && s.cancelled <= s.seen
    ensures Inv(s)
  {
  }

  lemma InvParts(s: State)
    requires Inv(s)
    ensures Sound(s.book) && Supply(s) && Listed(s) && DistinctIds(s.pending)
    ensures Once(Claims(s.pending) + s.granted, s.seen, s.cancelled) && s.cancelled <= s.seen
  {
  }

  // New identifiers stay new while nothing not yet drawn comes into use.
  lemma SupplyKeeps(s: State, s': State)
    requires Supply(s) && s'.uuid == s.uuid && s'.issued >= s.issued
    requires forall n: nat :: n >= s'.issued && IsHeld(s'.book, s.uuid(n)) ==> IsHeld(s.book, s.uuid(n))
    requires forall n: nat :: n >= s'.issued && s.uuid(n) in Ids(s'.pending) ==> s.uuid(n) in Ids(s.pending)
    requires forall n: nat :: n >= s'.issued && s.uuid(n) in Viewers(s'.pending) ==> s.uuid(n) in Viewers(s.pending)
    ensures Supply(s')
  {
  }

  lemma OnceLess(total: multiset<Uuid>, total': multiset<Uuid>, seen: set<Uuid>, cancelled: set<Uuid>)
    requires Once(total, seen, cancelled) && total' <= total
    ensures Once(total', seen, cancelled)
  {
  }

  // ---------------------------------------------------------------- the unconditional grant

  // What a step of an entry may do: add to the list, grant, and nothing else.
  ghost predicate Progress(s: State, s': State, added: seq<Pending>) {
    && s'.uuid == s.uuid
    && s'.issued >= s.issued
    && s'.seen == s.seen && s'.cancelled == s.cancelled
    && s'.pending == s.pending + added
    && s'.book.tuners.Keys == s.book.tuners.Keys
  }

  // The tuner takes the waiting Record whole or not at all.
  ghost predicate GrantRoom(s: Book, q: ReserveTuner, parent: TunerId)
    requires parent in s.tuners
  {
    TakesWhole(s.tuners[parent], GrantedRecord(s, q, parent, q.reservation.token))
  }

  lemma GrantInsertable(s: State, q: ReserveTuner, parent: TunerId)
    requires Supply(s) && Waitable(q) && parent in s.book.tuners && GrantRoom(s.book, q, parent)
    ensures var r := GrantedRecord(s.book, q, parent, Minted(s));
      Insertable(s.book, r, parent) && TakesWhole(s.book.tuners[parent], r)
  {
    hide StateOf;
  }

  // A tuner with at most two reservations has room.
  lemma FewHaveRoom(s: Book, q: ReserveTuner, parent: TunerId)
    requires parent in s.tuners && |s.tuners[parent]| <= 2
    ensures GrantRoom(s, q, parent)
  {
    var h := s.tuners[parent];
    SubsetSize(ActiveTokens(h), h.Keys);
    assert |h.Keys| == |h|;
  }

  lemma PutSupply(s: State, r: Reservation, parent: TunerId, client: ClientId, granted: multiset<Uuid>)
    requires Supply(s) && parent in s.book.tuners && r.token == Minted(s)
    ensures Supply(s.(book := Put(s.book, r, parent, client), issued := s.issued + 1, granted := granted))
  {
    var s' := s.(book := Put(s.book, r, parent, client), issued := s.issued + 1, granted := granted);
    forall n: nat | n >= s'.issued ensures !IsHeld(s'.book, s.uuid(n)) {
      PutHolds(s.book, r, parent, client);
      assert forall i :: !Holds(s.book, i, s.uuid(n));
    }
  }

  // A waiting Record is granted its tuner once, or an overlapping Record of another locator stops it
  // before anything changes.
  lemma GrantStep(s: State, q: ReserveTuner, parent: TunerId)
    requires Sound(s.book) && Supply(s) && Waitable(q) && parent in s.book.tuners && GrantRoom(s.book, q, parent)
    ensures var (s', ok) := Grant(s, q, parent);
      && Sound(s'.book) && Supply(s') && Progress(s, s', [])
      && s'.pendingTimers == s.pendingTimers
      && s'.granted == (if ok then s.granted + multiset{q.uuid} else s.granted)
      && (!ok ==> s'.book == s.book)
  {
    hide Sound, Supply, Insertable, Insert, Clashes, Put, GrantedRecord, GrantRoom, TakesWhole;
    var book := s.book;
    var r := GrantedRecord(book, q, parent, Minted(s));
    GrantInsertable(s, q, parent);
    GrantedToken(book, q, parent, Minted(s));
    InsertSound(book, r, parent, RECORDER_CLIENT);
    PutSupply(s, r, parent, RECORDER_CLIENT, s.granted + multiset{q.uuid});
    PutKeepsTuners(book, r, parent, RECORDER_CLIENT);
    LaterSupply(s);
  }

  lemma GrantedToken(s: Book, q: ReserveTuner, parent: TunerId, token: Token)
    requires parent in s.tuners
    ensures GrantedRecord(s, q, parent, token).token == token
  {
  }

  lemma PutKeepsTuners(s: Book, r: Reservation, id: TunerId, client: ClientId)
    requires id in s.tuners
    ensures Put(s, r, id, client).tuners.Keys == s.tuners.Keys
  {
  }

  lemma LaterSupply(s: State)
    requires Supply(s)
    ensures Supply(s.(issued := s.issued + 1))
  {
  }

  // ---------------------------------------------------------------- one entry's timeout

  lemma {:induction false} FindIs(pending: seq<Pending>, p: Pending)
    requires DistinctIds(pending) && p in pending
    ensures FindPending(pending, p.uuid) == Some(p)
  {
    if pending[0] != p {
      assert pending == [pending[0]] + pending[1..];
      HeadDiffers(pending, p);
      FindIs(pending[1..], p);
    }
  }

  // The assertions opening the timeout hold for every pending conflict.
  lemma OpeningAssertsHold(s: State, p: Pending)
    requires Listed(s) && p in s.pending && p.ConflictEntry?
    ensures OpeningAsserts(s, p) && p.parent in s.book.tuners
  {
    FindIs(s.pending, p);
    assert EntryOk(s.book.tuners.Keys, p);
  }

  // The outcome of a step for an entry that claims a request: what it adds and grants is covered by
  // the claim it gives up, and if it does not complete it neither adds nor grants.
  ghost predicate Covered(s: State, s': State, ok: bool, claim: multiset<Uuid>, added: seq<Pending>) {
    && Progress(s, s', added)
    && (forall x :: x in added ==> x.CancelLiveEntry?)
    && Claims(added) + s'.granted <= s.granted + (if ok then claim else multiset{})
    && (!ok ==> added == [] && s'.book == s.book)
  }

  ghost function AddedBy(s: State, s': State): seq<Pending> {
    if |s.pending| <= |s'.pending| then s'.pending[|s.pending|..] else []
  }

  lemma IdsAppend(pending: seq<Pending>, p: Pending)
    ensures Ids(pending + [p]) == Ids(pending) + {p.uuid}
  {
    var more := pending + [p];
    assert more[|pending|] == p;
    forall u | u in Ids(pending) ensures u in Ids(more) {
      var i :| 0 <= i < |pending| && pending[i].uuid == u;
      assert more[i] == pending[i];
    }
  }

  lemma AppendListed(s: State, p: Pending, timeout: nat)
    requires Listed(s) && p.uuid !in Ids(s.pending) && EntryOk(s.book.tuners.Keys, p)
    ensures Listed(AddPending(s, p, timeout))
  {
    IdsAppend(s.pending, p);
    forall i | 0 <= i < |s.pending| ensures s.pending[i].uuid in Ids(s.pending) {}
  }

  lemma AppendSupply(s: State, p: Pending, timeout: nat)
    requires Supply(s) && p.uuid == Minted(s) && (p.ConflictEntry? ==> IsHeld(s.book, p.live.token))
    ensures Supply(AddPending(s.(issued := s.issued + 1), p, timeout))
  {
    IdsAppend(s.pending, p);
    ViewersAppend(s.pending, p);
    hide Ids, Viewers, IsHeld;
  }

  lemma ViewersAppend(pending: seq<Pending>, p: Pending)
    ensures Viewers(pending + [p]) == Viewers(pending) + if p.ConflictEntry? then {p.live.token} else {}
  {
    var more := pending + [p];
    assert more[|pending|] == p;
    forall t | t in Viewers(pending) ensures t in Viewers(more) {
      var i :| 0 <= i < |pending| && pending[i].ConflictEntry? && pending[i].live.token == t;
      assert more[i] == pending[i];
    }
  }

  lemma LaterListed(s: State)
    requires Listed(s)
    ensures Listed(s.(issued := s.issued + 1))
  {
  }

  lemma GrantCovered(s: State, q: ReserveTuner, parent: TunerId)
    requires Sound(s.book) && Supply(s) && Listed(s) && Waitable(q) && parent in s.book.tuners && GrantRoom(s.book, q, parent)
    ensures var (s', ok) := Grant(s, q, parent);
      Sound(s'.book) && Supply(s') && Listed(s') && Covered(s, s', ok, multiset{q.uuid}, [])
  {
    hide Sound, Supply, Listed, Grant, GrantRoom;
    GrantStep(s, q, parent);
    assert s.pending + [] == s.pending;
    ListedSame(s, Grant(s, q, parent).0);
  }

  lemma ListedSame(s: State, s': State)
    requires Listed(s)
    requires s'.pending == s.pending && s'.pendingTimers == s.pendingTimers
    requires s'.book.tuners.Keys == s.book.tuners.Keys
    ensures Listed(s')
  {
  }

  lemma LoneCovered(s: State, online: set<ClientId>, p: Pending, r: Reservation)
    requires Sound(s.book) && Supply(s) && Listed(s) && p.ConflictEntry?
    requires Waitable(p.request) && p.parent in s.book.tuners
    ensures var (s', ok) := LoneTimeout(s, online, p, r);
      Sound(s'.book) && Supply(s') && Listed(s') && Covered(s, s', ok, ClaimOf(p), AddedBy(s, s'))
  {
    hide Sound, Supply, Listed, Ids;
    LaterSupply(s);
    LaterListed(s);
    var entry := CancelLiveEntry(Minted(s), p.request, p.parent);
    assert Minted(s) !in Ids(s.pending) by { MintedUnused(s); }
    AppendSupply(s, entry, CANCEL_LIVE_TIMEOUT_MS);
    AppendListed(s.(issued := s.issued + 1), entry, CANCEL_LIVE_TIMEOUT_MS);
    assert Claims([entry]) == multiset{p.request.uuid};
    assert (s.pending + [entry])[|s.pending|..] == [entry];
    assert s.pending[|s.pending|..] == [];
    assert s.pending + [] == s.pending;
  }

  lemma MintedUnused(s: State)
    requires Supply(s)
    ensures Minted(s) !in Ids(s.pending) && !IsHeld(s.book, Minted(s)) && Minted(s) != ""
  {
  }

  lemma Standstill(s: State, claim: multiset<Uuid>)
    ensures Covered(s, s, false, claim, []) && AddedBy(s, s) == []
  {
    assert s.pending + [] == s.pending;
  }

  lemma NothingAdded(s: State, s': State)
    requires Progress(s, s', [])
    ensures AddedBy(s, s') == []
  {
    assert s.pending + [] == s.pending;
  }

  // Which way the timeout of a listed conflict goes.
  lemma ConflictTimeoutIs(s: State, online: set<ClientId>, p: Pending)
    requires Listed(s) && p in s.pending && p.ConflictEntry?
    ensures p.parent in s.book.tuners && Waitable(p.request) && ClaimOf(p) == multiset{p.request.uuid}
    ensures var h := s.book.tuners[p.parent];
      ConflictTimeout(s, online, p) ==
        if |h| == 1 then LoneTimeout(s, online, p, h[Sorted(h.Keys)[0]])
        else if |h| == 0 || (|h| == 2 && StateOf(h) == HybridState) then Grant(s, p.request, p.parent)
        else (s, false)
  {
    OpeningAssertsHold(s, p);
    assert EntryOk(s.book.tuners.Keys, p);
  }

  lemma ConflictStep(s: State, online: set<ClientId>, p: Pending)
    requires Sound(s.book) && Supply(s) && Listed(s) && p in s.pending && p.ConflictEntry?
    ensures var (s', ok) := ConflictTimeout(s, online, p);
      Sound(s'.book) && Supply(s') && Listed(s') && Covered(s, s', ok, ClaimOf(p), AddedBy(s, s'))
  {
    ConflictTimeoutIs(s, online, p);
    hide *;
    var h := s.book.tuners[p.parent];
    Standstill(s, ClaimOf(p));
    if |h| == 1 {
      LoneCovered(s, online, p, h[Sorted(h.Keys)[0]]);
    } else if |h| <= 2 {
      FewHaveRoom(s.book, p.request, p.parent);
      GrantCovered(s, p.request, p.parent);
      CoveredProgress(s, Grant(s, p.request, p.parent).0, Grant(s, p.request, p.parent).1, ClaimOf(p));
    }
  }

  lemma CoveredProgress(s: State, s': State, ok: bool, claim: multiset<Uuid>)
    requires Covered(s, s', ok, claim, [])
    ensures AddedBy(s, s') == []
  {
    NothingAdded(s, s');
  }
}
