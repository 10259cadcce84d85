// Every protocol event keeps the invariant.
module ProtocolSteps {
  import opened Domain
  import opened Registry
  import opened Invariants
  import opened Protocol
  import opened ProtocolInvariants
  import opened Reevaluation

  // ---------------------------------------------------------------- settling

  lemma OnceNow(s: State)
    ensures OnceApartFrom(s, {}) <==> Once(Claims(s.pending) + s.granted, s.seen, s.cancelled)
  {
    SurvivorsAll(s.pending, {});
  }

  lemma AddedNew(s: State, s': State, p: Pending, added: seq<Pending>)
    requires Listed(s') && s'.pending == s.pending + added && p in s.pending
    ensures forall x :: x in added ==> x.uuid !in {} + {p.uuid}
  {
    var i :| 0 <= i < |s.pending| && s.pending[i] == p;
    forall x | x in added ensures x.uuid != p.uuid {
      var k :| 0 <= k < |added| && added[k] == x;
      assert s'.pending[i] == p && s'.pending[|s.pending| + k] == x;
    }
  }

  // An entry whose step completed is removed, and the invariant holds again.
  lemma SettleInv(s: State, s': State, p: Pending, added: seq<Pending>)
    requires Inv(s) && p in s.pending && Covered(s, s', true, ClaimOf(p), added)
    requires Sound(s'.book) && Supply(s') && Listed(s')
    ensures Inv(RemovePending(s', p.uuid))
  {
    hide *;
    InvParts(s);
    OnceNow(s);
    CoveredParts(s, s', true, ClaimOf(p), added);
    AddedNew(s, s', p, added);
    SettleOnce(s, s', p, {}, added);
    assert {} + {p.uuid} == {p.uuid};
    RemoveOneIs(s', p.uuid);
    CleanedSupply(s', {p.uuid});
    CleanedOnce(s', {p.uuid});
    InvFrom(RemovePending(s', p.uuid));
  }

  lemma StandInv(s: State, s': State, claim: multiset<Uuid>, added: seq<Pending>)
    requires Inv(s) && Covered(s, s', false, claim, added)
    requires Sound(s'.book) && Supply(s') && Listed(s')
    ensures Inv(s')
  {
    hide *;
    InvParts(s);
    OnceNow(s);
    CoveredParts(s, s', false, claim, added);
    StandOnce(s, s', claim, {}, added);
    OnceNow(s');
    InvFrom(s');
  }

  // If an id names a Record that waits for a viewer's answer, its tuner takes it whole or not at all.
  ghost predicate RoomToSettle(s: State, u: Uuid) {
    forall p :: p in s.pending && p.uuid == u && p.CancelLiveEntry? && p.parent in s.book.tuners ==>
      GrantRoom(s.book, p.request, p.parent)
  }

  lemma GrantSettles(s: State, p: Pending)
    requires Inv(s) && p in s.pending && p.CancelLiveEntry? && RoomToSettle(s, p.uuid)
    ensures var (s', ok) := Grant(s, p.request, p.parent);
      Inv(if ok then RemovePending(s', p.uuid) else s')
  {
    assert EntryOk(s.book.tuners.Keys, p);
    assert ClaimOf(p) == multiset{p.request.uuid};
    assert Waitable(p.request) && p.parent in s.book.tuners;
    hide *;
    InvParts(s);
    var (s', ok) := Grant(s, p.request, p.parent);
    GrantCovered(s, p.request, p.parent);
    if ok {
      SettleInv(s, s', p, []);
    } else {
      StandInv(s, s', multiset{p.request.uuid}, []);
    }
  }

  lemma ConflictSettles(s: State, online: set<ClientId>, p: Pending)
    requires Inv(s) && p in s.pending && p.ConflictEntry?
    ensures var (s', ok) := ConflictTimeout(s, online, p);
      Inv(if ok then RemovePending(s', p.uuid) else s')
  {
    hide *;
    InvParts(s);
    var (s', ok) := ConflictTimeout(s, online, p);
    ConflictStep(s, online, p);
    if ok {
      SettleInv(s, s', p, AddedBy(s, s'));
    } else {
      StandInv(s, s', ClaimOf(p), AddedBy(s, s'));
    }
  }

  lemma Idle(s: State)
    ensures Covered(s, s, true, multiset{}, [])
  {
    assert s.pending + [] == s.pending;
  }

  lemma CancelRecordingSettles(s: State, p: Pending)
    requires Inv(s) && p in s.pending && p.CancelRecordingEntry?
    ensures Inv(RemovePending(s, p.uuid))
  {
    assert ClaimOf(p) == multiset{};
    hide *;
    InvParts(s);
    Idle(s);
    SettleInv(s, s, p, []);
  }

  // A pending timer that fires keeps the invariant, whatever connections are alive.
  lemma PendingDueInv(s: State, online: set<ClientId>, u: Uuid)
    requires Inv(s) && RoomToSettle(s, u)
    ensures Inv(PendingDue(s, online, u))
  {
    var p := FindPending(s.pending, u);
    hide Inv, RoomToSettle, Grant, ConflictTimeout, RemovePending, FindPending;
    if p.Some? {
      match p.value
      case CancelLiveEntry(_, _, _) => GrantSettles(s, p.value);
      case ConflictEntry(_, _, _, _, _, _) => ConflictSettles(s, online, p.value);
      case CancelRecordingEntry(_, _, _) => CancelRecordingSettles(s, p.value);
    }
  }

  // A pending clock that goes off keeps it too. An early delivery asks nothing of the tuner.
  lemma PendingClockInv(s: State, online: set<ClientId>, u: Uuid)
    requires Inv(s) && u in s.pendingTimers
    requires s.pendingTimers[u].future <= s.book.now ==> RoomToSettle(s, u)
    ensures Inv(PendingClock(s, online, u))
  {
    var s' := PendingMarked(s, u);
    assert RoomToSettle(s, u) ==> RoomToSettle(s', u);
    hide Inv, RoomToSettle, PendingDue, PendingMarked;
    PendingMarkedInv(s, u);
    if s.pendingTimers[u].future <= s.book.now {
      PendingDueInv(s', online, u);
    }
  }

  lemma PendingMarkedInv(s: State, u: Uuid)
    requires Inv(s) && u in s.pendingTimers
    ensures Inv(PendingMarked(s, u))
  {
    assert PendingMarked(s, u).pendingTimers.Keys == s.pendingTimers.Keys;
    hide Sound, Once, Claims;
  }

  lemma CancelLiveReplyInv(s: State, u: Uuid)
    requires Inv(s) && RoomToSettle(s, u)
    ensures Inv(CancelLiveReply(s, u))
  {
    var p := FindPending(s.pending, u);
    hide Inv, RoomToSettle, Grant, RemovePending, FindPending;
    if p.Some? && p.value.CancelLiveEntry? {
      GrantSettles(s, p.value);
    }
  }

  // ---------------------------------------------------------------- cancelling a recording

  lemma OnceCancelled(total: multiset<Uuid>, total': multiset<Uuid>, u: Uuid, seen: set<Uuid>, cancelled: set<Uuid>)
    requires Once(total, seen, cancelled) && total == total' + multiset{u}
    ensures Once(total', seen, cancelled + {u}) && u in seen
  {
    assert total[u] == total'[u] + 1;
    assert forall x :: x in total' ==> x in total;
  }

  // A request the user cancels has neither a claim nor a grant left.
  lemma UserCancelInv(s: State, p: Pending)
    requires Inv(s) && p in s.pending && p.ConflictEntry?
    ensures Inv(RemovePending(s, p.uuid).(cancelled := s.cancelled + {p.request.uuid}))
  {
    hide *;
    InvParts(s);
    var u := p.request.uuid;
    var s1 := RemovePending(s, p.uuid);
    RemoveOneIs(s, p.uuid);
    CleanedSupply(s, {p.uuid});
    CleanedIs(s, {p.uuid});
    CancelledOnce(s, p);
    CancelledSame(s1, s.cancelled + {u});
    InvFrom(s1.(cancelled := s.cancelled + {u}));
  }

  lemma CancelledOnce(s: State, p: Pending)
    requires DistinctIds(s.pending) && p in s.pending && p.ConflictEntry?
    requires Once(Claims(s.pending) + s.granted, s.seen, s.cancelled)
    ensures var u := p.request.uuid;
      Once(Claims(Survivors(s.pending, {p.uuid})) + s.granted, s.seen, s.cancelled + {u}) && u in s.seen
  {
    var u := p.request.uuid;
    var rest := Claims(Survivors(s.pending, {p.uuid}));
    ClaimsSettled(s.pending, {}, p);
    SurvivorsAll(s.pending, {});
    assert {} + {p.uuid} == {p.uuid};
    assert Claims(s.pending) == rest + multiset{u};
    hide *;
    Regroup(Claims(s.pending), rest, s.granted, u);
    OnceCancelled(Claims(s.pending) + s.granted, rest + s.granted, u, s.seen, s.cancelled);
  }

  lemma Regroup(claims: multiset<Uuid>, rest: multiset<Uuid>, granted: multiset<Uuid>, u: Uuid)
    requires claims == rest + multiset{u}
    ensures claims + granted == rest + granted + multiset{u}
  {
  }

  lemma CleanedIs(s: State, done: set<Uuid>)
    ensures var s' := Cleaned(s, done);
      && s'.pending == Survivors(s.pending, done) && s'.book == s.book && s'.granted == s.granted
      && s'.seen == s.seen && s'.cancelled == s.cancelled
  {
  }

  lemma CancelledSame(s: State, cancelled: set<Uuid>)
    requires Supply(s) && Listed(s)
    ensures Supply(s.(cancelled := cancelled)) && Listed(s.(cancelled := cancelled))
  {
  }

  // An id the server could still draw.
  ghost predicate Undrawn(s: State, u: Uuid) {
    exists n: nat :: n >= s.issued && s.uuid(n) == u
  }

  lemma AppendRecordingInv(s: State, uuid: Uuid, client: ClientId, token: Token)
    requires Inv(s) && uuid !in Ids(s.pending) && !Undrawn(s, uuid)
    ensures Inv(AddPending(s, CancelRecordingEntry(uuid, client, token), CANCEL_RECORDING_TIMEOUT_MS))
  {
    var p := CancelRecordingEntry(uuid, client, token);
    var s' := AddPending(s, p, CANCEL_RECORDING_TIMEOUT_MS);
    assert EntryOk(s.book.tuners.Keys, p);
    InvParts(s);
    IdsAppend(s.pending, p);
    ClaimsAppend(s.pending, [p]);
    assert Claims([p]) == multiset{};
    assert Claims(s'.pending) == Claims(s.pending);
    assert forall n: nat :: n >= s.issued ==> s.uuid(n) != uuid;
    hide Inv, Sound, Supply, Listed, Once, Claims, Ids, EntryOk;
    AppendListed(s, p, CANCEL_RECORDING_TIMEOUT_MS);
    SupplyKeeps(s, s');
    InvFrom(s');
  }

  lemma CancelRecordingInv(s: State, online: set<ClientId>, client: ClientId, uuid: Uuid, token: Token)
    requires Inv(s) && uuid !in Ids(s.pending) && !Undrawn(s, uuid)
    ensures Inv(CancelRecording(s, online, client, uuid, token))
  {
    var p := FindPending(s.pending, token);
    hide Inv, RemovePending, FindPending, AddPending, Ids, Undrawn, Temps, IsHeld, Lookup;
    AppendRecordingInv(s, uuid, client, token);
    if p.Some? && p.value.ConflictEntry? {
      UserCancelInv(s, p.value);
    }
  }

  // ---------------------------------------------------------------- changes of the book alone

  lemma BookInv(s: State, book: Book)
    requires Inv(s) && Sound(book) && book.tuners.Keys == s.book.tuners.Keys
    requires forall t :: IsHeld(book, t) ==> IsHeld(s.book, t)
    ensures Inv(s.(book := book))
  {
    hide Sound, Once, Claims;
    ListedSame(s, s.(book := book));
  }

  lemma DropInv(s: State, t: Token)
    requires Inv(s)
    ensures Inv(s.(book := Drop(s.book, t)))
  {
    InvParts(s);
    DropKeeps(s.book, t);
    hide *;
    DropSound(s.book, t);
    BookInv(s, Drop(s.book, t));
  }

  lemma DropKeeps(s: Book, t: Token)
    ensures Drop(s, t).tuners.Keys == s.tuners.Keys
    ensures forall u :: IsHeld(Drop(s, t), u) ==> IsHeld(s, u)
  {
    DropHolds(s, t);
    forall u | IsHeld(Drop(s, t), u) ensures IsHeld(s, u) {
      var i :| Holds(Drop(s, t), i, u);
      assert Holds(s, i, u);
    }
  }

  lemma CancelRecordingReplyInv(s: State, online: set<ClientId>, client: ClientId, uuid: Uuid, token: Token)
    requires Inv(s)
    ensures Inv(CancelRecordingReply(s, online, client, uuid, token))
  {
    var p := FindPending(s.pending, uuid);
    RemovePendingBook(s, uuid);
    hide Inv, RemovePending, FindPending, Drop, IsHeld, Lookup;
    if p.Some? && p.value.CancelRecordingEntry? {
      CancelRecordingSettles(s, p.value);
      DropInv(RemovePending(s, uuid), token);
    }
  }

  lemma RemovePendingBook(s: State, u: Uuid)
    ensures RemovePending(s, u).book == s.book
  {
  }
}
