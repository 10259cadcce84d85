// What a timeout, an answer and a cancellation do, exactly.
module Timeouts {
  import opened Domain
  import opened Ordering
  import opened Tuners
  import opened Registry
  import opened Invariants
  import opened Plain
  import opened Times
  import opened RecordPlacement
  import opened RecordAnswers
  import opened Protocol
  import opened ProtocolInvariants
  import opened ProtocolSteps
  import Timers

  // ---------------------------------------------------------------- the unconditional grant

  // The Record granted without a search. One already due starts now; one to come starts a moment ago if the
  // tuner records nothing, and when asked otherwise. It ends when asked, or at its start if that has passed.
  ghost predicate Promised(s: State, q: ReserveTuner, parent: TunerId, r: Reservation) {
    var asked, now := q.reservation, s.book.now;
    && parent in s.book.tuners
    && r == asked.(token := s.uuid(s.issued), start := r.start, duration := r.duration)
    && r.start == (if asked.start < now then now
                   else if Running(s.book.tuners[parent], Record) then asked.start
                   else if now > 0 then now - 1 else 0xFFFF_FFFF_FFFF_FFFF)
    && r.End() == if r.start > asked.End() then r.start else asked.End()
  }

  lemma PromisedMeans(s: State, q: ReserveTuner, parent: TunerId)
    requires parent in s.book.tuners
    ensures Promised(s, q, parent, GrantedRecord(s.book, q, parent, Minted(s)))
  {
    StateMeans(s.book.tuners[parent]);
    AdjustedEnd(StateOf(s.book.tuners[parent]), q.reservation, s.book.now, s.book.now, s.book.now);
    hide StateOf, Running;
  }

  lemma PromisedOne(s: State, q: ReserveTuner, parent: TunerId, r: Reservation, r': Reservation)
    requires Promised(s, q, parent, r) && Promised(s, q, parent, r')
    ensures r == r'
  {
  }

  // A waiting Record is granted exactly when its tuner does not refuse it.
  lemma GrantExact(s: State, q: ReserveTuner, parent: TunerId, r: Reservation)
    requires Sound(s.book) && Supply(s) && Waitable(q) && GrantRoomAt(s, q, parent) && Promised(s, q, parent, r)
    ensures Grant(s, q, parent) ==
      if Refuses(s.book.tuners[parent], r) then (s.(issued := s.issued + 1), false)
      else (s.(book := Put(s.book, r, parent, RECORDER_CLIENT), issued := s.issued + 1, granted := s.granted + multiset{q.uuid}), true)
  {
    hide *;
    RoomAtMeans(s, q, parent);
    var r' := GrantedRecord(s.book, q, parent, Minted(s));
    PromisedMeans(s, q, parent);
    PromisedOne(s, q, parent, r, r');
    GrantInsertable(s, q, parent);
    InsertSound(s.book, r', parent, RECORDER_CLIENT);
    RefusesMeans(s.book.tuners[parent], r');
    GrantUnfolds(s, q, parent);
  }

  ghost predicate GrantRoomAt(s: State, q: ReserveTuner, parent: TunerId) {
    parent in s.book.tuners && GrantRoom(s.book, q, parent)
  }

  lemma RoomAtMeans(s: State, q: ReserveTuner, parent: TunerId)
    requires GrantRoomAt(s, q, parent)
    ensures parent in s.book.tuners && GrantRoom(s.book, q, parent)
  {
  }

  lemma GrantUnfolds(s: State, q: ReserveTuner, parent: TunerId)
    requires Waitable(q) && parent in s.book.tuners
    ensures var (book, outcome) := Insert(s.book, GrantedRecord(s.book, q, parent, Minted(s)), parent, RECORDER_CLIENT);
      Grant(s, q, parent) ==
        if outcome == Added then (s.(book := book, issued := s.issued + 1, granted := s.granted + multiset{q.uuid}), true)
        else (s.(book := book, issued := s.issued + 1), false)
  {
    hide Insert, GrantedRecord;
  }

  // ---------------------------------------------------------------- the timeout of a conflict

  // An emergency channel other than the recording's.
  predicate Emergency(r: Reservation, q: ReserveTuner) {
    "eas" in r.details && r.details["eas"] == "true" && q.reservation.locator != r.locator
  }

  // The step that asks a viewer to give way: one new entry for the request, with ten seconds to answer.
  ghost function Asked(s: State, p: Pending): State
    requires p.ConflictEntry?
  {
    var id := s.uuid(s.issued);
    s.(issued := s.issued + 1,
       pending := s.pending + [CancelLiveEntry(id, p.request, p.parent)],
       pendingTimers := s.pendingTimers[id := Timers.Clockwork(Some(id), s.book.now + 10000, true)])
  }

  // What the timeout of a conflict comes to, by what its tuner holds. Nothing: the Record is granted. One
  // reservation: an emergency channel stops the Record, which the recorder must be told; a viewer is asked to
  // give way through the recorder; anything else leaves the conflict. A viewer and a recording: the Record is
  // granted unless the tuner refuses it.
  ghost predicate TimedOut(s: State, online: set<ClientId>, p: Pending, s': State, ok: bool)
    requires p.ConflictEntry?
  {
    p.parent in s.book.tuners &&
    var h := s.book.tuners[p.parent];
    if h == map[] || (|h| == 2 && IsHybrid(h)) then
      exists r :: Promised(s, p.request, p.parent, r) &&
        if h != map[] && Refuses(h, r) then !ok && s' == s.(issued := s.issued + 1)
        else ok && s' == s.(book := Put(s.book, r, p.parent, RECORDER_CLIENT), issued := s.issued + 1, granted := s.granted + multiset{p.request.uuid})
    else if exists t :: h.Keys == {t} then
      var t :| h.Keys == {t};
      if Emergency(h[t], p.request) then s' == s && (ok <==> RECORDER_CLIENT in online)
      else if h[t].activity != Live then s' == s && !ok
      else ok && s' == if RECORDER_CLIENT in online then Asked(s, p) else s.(issued := s.issued + 1)
    else s' == s && !ok
  }

  lemma FreeNeverRefuses(h: Holdings, r: Reservation)
    requires h == map[]
    ensures !Refuses(h, r)
  {
  }

  lemma ConflictTimeoutExact(s: State, online: set<ClientId>, p: Pending)
    requires Sound(s.book) && Supply(s) && Listed(s) && p in s.pending && p.ConflictEntry?
    ensures TimedOut(s, online, p, ConflictTimeout(s, online, p).0, ConflictTimeout(s, online, p).1)
  {
    ConflictTimeoutIs(s, online, p);
    var h := s.book.tuners[p.parent];
    var (s', ok) := ConflictTimeout(s, online, p);
    SizesMean(h);
    StateMeans(h);
    hide *;
    if |h| == 0 || (|h| == 2 && IsHybrid(h)) {
      FewHaveRoom(s.book, p.request, p.parent);
      RoomAtFrom(s, p.request, p.parent);
      var r := GrantedRecord(s.book, p.request, p.parent, Minted(s));
      PromisedMeans(s, p.request, p.parent);
      GrantExact(s, p.request, p.parent, r);
      if h == map[] { FreeNeverRefuses(h, r); }
      TimedOutGrant(s, online, p, r, s', ok);
    } else if |h| == 1 {
      MintedUnused(s);
      LoneExact(s, online, p, Sorted(h.Keys)[0]);
    } else {
      TimedOutStuck(s, online, p);
    }
  }

  lemma RoomAtFrom(s: State, q: ReserveTuner, parent: TunerId)
    requires parent in s.book.tuners && GrantRoom(s.book, q, parent)
    ensures GrantRoomAt(s, q, parent)
  {
  }

  lemma SizesMean(h: Holdings)
    ensures |h| == 0 <==> h == map[]
    ensures |h| == 1 <==> exists t :: h.Keys == {t}
    ensures |h| == 1 ==> |Sorted(h.Keys)| >= 1 && h.Keys == {Sorted(h.Keys)[0]}
  {
    assert |h.Keys| == |h|;
    SortedAscends(h.Keys);
    if |h| == 1 {
      var t := Sorted(h.Keys)[0];
      assert t in Sorted(h.Keys);
      SingleKey(h, t);
      assert h.Keys == {t};
    }
  }

  lemma TimedOutGrant(s: State, online: set<ClientId>, p: Pending, r: Reservation, s': State, ok: bool)
    requires p.ConflictEntry? && p.parent in s.book.tuners && Promised(s, p.request, p.parent, r)
    requires var h := s.book.tuners[p.parent]; h == map[] || (|h| == 2 && IsHybrid(h))
    requires var h := s.book.tuners[p.parent];
      if h != map[] && Refuses(h, r) then !ok && s' == s.(issued := s.issued + 1)
      else ok && s' == s.(book := Put(s.book, r, p.parent, RECORDER_CLIENT), issued := s.issued + 1, granted := s.granted + multiset{p.request.uuid})
    ensures TimedOut(s, online, p, s', ok)
  {
    hide Promised, Refuses, Put, IsHybrid;
  }

  lemma TimedOutStuck(s: State, online: set<ClientId>, p: Pending)
    requires p.ConflictEntry? && p.parent in s.book.tuners
    requires var h := s.book.tuners[p.parent]; h != map[] && !(|h| == 2 && IsHybrid(h)) && !exists t :: h.Keys == {t}
    ensures TimedOut(s, online, p, s, false)
  {
    hide Promised, Refuses, Put, IsHybrid;
  }

  lemma LoneExact(s: State, online: set<ClientId>, p: Pending, t: Token)
    requires p.ConflictEntry? && p.parent in s.book.tuners && s.book.tuners[p.parent].Keys == {t}
    requires Minted(s) !in Ids(s.pending) && s.pendingTimers.Keys == Ids(s.pending)
    ensures var out := LoneTimeout(s, online, p, s.book.tuners[p.parent][t]); TimedOut(s, online, p, out.0, out.1)
  {
    var h := s.book.tuners[p.parent];
    assert |h.Keys| == 1 && |h| == |h.Keys|;
    assert forall u :: h.Keys == {u} ==> u == t by { forall u | h.Keys == {u} ensures u == t { assert u in h.Keys; } }
    hide Promised, Refuses, IsHybrid, Ids;
  }

  // ---------------------------------------------------------------- entries that go

  // The state without the entry at an index, and without its clock.
  ghost function Shorter(s: State, i: nat): State
    requires i < |s.pending|
  {
    s.(pending := s.pending[..i] + s.pending[i + 1..], pendingTimers := s.pendingTimers - {s.pending[i].uuid})
  }

  lemma {:induction false} RemovesAt(pending: seq<Pending>, i: nat)
    requires i < |pending| && DistinctIds(pending)
    ensures RemoveFirst(pending, pending[i].uuid) == pending[..i] + pending[i + 1..]
    ensures FindPending(pending, pending[i].uuid) == Some(pending[i])
  {
    if i > 0 {
      RemovesAt(pending[1..], i - 1);
      assert pending[1..][i - 1] == pending[i] && pending[1..][..i - 1] == pending[1..i] && pending[1..][i..] == pending[i + 1..];
      assert [pending[0]] + pending[1..i] == pending[..i];
    }
  }

  // Removing an entry that is still listed where it was, in a later state.
  lemma RemovedIs(s: State, s': State, i: nat)
    requires i < |s.pending| <= |s'.pending| && DistinctIds(s'.pending) && s'.pending[i] == s.pending[i]
    ensures RemovePending(s', s.pending[i].uuid) == Shorter(s', i)
  {
    RemovesAt(s'.pending, i);
    hide RemoveFirst, FindPending;
  }

  lemma NotListed(s: State, u: Uuid)
    requires forall i :: 0 <= i < |s.pending| ==> s.pending[i].uuid != u
    ensures FindPending(s.pending, u) == None
  {
  }

  // ---------------------------------------------------------------- a pending timer's task

  // What the timeout of an entry comes to. A cancellation waits until its client can be told. A viewer who did
  // not answer gives way. A conflict is resolved as its tuner allows. The entry goes exactly when that is done.
  ghost predicate Resolves(s: State, online: set<ClientId>, i: nat, s': State)
    requires i < |s.pending|
  {
    match s.pending[i]
    case CancelRecordingEntry(_, client, _) => s' == if client in online then Shorter(s, i) else s
    case CancelLiveEntry(_, request, parent) => GivenWay(s, i, request, parent, s')
    case ConflictEntry(_, _, _, _, _, _) =>
      exists mid, ok :: TimedOut(s, online, s.pending[i], mid, ok) && i < |mid.pending| && s' == if ok then Shorter(mid, i) else mid
  }

  ghost predicate GivenWay(s: State, i: nat, q: ReserveTuner, parent: TunerId, s': State)
    requires i < |s.pending|
  {
    exists r :: Promised(s, q, parent, r) &&
      if Refuses(s.book.tuners[parent], r) then s' == s.(issued := s.issued + 1)
      else s' == Shorter(s, i).(book := Put(s.book, r, parent, RECORDER_CLIENT), issued := s.issued + 1, granted := s.granted + multiset{q.uuid})
  }

  lemma EntryAt(s: State, i: nat)
    requires Inv(s) && i < |s.pending|
    ensures var p := s.pending[i];
      && p in s.pending && FindPending(s.pending, p.uuid) == Some(p) && DistinctIds(s.pending)
      && (!p.CancelRecordingEntry? ==> Waitable(p.request) && p.parent in s.book.tuners)
  {
    assert s.pending[i] in s.pending;
    assert EntryOk(s.book.tuners.Keys, s.pending[i]);
    RemovesAt(s.pending, i);
    hide FindPending, RemoveFirst;
  }

  lemma GivenWayExact(s: State, i: nat)
    requires Inv(s) && i < |s.pending| && s.pending[i].CancelLiveEntry? && RoomToSettle(s, s.pending[i].uuid)
    ensures var p := s.pending[i];
      var (mid, ok) := Grant(s, p.request, p.parent);
      GivenWay(s, i, p.request, p.parent, if ok then RemovePending(mid, p.uuid) else mid)
  {
    var p := s.pending[i];
    EntryAt(s, i);
    assert GrantRoomAt(s, p.request, p.parent);
    hide *;
    InvParts(s);
    var r := GrantedRecord(s.book, p.request, p.parent, Minted(s));
    PromisedMeans(s, p.request, p.parent);
    GrantExact(s, p.request, p.parent, r);
    var (mid, ok) := Grant(s, p.request, p.parent);
    if ok {
      RemovedIs(s, mid, i);
    }
    GivenWayFrom(s, i, p.request, p.parent, r, if ok then RemovePending(mid, p.uuid) else mid);
  }

  lemma GivenWayFrom(s: State, i: nat, q: ReserveTuner, parent: TunerId, r: Reservation, s': State)
    requires i < |s.pending| && Promised(s, q, parent, r) && parent in s.book.tuners
    requires var mid := s.(book := Put(s.book, r, parent, RECORDER_CLIENT), issued := s.issued + 1, granted := s.granted + multiset{q.uuid});
      if Refuses(s.book.tuners[parent], r) then s' == s.(issued := s.issued + 1) else s' == Shorter(mid, i)
    ensures GivenWay(s, i, q, parent, s')
  {
    hide Promised, Refuses, Put;
  }

  lemma TimeoutExact(s: State, online: set<ClientId>, i: nat)
    requires Inv(s) && i < |s.pending| && RoomToSettle(s, s.pending[i].uuid)
    ensures Resolves(s, online, i, PendingDue(s, online, s.pending[i].uuid))
  {
    var p := s.pending[i];
    hide *;
    EntryAt(s, i);
    InvParts(s);
    DueUnfolds(s, online, p.uuid);
    var s' := PendingDue(s, online, p.uuid);
    match p
    case CancelRecordingEntry(_, client, _) =>
      RemovedIs(s, s, i);
      ResolvesRecording(s, online, i, s');
    case CancelLiveEntry(_, request, parent) =>
      GivenWayExact(s, i);
      ResolvesLive(s, online, i, s');
    case ConflictEntry(_, _, _, _, _, _) =>
      var (mid, ok) := ConflictTimeout(s, online, p);
      ConflictTimeoutExact(s, online, p);
      ConflictStep(s, online, p);
      StillThere(s, mid, ok, ClaimOf(p), AddedBy(s, mid), i);
      RemovedIs(s, mid, i);
      ResolvesConflict(s, online, i, mid, ok, s');
  }

  lemma DueUnfolds(s: State, online: set<ClientId>, u: Uuid)
    ensures var p := FindPending(s.pending, u);
      PendingDue(s, online, u) ==
        if p.None? then s
        else match p.value
          case CancelRecordingEntry(_, client, _) => (if client in online then RemovePending(s, u) else s)
          case CancelLiveEntry(_, request, parent) =>
            (var (mid, ok) := Grant(s, request, parent); if ok then RemovePending(mid, u) else mid)
          case ConflictEntry(_, _, _, _, _, _) =>
            (var (mid, ok) := ConflictTimeout(s, online, p.value); if ok then RemovePending(mid, u) else mid)
  {
    hide FindPending, Grant, ConflictTimeout, RemovePending;
  }

  lemma StillThere(s: State, s': State, ok: bool, claim: multiset<Uuid>, added: seq<Pending>, i: nat)
    requires Covered(s, s', ok, claim, added) && Listed(s') && i < |s.pending|
    ensures i < |s.pending| <= |s'.pending| && s'.pending[i] == s.pending[i] && DistinctIds(s'.pending)
  {
  }

  lemma ResolvesRecording(s: State, online: set<ClientId>, i: nat, s': State)
    requires i < |s.pending| && s.pending[i].CancelRecordingEntry?
    requires s' == if s.pending[i].client in online then Shorter(s, i) else s
    ensures Resolves(s, online, i, s')
  {
  }

  lemma ResolvesLive(s: State, online: set<ClientId>, i: nat, s': State)
    requires i < |s.pending| && s.pending[i].CancelLiveEntry? && GivenWay(s, i, s.pending[i].request, s.pending[i].parent, s')
    ensures Resolves(s, online, i, s')
  {
  }

  lemma ResolvesConflict(s: State, online: set<ClientId>, i: nat, mid: State, ok: bool, s': State)
    requires i < |s.pending| && s.pending[i].ConflictEntry? && TimedOut(s, online, s.pending[i], mid, ok)
    requires i < |mid.pending| && s' == if ok then Shorter(mid, i) else mid
    ensures Resolves(s, online, i, s')
  {
  }

  // ---------------------------------------------------------------- answers and cancellations

  ghost predicate HeldRecord(s: Book, t: Token) {
    exists id :: Holds(s, id, t) && s.tuners[id][t].activity == Record
  }

  // An answer to CancelLive gives way at once, whoever answers; it does nothing if no such question is open.
  lemma CancelLiveAnswerExact(s: State, u: Uuid)
    requires Inv(s) && RoomToSettle(s, u)
    ensures forall i: nat :: i < |s.pending| && s.pending[i].uuid == u && s.pending[i].CancelLiveEntry? ==>
      GivenWay(s, i, s.pending[i].request, s.pending[i].parent, CancelLiveReply(s, u))
    ensures (forall i: nat :: i < |s.pending| && s.pending[i].uuid == u ==> !s.pending[i].CancelLiveEntry?) ==> CancelLiveReply(s, u) == s
  {
    forall i: nat | i < |s.pending| && s.pending[i].uuid == u && s.pending[i].CancelLiveEntry?
      ensures GivenWay(s, i, s.pending[i].request, s.pending[i].parent, CancelLiveReply(s, u))
    {
      EntryAt(s, i);
      GivenWayExact(s, i);
      hide Inv, Grant, RemovePending, GivenWay, FindPending;
    }
    hide Inv, Grant, RemovePending, GivenWay;
    var p := FindPending(s.pending, u);
    if p.Some? {
      var i :| 0 <= i < |s.pending| && s.pending[i] == p.value;
    }
  }

  // A user's cancellation of a Record that waits in a conflict withdraws it for good, if the client that asked
  // for it can be told.
  lemma WithdrawalExact(s: State, online: set<ClientId>, client: ClientId, uuid: Uuid, i: nat)
    requires Inv(s) && i < |s.pending| && s.pending[i].ConflictEntry?
    ensures CancelRecording(s, online, client, uuid, s.pending[i].uuid) ==
      if s.pending[i].client in online then Shorter(s, i).(cancelled := s.cancelled + {s.pending[i].request.uuid}) else s
  {
    hide *;
    EntryAt(s, i);
    RemovedIs(s, s, i);
    TempMeans(s, s.pending[i].uuid);
    CancelUnfolds(s, online, client, uuid, s.pending[i].uuid);
  }

  // Of a granted Record it opens a question to the recorder, with fifteen seconds to answer; of anything else
  // it does nothing.
  lemma QuestionExact(s: State, online: set<ClientId>, client: ClientId, uuid: Uuid, token: Token)
    requires Inv(s) && uuid !in Ids(s.pending)
    requires forall i: nat :: i < |s.pending| && s.pending[i].ConflictEntry? ==> s.pending[i].uuid != token
    ensures CancelRecording(s, online, client, uuid, token) ==
      if HeldRecord(s.book, token)
      then s.(pending := s.pending + [CancelRecordingEntry(uuid, client, token)],
              pendingTimers := s.pendingTimers[uuid := Timers.Clockwork(Some(uuid), s.book.now + 15000, true)])
      else s
  {
    hide *;
    InvParts(s);
    TempMeans(s, token);
    SoundParts(s.book);
    HeldRecordMeans(s.book, token);
    CancelUnfolds(s, online, client, uuid, token);
    Opened(s, CancelRecordingEntry(uuid, client, token), 15000);
  }

  lemma Opened(s: State, p: Pending, timeout: nat)
    requires Listed(s) && p.uuid !in Ids(s.pending)
    ensures CANCEL_RECORDING_TIMEOUT_MS == 15000
    ensures AddPending(s, p, timeout) ==
      s.(pending := s.pending + [p], pendingTimers := s.pendingTimers[p.uuid := Timers.Clockwork(Some(p.uuid), s.book.now + timeout, true)])
  {
    hide Ids;
  }

  lemma CancelUnfolds(s: State, online: set<ClientId>, client: ClientId, uuid: Uuid, token: Token)
    ensures CancelRecording(s, online, client, uuid, token) ==
      if token in Temps(s.pending) then
        var p := FindPending(s.pending, token);
        if p.None? || !p.value.ConflictEntry? || p.value.client !in online then s
        else RemovePending(s, token).(cancelled := s.cancelled + {p.value.request.uuid})
      else if !IsHeld(s.book, token) || Lookup(s.book, token).activity != Record then s
      else AddPending(s, CancelRecordingEntry(uuid, client, token), CANCEL_RECORDING_TIMEOUT_MS)
  {
    hide Temps, FindPending, RemovePending, AddPending, IsHeld, Lookup;
  }

  lemma TempMeans(s: State, token: Token)
    requires Inv(s)
    ensures token in Temps(s.pending) <==> exists i: nat :: i < |s.pending| && s.pending[i].ConflictEntry? && s.pending[i].uuid == token
  {
    forall i: nat | i < |s.pending| && s.pending[i].ConflictEntry?
      ensures |s.pending[i].conflicts| == 1 && s.pending[i].conflicts[0].token == s.pending[i].uuid
    {
      assert s.pending[i] in s.pending && EntryOk(s.book.tuners.Keys, s.pending[i]);
    }
    hide Inv;
  }

  lemma HeldRecordMeans(s: Book, t: Token)
    requires OneHome(s)
    ensures IsHeld(s, t) && Lookup(s, t).activity == Record <==> HeldRecord(s, t)
  {
    hide HomeOf;
  }

  // The recorder's answer closes the question it names, and releases the Record if the asking client can be told.
  lemma CancelAnswerExact(s: State, online: set<ClientId>, client: ClientId, token: Token, i: nat)
    requires Inv(s) && i < |s.pending| && s.pending[i].CancelRecordingEntry? && s.pending[i].token == token
    ensures CancelRecordingReply(s, online, client, s.pending[i].uuid, token) ==
      if client == 0 || !HeldRecord(s.book, token) then s
      else if s.pending[i].client in online then Shorter(s, i).(book := Drop(s.book, token))
      else Shorter(s, i)
  {
    InvParts(s);
    SoundParts(s.book);
    HeldRecordMeans(s.book, token);
    EntryAt(s, i);
    RemovedIs(s, s, i);
    hide Inv, FindPending, RemovePending, IsHeld, Lookup, Shorter, Drop, Sound, Supply, Listed, Once;
  }

  lemma CancelAnswerIgnored(s: State, online: set<ClientId>, client: ClientId, uuid: Uuid, token: Token)
    requires forall i: nat :: i < |s.pending| && s.pending[i].CancelRecordingEntry? && s.pending[i].uuid == uuid ==> s.pending[i].token != token
    ensures CancelRecordingReply(s, online, client, uuid, token) == s
  {
    var p := FindPending(s.pending, uuid);
    if p.Some? {
      var i :| 0 <= i < |s.pending| && s.pending[i] == p.value;
    }
    hide FindPending, IsHeld, Lookup, RemovePending, Drop;
  }
}
