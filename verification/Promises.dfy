// What a waiting request can count on: it is granted, or it is withdrawn for a reason that can be named.
module Promises {
  import opened Domain
  import opened Registry
  import opened Invariants
  import opened Plain
  import opened RecordAnswers
  import opened LiveRequests
  import opened RecordRequests
  import opened Lifecycle
  import opened Protocol
  import opened ProtocolInvariants
  import opened Reevaluation
  import opened ProtocolSteps
  import opened ReserveSteps
  import opened Disconnection
  import opened Runs
  import opened Timeouts
  import opened Updates

  // ---------------------------------------------------------------- claims

  ghost predicate StandsFor(p: Pending, u: Uuid) {
    !p.CancelRecordingEntry? && p.request.uuid == u
  }

  // The request has been granted, or an entry stands for it.
  ghost predicate Claimed(s: State, u: Uuid) {
    u in s.granted || exists p :: p in s.pending && StandsFor(p, u)
  }

  // The two ways in which a timeout ends a request without a grant: an emergency channel, which the recorder
  // is told of, and a viewer who would have to be asked through a recorder that is not there.
  ghost predicate Dropped(s: State, online: set<ClientId>, p: Pending)
    requires p.ConflictEntry?
  {
    p.parent in s.book.tuners &&
    exists t :: s.book.tuners[p.parent].Keys == {t} && StoppedBy(s.book.tuners[p.parent][t], online, p.request)
  }

  predicate StoppedBy(r: Reservation, online: set<ClientId>, q: ReserveTuner) {
    if Emergency(r, q) then RECORDER_CLIENT in online else r.activity == Live && RECORDER_CLIENT !in online
  }

  // The events that end a request without a grant: the user's cancellation while it waits, and a timeout that
  // drops it, by its own clock or by a re-evaluation once the conflict is over.
  ghost predicate GivesUp(sys: System, e: Event, u: Uuid) {
    var s := sys.state;
    match e
    case CancelRecordingRequest(_, _, token) =>
      exists i: nat :: i < |s.pending| && s.pending[i].ConflictEntry? && StandsFor(s.pending[i], u)
        && s.pending[i].uuid == token && s.pending[i].client in Online(sys)
    case PendingTimer(id) =>
      id in s.pendingTimers && s.pendingTimers[id].future <= s.book.now &&
      exists i: nat :: i < |s.pending| && s.pending[i].ConflictEntry? && StandsFor(s.pending[i], u)
        && s.pending[i].uuid == id && Dropped(s, Online(sys), s.pending[i])
    case ReservationUpdated =>
      exists i: nat :: i < |s.pending| && StandsFor(s.pending[i], u)
        && OverAt(s, Online(sys), i) && Dropped(After(s, Online(sys), i), Online(sys), s.pending[i])
    case _ => false
  }

  lemma OutcomeOf(b: State, online: set<ClientId>, p: Pending, mid: State, ok: bool)
    requires p.ConflictEntry? && TimedOut(b, online, p, mid, ok)
    ensures Dropped(b, online, p) ==> ok && mid.granted == b.granted && mid.pending == b.pending
    ensures ok && !Dropped(b, online, p) ==>
      || mid.granted == b.granted + multiset{p.request.uuid}
      || mid.pending == b.pending + [CancelLiveEntry(b.uuid(b.issued), p.request, p.parent)]
    ensures !ok ==> mid.granted == b.granted && mid.pending == b.pending
    ensures mid.pending == b.pending || mid.pending == b.pending + [CancelLiveEntry(b.uuid(b.issued), p.request, p.parent)]
    ensures b.granted <= mid.granted
  {
    var h := b.book.tuners[p.parent];
    hide Put, Promised, Refuses, Emergency, IsHybrid;
    if exists t :: h.Keys == {t} {
      var t :| h.Keys == {t};
      LoneSize(h, t);
    }
  }

  lemma LoneSize(h: Holdings, t: Token)
    requires h.Keys == {t}
    ensures |h| == 1 && h != map[] && forall u :: h.Keys == {u} ==> u == t
  {
    assert |h| == |h.Keys|;
    forall u | h.Keys == {u} ensures u == t { assert u in h.Keys; }
  }

  // ---- events that leave every claim

  ghost predicate Keeps(s: State, s': State) {
    s.granted <= s'.granted && forall p :: p in s.pending && !p.CancelRecordingEntry? ==> p in s'.pending
  }

  lemma KeepsClaims(s: State, s': State, u: Uuid)
    requires Keeps(s, s') && Claimed(s, u)
    ensures Claimed(s', u)
  {
  }

  lemma ReserveKeeps(s: State, q: ReserveTuner, client: ClientId)
    ensures Keeps(s, Reserve(s, q, client))
  {
    hide ReserveLive, ReserveRecord;
  }

  lemma GrantKeeps(s: State, q: ReserveTuner, parent: TunerId)
    ensures var s' := Grant(s, q, parent).0; s'.pending == s.pending && s.granted <= s'.granted
  {
    hide Insert, GrantedRecord;
  }

  // ---- one entry less

  lemma ShorterMeans(s: State, i: nat)
    requires i < |s.pending| && DistinctIds(s.pending)
    ensures forall p :: p in Shorter(s, i).pending <==> p in s.pending && p != s.pending[i]
    ensures Shorter(s, i).granted == s.granted
  {
    var rest := Shorter(s, i).pending;
    forall p ensures p in rest <==> p in s.pending && p != s.pending[i] {
      if p in rest {
        var m :| 0 <= m < |rest| && rest[m] == p;
        assert p == if m < i then s.pending[m] else s.pending[m + 1];
      }
      if p in s.pending && p != s.pending[i] {
        var m :| 0 <= m < |s.pending| && s.pending[m] == p;
        assert rest[if m < i then m else m - 1] == p;
      }
    }
  }

  lemma ClaimAt(s: State, u: Uuid) returns (k: nat)
    requires Inv(s) && Claimed(s, u) && u !in s.granted
    ensures k < |s.pending| && StandsFor(s.pending[k], u)
  {
    var p :| p in s.pending && StandsFor(p, u);
    k :| 0 <= k < |s.pending| && s.pending[k] == p;
  }

  // An entry that goes without a grant takes its own request's claim and no other.
  lemma WithoutEntry(s: State, i: nat, u: Uuid, s': State)
    requires Inv(s) && i < |s.pending| && Claimed(s, u)
    requires s'.pending == Shorter(s, i).pending && s'.granted == s.granted
    ensures Claimed(s', u) <==> !StandsFor(s.pending[i], u)
  {
    InvParts(s);
    ShorterMeans(s, i);
    if StandsFor(s.pending[i], u) {
      NotGranted(s, i);
      forall p | p in s'.pending ensures !StandsFor(p, u) {
        var m: nat :| m < |s.pending| && s.pending[m] == p;
        if StandsFor(p, u) { if m < i { OneEntry(s, m, i); } else { OneEntry(s, i, m); } }
      }
    } else if u !in s.granted {
      var k := ClaimAt(s, u);
      assert s.pending[k] in s'.pending;
    }
  }

  // An entry traded for a grant, or for a question that stands for the same request.
  lemma Traded(s: State, mid: State, i: nat, u: Uuid)
    requires Inv(s) && i < |s.pending| <= |mid.pending| && Claimed(s, u) && !s.pending[i].CancelRecordingEntry?
    requires DistinctIds(mid.pending) && s.pending <= mid.pending && s.granted <= mid.granted
    requires || mid.granted == s.granted + multiset{s.pending[i].request.uuid}
             || exists x :: x in mid.pending && x != s.pending[i] && x.CancelLiveEntry? && x.request == s.pending[i].request
    ensures Claimed(Shorter(mid, i), u)
  {
    assert mid.pending[i] == s.pending[i];
    ShorterMeans(mid, i);
    if u !in mid.granted {
      var k := ClaimAt(s, u);
      assert mid.pending[k] == s.pending[k];
      assert s.pending[k] in mid.pending;
      if k == i {
        var x :| x in mid.pending && x != s.pending[i] && x.CancelLiveEntry? && x.request == s.pending[i].request;
        assert StandsFor(x, u) && x in Shorter(mid, i).pending;
      } else {
        assert s.pending[k] != s.pending[i] by { OtherId(s.pending, k, i); }
        assert s.pending[k] in Shorter(mid, i).pending;
      }
    }
  }

  // ---- a pending timer

  lemma ClaimedSame(s: State, s': State, u: Uuid)
    requires s'.pending == s.pending && s'.granted == s.granted
    ensures Claimed(s', u) <==> Claimed(s, u)
  {
  }

  lemma AppendDistinct(s: State, x: Pending)
    requires DistinctIds(s.pending) && x.uuid !in Ids(s.pending)
    ensures DistinctIds(s.pending + [x]) && x !in s.pending && s.pending <= s.pending + [x]
  {
    forall i | 0 <= i < |s.pending| ensures s.pending[i].uuid in Ids(s.pending) {}
  }

  lemma ConflictClaims(s: State, online: set<ClientId>, i: nat, mid: State, ok: bool, u: Uuid)
    requires Inv(s) && i < |s.pending| && s.pending[i].ConflictEntry? && Claimed(s, u)
    requires TimedOut(s, online, s.pending[i], mid, ok) && i < |mid.pending|
    ensures Claimed(if ok then Shorter(mid, i) else mid, u) <==> !(StandsFor(s.pending[i], u) && Dropped(s, online, s.pending[i]))
  {
    hide *;
    var p := s.pending[i];
    InvParts(s);
    OutcomeOf(s, online, p, mid, ok);
    if !ok {
      ClaimedSame(s, mid, u);
    } else if Dropped(s, online, p) {
      ShorterSame(s, mid, i);
      WithoutEntry(s, i, u, Shorter(mid, i));
    } else {
      MintedUnused(s);
      MintedIs(s);
      var x := CancelLiveEntry(s.uuid(s.issued), p.request, p.parent);
      AppendDistinct(s, x);
      assert p in s.pending;
      if mid.pending == s.pending + [x] { assert x in mid.pending; }
      NotRecording(p);
      Traded(s, mid, i, u);
    }
  }

  lemma NotRecording(p: Pending)
    requires p.ConflictEntry?
    ensures !p.CancelRecordingEntry?
  {
  }

  lemma MintedIs(s: State)
    ensures Minted(s) == s.uuid(s.issued)
  {
  }

  lemma ShorterSame(s: State, mid: State, i: nat)
    requires i < |s.pending| && mid.pending == s.pending && mid.granted == s.granted
    ensures Shorter(mid, i).pending == Shorter(s, i).pending && Shorter(mid, i).granted == s.granted
  {
  }

  lemma GivenWayMeans(s: State, i: nat, q: ReserveTuner, parent: TunerId, s': State)
    requires i < |s.pending| && GivenWay(s, i, q, parent, s')
    ensures || (s'.pending == s.pending && s'.granted == s.granted)
            || (s'.pending == Shorter(s, i).pending && s'.granted == s.granted + multiset{q.uuid})
  {
    hide Promised, Refuses, Put;
  }

  lemma GivenWayClaims(s: State, i: nat, s': State, u: Uuid)
    requires Inv(s) && i < |s.pending| && s.pending[i].CancelLiveEntry? && Claimed(s, u)
    requires GivenWay(s, i, s.pending[i].request, s.pending[i].parent, s')
    ensures Claimed(s', u)
  {
    hide *;
    var p := s.pending[i];
    InvParts(s);
    GivenWayMeans(s, i, p.request, p.parent, s');
    if s'.pending == s.pending && s'.granted == s.granted {
      ClaimedSame(s, s', u);
    } else {
      var mid := s.(granted := s.granted + multiset{p.request.uuid});
      Traded(s, mid, i, u);
      ShorterGranted(s, mid, i);
      ClaimedSame(Shorter(mid, i), s', u);
    }
  }

  lemma ShorterGranted(s: State, mid: State, i: nat)
    requires i < |s.pending| && mid.pending == s.pending
    ensures Shorter(mid, i).pending == Shorter(s, i).pending && Shorter(mid, i).granted == mid.granted
  {
  }

  lemma ResolvesClaims(s: State, online: set<ClientId>, i: nat, s': State, u: Uuid)
    requires Inv(s) && i < |s.pending| && Resolves(s, online, i, s') && Claimed(s, u)
    ensures Claimed(s', u) <==> !(s.pending[i].ConflictEntry? && StandsFor(s.pending[i], u) && Dropped(s, online, s.pending[i]))
  {
    hide Inv, Claimed, Shorter, Dropped, TimedOut, GivenWay;
    match s.pending[i]
    case CancelRecordingEntry(_, client, _) =>
      if client in online {
        ShorterSame(s, s, i);
        WithoutEntry(s, i, u, s');
      }
    case CancelLiveEntry(_, request, parent) =>
      GivenWayClaims(s, i, s', u);
    case ConflictEntry(_, _, _, _, _, _) =>
      var mid, ok :| TimedOut(s, online, s.pending[i], mid, ok) && i < |mid.pending| && s' == if ok then Shorter(mid, i) else mid;
      ConflictClaims(s, online, i, mid, ok, u);
  }

  lemma PendingTimerClaims(sys: System, id: Uuid, u: Uuid)
    requires Inv(sys.state) && Admissible(sys, PendingTimer(id)) && Claimed(sys.state, u)
    ensures Claimed(Step(sys, PendingTimer(id)).state, u) <==> !GivesUp(sys, PendingTimer(id), u)
  {
    hide *;
    var s, online := sys.state, Online(sys);
    PendingTimerIs(sys, id);
    var s1 := PendingMarked(s, id);
    PendingMarkedInv(s, id);
    MarkedIs(s, id);
    ClaimedSame(s, s1, u);
    if s.pendingTimers[id].future <= s.book.now {
      var i := EntryOf(s, id);
      TimeoutExact(s1, online, i);
      ResolvesClaims(s1, online, i, PendingDue(s1, online, id), u);
      if s.pending[i].ConflictEntry? { DroppedSame(s, s1, online, i); }
      GivesUpTimer(sys, id, u, i);
    } else {
      GivesUpEarly(sys, id, u);
    }
  }

  lemma EntryOf(s: State, id: Uuid) returns (i: nat)
    requires Inv(s) && id in s.pendingTimers
    ensures i < |s.pending| && s.pending[i].uuid == id
  {
    i :| 0 <= i < |s.pending| && s.pending[i].uuid == id;
  }

  lemma PendingTimerIs(sys: System, id: Uuid)
    requires Inv(sys.state) && Admissible(sys, PendingTimer(id))
    ensures var s := sys.state;
      && id in s.pendingTimers && (s.pendingTimers[id].future <= s.book.now ==> RoomToSettle(s, id))
      && Step(sys, PendingTimer(id)).state ==
           if s.pendingTimers[id].future <= s.book.now then PendingDue(PendingMarked(s, id), Online(sys), id) else PendingMarked(s, id)
  {
    hide *;
    TimerStep(sys, id);
    TaskedTimer(sys.state, id);
    TimerTask(sys.state, Online(sys), id);
  }

  lemma TimerStep(sys: System, id: Uuid)
    ensures Step(sys, PendingTimer(id)).state == PendingClock(sys.state, Online(sys), id)
    ensures Admissible(sys, PendingTimer(id)) ==>
      && id in sys.state.pendingTimers
      && (sys.state.pendingTimers[id].future <= sys.state.book.now ==> RoomToSettle(sys.state, id))
  {
    hide PendingClock, RoomToSettle;
  }

  lemma TimerTask(s: State, online: set<ClientId>, id: Uuid)
    requires id in s.pendingTimers && s.pendingTimers[id].task == Some(id)
    ensures PendingClock(s, online, id) ==
      if s.pendingTimers[id].future <= s.book.now then PendingDue(PendingMarked(s, id), online, id) else PendingMarked(s, id)
  {
    hide PendingDue, PendingMarked;
  }

  lemma TaskedTimer(s: State, id: Uuid)
    requires Inv(s)
    ensures id in s.pendingTimers ==> s.pendingTimers[id].task == Some(id)
  {
  }

  lemma MarkedIs(s: State, id: Uuid)
    requires id in s.pendingTimers
    ensures var s' := PendingMarked(s, id);
      && s'.book == s.book && s'.pending == s.pending && s'.granted == s.granted
      && (RoomToSettle(s, id) ==> RoomToSettle(s', id))
  {
    hide GrantRoom;
  }

  lemma DroppedSame(s: State, s': State, online: set<ClientId>, i: nat)
    requires s'.book == s.book && i < |s.pending| && s.pending[i].ConflictEntry?
    ensures Dropped(s', online, s.pending[i]) <==> Dropped(s, online, s.pending[i])
  {
  }

  lemma GivesUpTimer(sys: System, id: Uuid, u: Uuid, i: nat)
    requires Inv(sys.state) && i < |sys.state.pending| && sys.state.pending[i].uuid == id
    requires id in sys.state.pendingTimers && sys.state.pendingTimers[id].future <= sys.state.book.now
    ensures var p := sys.state.pending[i];
      GivesUp(sys, PendingTimer(id), u) <==> p.ConflictEntry? && StandsFor(p, u) && Dropped(sys.state, Online(sys), p)
  {
    InvParts(sys.state);
    forall j: nat | j < |sys.state.pending| && sys.state.pending[j].uuid == id ensures j == i { OtherId(sys.state.pending, i, j); }
    hide Dropped, Inv, StandsFor;
  }

  lemma GivesUpEarly(sys: System, id: Uuid, u: Uuid)
    requires id in sys.state.pendingTimers && sys.state.pendingTimers[id].future > sys.state.book.now
    ensures !GivesUp(sys, PendingTimer(id), u)
  {
  }

  // ---- a cancellation

  lemma CancelClaims(sys: System, client: ClientId, uuid: Uuid, token: Token, u: Uuid)
    requires Inv(sys.state) && uuid !in Ids(sys.state.pending) && Claimed(sys.state, u)
    ensures var e := CancelRecordingRequest(client, uuid, token);
      Claimed(Step(sys, e).state, u) <==> !GivesUp(sys, e, u)
  {
    hide *;
    var s, e := sys.state, CancelRecordingRequest(client, uuid, token);
    var s' := CancelRecording(s, Online(sys), client, uuid, token);
    CancelStep(sys, client, uuid, token);
    if i: nat :| i < |s.pending| && s.pending[i].ConflictEntry? && s.pending[i].uuid == token {
      WithdrawalExact(s, Online(sys), client, uuid, i);
      GivesUpCancel(sys, client, uuid, token, u, i);
      if s.pending[i].client in Online(sys) {
        ShorterSame(s, s, i);
        WithoutEntry(s, i, u, s');
      }
    } else {
      QuestionExact(s, Online(sys), client, uuid, token);
      NoCancel(sys, client, uuid, token, u);
      QuestionKeeps(s, s');
      KeepsClaims(s, s', u);
    }
  }

  lemma CancelStep(sys: System, client: ClientId, uuid: Uuid, token: Token)
    ensures Step(sys, CancelRecordingRequest(client, uuid, token)).state == CancelRecording(sys.state, Online(sys), client, uuid, token)
  {
    hide CancelRecording;
  }

  lemma NoCancel(sys: System, client: ClientId, uuid: Uuid, token: Token, u: Uuid)
    requires forall i: nat :: i < |sys.state.pending| && sys.state.pending[i].ConflictEntry? ==> sys.state.pending[i].uuid != token
    ensures !GivesUp(sys, CancelRecordingRequest(client, uuid, token), u)
  {
  }

  lemma QuestionKeeps(s: State, s': State)
    requires s'.granted == s.granted && s.pending <= s'.pending
    ensures Keeps(s, s')
  {
    forall p | p in s.pending ensures p in s'.pending {
      var i :| 0 <= i < |s.pending| && s.pending[i] == p;
      assert s'.pending[i] == p;
    }
  }

  lemma GivesUpCancel(sys: System, client: ClientId, uuid: Uuid, token: Token, u: Uuid, i: nat)
    requires Inv(sys.state) && i < |sys.state.pending| && sys.state.pending[i].uuid == token && sys.state.pending[i].ConflictEntry?
    ensures var p := sys.state.pending[i];
      GivesUp(sys, CancelRecordingRequest(client, uuid, token), u) <==> StandsFor(p, u) && p.client in Online(sys)
  {
    InvParts(sys.state);
    forall j: nat | j < |sys.state.pending| && sys.state.pending[j].uuid == token ensures j == i { OtherId(sys.state.pending, i, j); }
    hide Inv, StandsFor;
  }

  lemma AnswerClaims(s: State, online: set<ClientId>, client: ClientId, uuid: Uuid, token: Token, u: Uuid)
    requires Inv(s) && Claimed(s, u)
    ensures Claimed(CancelRecordingReply(s, online, client, uuid, token), u)
  {
    var s' := CancelRecordingReply(s, online, client, uuid, token);
    if i: nat :| i < |s.pending| && s.pending[i].CancelRecordingEntry? && s.pending[i].uuid == uuid && s.pending[i].token == token {
      CancelAnswerExact(s, online, client, token, i);
      hide Inv, Claimed, Shorter, CancelRecordingReply, Drop, HeldRecord;
      if client != 0 && HeldRecord(s.book, token) {
        ShorterSame(s, s, i);
        WithoutEntry(s, i, u, s');
      }
    } else {
      InvParts(s);
      CancelAnswerIgnored(s, online, client, uuid, token);
    }
  }

  lemma CancelLiveClaims(s: State, id: Uuid, u: Uuid)
    requires Inv(s) && RoomToSettle(s, id) && Claimed(s, u)
    ensures Claimed(CancelLiveReply(s, id), u)
  {
    CancelLiveAnswerExact(s, id);
    hide Inv, Claimed, GivenWay, CancelLiveReply, RoomToSettle;
    if i: nat :| i < |s.pending| && s.pending[i].uuid == id && s.pending[i].CancelLiveEntry? {
      GivenWayClaims(s, i, CancelLiveReply(s, id), u);
    }
  }

  // ---- a re-evaluation

  lemma UpdateClaims(s: State, online: set<ClientId>, u: Uuid)
    requires Inv(s) && Claimed(s, u)
    ensures Claimed(Reevaluate(s, online), u) <==>
      !exists i: nat :: i < |s.pending| && StandsFor(s.pending[i], u) && OverAt(s, online, i) && Dropped(After(s, online, i), online, s.pending[i])
  {
    hide *;
    var s' := Reevaluate(s, online);
    ListAfter(s, online);
    if u in s.granted {
      GrantedStays(s, online, u);
    } else {
      var k := ClaimAt(s, u);
      OnlyHere(s, k, u);
      if s.pending[k].ConflictEntry? {
        ConflictAfter(s, online, k, u);
      } else {
        QuestionStays(s, online, k, u);
      }
    }
  }

  lemma OnlyHere(s: State, k: nat, u: Uuid)
    requires Inv(s) && k < |s.pending| && StandsFor(s.pending[k], u)
    ensures forall i: nat :: i < |s.pending| && StandsFor(s.pending[i], u) ==> i == k
    ensures u !in s.granted
  {
    NotGranted(s, k);
    forall i: nat | i < |s.pending| && StandsFor(s.pending[i], u) ensures i == k {
      if i < k { OneEntry(s, i, k); } else if k < i { OneEntry(s, k, i); }
    }
  }

  lemma GrantedStays(s: State, online: set<ClientId>, u: Uuid)
    requires Inv(s) && u in s.granted
    ensures Claimed(Reevaluate(s, online), u)
    ensures forall i: nat :: i < |s.pending| ==> !StandsFor(s.pending[i], u)
  {
    forall i: nat | i < |s.pending| ensures !StandsFor(s.pending[i], u) {
      if StandsFor(s.pending[i], u) { NotGranted(s, i); }
    }
    SameBetween(s, online, 0, |s.pending|, u);
    AfterNone(s, online);
    ListAfter(s, online);
    hide After, Reevaluate, Inv;
  }

  lemma QuestionStays(s: State, online: set<ClientId>, k: nat, u: Uuid)
    requires Inv(s) && k < |s.pending| && StandsFor(s.pending[k], u) && !s.pending[k].ConflictEntry?
    requires forall i: nat :: i < |s.pending| && StandsFor(s.pending[i], u) ==> i == k
    ensures Claimed(Reevaluate(s, online), u)
    ensures forall i: nat :: i < |s.pending| && StandsFor(s.pending[i], u) ==> !OverAt(s, online, i)
  {
    ListAfter(s, online);
    OverAtMeans(s, online, k);
    AfterStep(s, online, k);
    hide After, Reevaluate, Inv, OverAt, Completes;
  }

  lemma ConflictAfter(s: State, online: set<ClientId>, k: nat, u: Uuid)
    requires Inv(s) && k < |s.pending| && StandsFor(s.pending[k], u) && s.pending[k].ConflictEntry?
    requires (forall i: nat :: i < |s.pending| && StandsFor(s.pending[i], u) ==> i == k) && u !in s.granted
    ensures Claimed(Reevaluate(s, online), u) <==> !(OverAt(s, online, k) && Dropped(After(s, online, k), online, s.pending[k]))
  {
    hide *;
    var s', p, b := Reevaluate(s, online), s.pending[k], After(s, online, k);
    StandsForMeans(p, u);
    ReevaluationExact(s, online, k);
    AfterAlong(s, online, k);
    AlongParts(s, b, k, CompletedIds(s, online, k));
    WalkingParts(b, k, CompletedIds(s, online, k));
    SoundParts(b.book);
    ViewerDrawn(s, k);
    OverStays(s, b, p);
    OverAtMeans(s, online, k);
    if Over(s.book, p) {
      var mid, ok :| TimedOut(b, online, p, mid, ok)
        && (p in s'.pending <==> !ok) && s'.granted[u] == mid.granted[u] && b.granted[u] == s.granted[u]
        && forall x :: AskedFor(s', u, x) <==> AskedFor(mid, u, x) && x !in b.pending;
      OutcomeOf(b, online, p, mid, ok);
      OnlyThese(s, online, k, u);
      NewQuestion(b, p);
      ClaimedThen(s', b, mid, ok, p, u, Dropped(b, online, p));
    } else {
      assert p in s'.pending;
      ClaimedBy(s', p, u);
    }
  }

  lemma StandsForMeans(p: Pending, u: Uuid)
    requires StandsFor(p, u)
    ensures p.request.uuid == u
  {
  }

  lemma ClaimedBy(s: State, p: Pending, u: Uuid)
    requires p in s.pending && StandsFor(p, u)
    ensures Claimed(s, u)
  {
  }

  lemma OnlyThese(s: State, online: set<ClientId>, k: nat, u: Uuid)
    requires Inv(s) && k < |s.pending| && forall i: nat :: i < |s.pending| && StandsFor(s.pending[i], u) ==> i == k
    ensures var s' := Reevaluate(s, online);
      forall x :: x in s'.pending && StandsFor(x, u) ==> x == s.pending[k] || AskedFor(s', u, x)
  {
    var s' := Reevaluate(s, online);
    ListAfter(s, online);
    hide After, Reevaluate, Inv, Completes;
    forall x | x in s'.pending && StandsFor(x, u) ensures x == s.pending[k] || AskedFor(s', u, x) {
      if x in s.pending {
        var i: nat :| i < |s.pending| && s.pending[i] == x;
      }
    }
  }

  lemma NewQuestion(b: State, p: Pending)
    requires Supply(b) && p.ConflictEntry?
    ensures CancelLiveEntry(b.uuid(b.issued), p.request, p.parent) !in b.pending
  {
    forall i | 0 <= i < |b.pending| ensures b.pending[i].uuid in Ids(b.pending) {}
  }

  lemma ClaimedThen(s': State, b: State, mid: State, ok: bool, p: Pending, u: Uuid, dropped: bool)
    requires p.ConflictEntry? && StandsFor(p, u)
    requires (p in s'.pending <==> !ok) && s'.granted[u] == mid.granted[u] && b.granted[u] == 0
    requires forall x :: AskedFor(s', u, x) <==> AskedFor(mid, u, x) && x !in b.pending
    requires forall x :: x in s'.pending && StandsFor(x, u) ==> x == p || AskedFor(s', u, x)
    requires dropped ==> ok && mid.granted == b.granted && mid.pending == b.pending
    requires var x := CancelLiveEntry(b.uuid(b.issued), p.request, p.parent);
      x !in b.pending && (ok && !dropped ==> mid.granted == b.granted + multiset{p.request.uuid} || mid.pending == b.pending + [x])
    ensures Claimed(s', u) <==> !dropped
  {
    var x := CancelLiveEntry(b.uuid(b.issued), p.request, p.parent);
    if dropped {
      forall y | y in s'.pending ensures !StandsFor(y, u) {
        assert !AskedFor(s', u, y);
      }
    } else if ok && mid.pending == b.pending + [x] {
      assert AskedFor(mid, u, x);
      assert AskedFor(s', u, x);
    }
  }

  // ---- every event, and every run

  // A request that has a claim keeps it, through every event but those that give it up.
  lemma ClaimKeptIff(sys: System, e: Event, u: Uuid)
    requires Inv(sys.state) && Admissible(sys, e) && Claimed(sys.state, u)
    ensures Claimed(Step(sys, e).state, u) <==> !GivesUp(sys, e, u)
  {
    var s := sys.state;
    hide Inv, Claimed, Reserve, Expire, StartClock, ExpireClock, PendingClock, Reevaluate, CancelLiveReply, CancelRecording,
      CancelRecordingReply, EndSession, Forget, ClientsOn, RoomToSettle, StartsInTune, ReserveAdmissible, Undrawn, Ids,
      Dropped, After, OverAt, StandsFor;
    match e
    case ReserveRequest(q, client) => ReserveKeeps(s, q, client); KeepsClaims(s, Reserve(s, q, client), u);
    case PendingTimer(uuid) => PendingTimerClaims(sys, uuid, u);
    case ReservationUpdated => UpdateClaims(s, Online(sys), u);
    case CancelLiveAnswer(uuid) => CancelLiveClaims(s, uuid, u);
    case CancelRecordingRequest(client, uuid, token) => CancelClaims(sys, client, uuid, token, u);
    case CancelRecordingAnswer(client, uuid, token) => AnswerClaims(s, Online(sys), client, uuid, token, u);
    case EmptyMessage(client, conn) => SessionSame(sys, client, conn); ClaimedSame(s, Step(sys, e).state, u);
    case Disconnected(conn) => ForgetSame(sys, ClientsOn(sys.clients, conn)); ClaimedSame(s, Step(sys, e).state, u);
    case _ => ClaimedSame(s, Step(sys, e).state, u);
  }

  lemma ForgetSame(sys: System, clients: set<ClientId>)
    ensures var s' := Forget(sys, clients).state; s'.pending == sys.state.pending && s'.granted == sys.state.granted
  {
  }

  lemma SessionSame(sys: System, client: ClientId, conn: Conn)
    ensures var s' := EndSession(sys, client, conn).state; s'.pending == sys.state.pending && s'.granted == sys.state.granted
  {
    hide DropSet, OwnedBy, ClientsOn;
  }

  // Over whole runs: a request that waits at some point, and at the end neither waits nor has been granted, was
  // cancelled by the user or dropped in between.
  lemma {:induction false} LostOnlyIfGivenUp(sys: System, events: seq<Event>, k: nat, u: Uuid)
    requires Initial(sys) && AdmissibleRun(sys, events) && k <= |events| && Claimed(Run(sys, events[..k]).state, u)
    ensures Claimed(Run(sys, events).state, u) || exists i :: k <= i < |events| && GivesUp(Run(sys, events[..i]), events[i], u)
    decreases |events|
  {
    hide *;
    if k == |events| {
      assert events[..k] == events;
    } else {
      var n := |events| - 1;
      var before := events[..n];
      assert before[..k] == events[..k];
      LastEvent(sys, events);
      RunInv(sys, before);
      LostOnlyIfGivenUp(sys, before, k, u);
      if Claimed(Run(sys, before).state, u) {
        ClaimKeptIff(Run(sys, before), events[n], u);
      } else {
        var i :| k <= i < |before| && GivesUp(Run(sys, before[..i]), before[i], u);
        assert before[..i] == events[..i] && before[i] == events[i];
      }
    }
  }
}
