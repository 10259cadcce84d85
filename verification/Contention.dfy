// The filter "not in conflict" of the Record search, and the Lives that several conflicts name.
module Contention {
  import opened Domain
  import opened Ordering
  import opened Registry
  import opened LivePlacement
  import opened Invariants
  import opened LiveRequests
  import opened RecordPlacement
  import opened RecordRequests
  import opened Lifecycle
  import opened Protocol
  import opened ProtocolInvariants
  import opened Reevaluation
  import opened ProtocolSteps
  import opened ReserveSteps
  import opened Disconnection
  import opened Runs
  import Retention

  // ---------------------------------------------------------------- what the filter excludes

  ghost predicate TempsUnheld(s: State) {
    forall t :: t in Temps(s.pending) ==> !IsHeld(s.book, t)
  }

  lemma {:induction false} UnconflictedAll(temps: set<Token>, tokens: seq<Token>)
    requires forall t :: t in tokens ==> t !in temps
    ensures Unconflicted(temps, tokens) == tokens
  {
    if tokens != [] { UnconflictedAll(temps, tokens[1..]); }
  }

  lemma LivesUnfiltered(s: Book, temps: set<Token>)
    requires forall t :: t in temps ==> !IsHeld(s, t)
    ensures LivesOnLiveTuners(s, temps) == LivesOnLiveTuners(s, {})
  {
    var lives := KeepTokens(s, ByActivity(Live), TokensOn(s, IdsInState(s, LiveState)));
    KeptTokens(s, ByActivity(Live), TokensOn(s, IdsInState(s, LiveState)));
    UnconflictedAll(temps, lives);
    UnconflictedAll({}, lives);
  }

  // Temporary tokens that nobody holds make no difference to the Live a Record is put in conflict with.
  lemma FilterIdle(s: Book, temps: set<Token>, r: Reservation)
    requires forall t :: t in temps ==> !IsHeld(s, t)
    ensures RecordConflict(s, temps, r) == RecordConflict(s, {}, r)
  {
    LivesUnfiltered(s, temps);
    hide LivesOnLiveTuners, KeepTokens, SkipRecorded, HybridConflict;
  }

  // ---------------------------------------------------------------- no run holds a temporary token

  // What an event may add: tokens GenerateUUID had yet to hand out, and one that was asked back.
  ghost predicate OnlyDraws(s: State, s': State, asked: Option<Token>) {
    forall t :: IsHeld(s'.book, t) ==> IsHeld(s.book, t) || Undrawn(s, t) || asked == Some(t)
  }

  // Entries may go and new ones may come, but no new conflict.
  ghost predicate NoNewConflict(s: State, s': State) {
    forall p :: p in s'.pending && p.ConflictEntry? ==> p in s.pending
  }

  lemma TempOf(pending: seq<Pending>, t: Token)
    ensures t in Temps(pending) <==>
      exists p :: p in pending && p.ConflictEntry? && exists j :: 0 <= j < |p.conflicts| && p.conflicts[j].token == t
  {
    if t in Temps(pending) {
      var i, j :| 0 <= i < |pending| && pending[i].ConflictEntry? && 0 <= j < |pending[i].conflicts| && pending[i].conflicts[j].token == t;
      assert pending[i] in pending;
    }
  }

  lemma TempsKept(s: State, s': State)
    requires NoNewConflict(s, s')
    ensures Temps(s'.pending) <= Temps(s.pending)
  {
    forall t | t in Temps(s'.pending) ensures t in Temps(s.pending) {
      TempOf(s'.pending, t);
      TempOf(s.pending, t);
    }
  }

  // The temporary token of a listed conflict is its id.
  lemma TempsAreIds(s: State)
    requires Listed(s)
    ensures Temps(s.pending) <= Ids(s.pending)
  {
    forall t | t in Temps(s.pending) ensures t in Ids(s.pending) {
      var i, j :| 0 <= i < |s.pending| && s.pending[i].ConflictEntry? && 0 <= j < |s.pending[i].conflicts|
        && s.pending[i].conflicts[j].token == t;
      assert s.pending[i] in s.pending && EntryOk(s.book.tuners.Keys, s.pending[i]);
    }
  }

  lemma StaysUnheld(s: State, s': State, asked: Option<Token>)
    requires Inv(s) && TempsUnheld(s) && OnlyDraws(s, s', asked) && NoNewConflict(s, s')
    requires asked.Some? ==> asked.value !in Temps(s.pending)
    ensures TempsUnheld(s')
  {
    InvParts(s);
    TempsAreIds(s);
    TempsKept(s, s');
    hide Temps, Ids, IsHeld, Listed, Inv;
  }

  // ---- the unconditional grant, and what builds on it

  lemma GrantDraws(s: State, q: ReserveTuner, parent: TunerId)
    requires Sound(s.book) && Supply(s) && Waitable(q) && parent in s.book.tuners && GrantRoom(s.book, q, parent)
    ensures OnlyDraws(s, Grant(s, q, parent).0, None)
  {
    var r := GrantedRecord(s.book, q, parent, Minted(s));
    Retention.GrantBook(s, q, parent);
    assert r.token == Minted(s) && Undrawn(s, Minted(s));
    hide *;
    GrantInsertable(s, q, parent);
    InsertSound(s.book, r, parent, RECORDER_CLIENT);
    PutDraws(s, Grant(s, q, parent).0, r, parent, RECORDER_CLIENT);
    SameDraws(s, Grant(s, q, parent).0);
  }

  lemma PutDraws(s: State, s': State, r: Reservation, id: TunerId, client: ClientId)
    requires id in s.book.tuners && Undrawn(s, r.token)
    ensures s'.book == Put(s.book, r, id, client) ==> OnlyDraws(s, s', None)
  {
    PutHolds(s.book, r, id, client);
    if s'.book == Put(s.book, r, id, client) {
      forall t | IsHeld(s'.book, t) && t != r.token ensures IsHeld(s.book, t) {
        var i :| Holds(s'.book, i, t);
        assert Holds(s.book, i, t);
      }
    }
  }

  lemma SameDraws(s: State, s': State)
    ensures s'.book == s.book ==> OnlyDraws(s, s', None)
  {
  }

  lemma DrawsTwice(s: State, s1: State, s2: State)
    requires OnlyDraws(s, s1, None) && OnlyDraws(s1, s2, None) && s1.uuid == s.uuid && s1.issued >= s.issued
    ensures OnlyDraws(s, s2, None)
  {
  }

  lemma ConflictDraws(s: State, online: set<ClientId>, p: Pending)
    requires Sound(s.book) && Supply(s) && Listed(s) && p in s.pending && p.ConflictEntry?
    ensures OnlyDraws(s, ConflictTimeout(s, online, p).0, None)
  {
    hide *;
    ConflictTimeoutIs(s, online, p);
    SameDraws(s, ConflictTimeout(s, online, p).0);
    var h := s.book.tuners[p.parent];
    if |h| == 1 {
      Retention.LoneBook(s, online, p, h[Sorted(h.Keys)[0]]);
    } else if |h| <= 2 {
      FewHaveRoom(s.book, p.request, p.parent);
      GrantDraws(s, p.request, p.parent);
    }
  }

  lemma {:induction false} WalkDraws(s: State, online: set<ClientId>, i: nat, done: seq<Uuid>)
    requires Walking(s, i, done)
    ensures i <= |s.pending| && OnlyDraws(s, Walk(s, online, i, done).0, None)
    decreases if i <= |s.pending| then Work(s.pending, i) else 0
  {
    hide *;
    WalkingParts(s, i, done);
    if i == |s.pending| {
      WalkEnds(s, online, done);
      SameDraws(s, s);
    } else {
      WalkStep(s, online, i, done);
      var p := s.pending[i];
      if p.ConflictEntry? && Ripe(s.book, p) {
        var (s1, ok) := ConflictTimeout(s, online, p);
        var done1 := if ok then done + [p.uuid] else done;
        Visit(s, online, i, done);
        ProgressParts(s, s1);
        ConflictDraws(s, online, p);
        WalkDraws(s1, online, i + 1, done1);
        DrawsTwice(s, s1, Walk(s1, online, i + 1, done1).0);
      } else {
        SettledSkip(s.pending, i, done);
        WalkingFrom(s, i + 1, done);
        WalkDraws(s, online, i + 1, done);
      }
    }
  }

  lemma ProgressParts(s: State, s': State)
    requires Progress(s, s', AddedBy(s, s'))
    ensures s'.uuid == s.uuid && s'.issued >= s.issued
  {
  }

  // ---- one event

  ghost predicate LessHeld(b: Book, b': Book) {
    forall t :: IsHeld(b', t) ==> IsHeld(b, t)
  }

  lemma LessUnheld(s: State, s': State)
    requires TempsUnheld(s) && LessHeld(s.book, s'.book) && NoNewConflict(s, s')
    ensures TempsUnheld(s')
  {
    TempsKept(s, s');
    hide Temps, IsHeld, NoNewConflict;
  }

  lemma ClocksLess(s: State, t: Token)
    requires Inv(s)
    ensures t in s.book.startTimers && s.book.startTimers[t].armed ==> LessHeld(s.book, StartClock(s.book, t))
    ensures t in s.book.expireTimers && s.book.expireTimers[t].armed ==> LessHeld(s.book, ExpireClock(s.book, t))
  {
    hide *;
    InvParts(s);
    MarkedSame(s.book, t);
    if t in s.book.startTimers && s.book.startTimers[t].armed {
      var b := StartMarked(s.book, t);
      StartClockIs(s.book, t);
      ClocksHold(s.book, b);
      StartHolds(b, t);
      LessFrom(s.book, StartClock(s.book, t));
    }
    if t in s.book.expireTimers && s.book.expireTimers[t].armed {
      var b := ExpireMarked(s.book, t);
      ExpireClockIs(s.book, t);
      ClocksHold(s.book, b);
      ExpireLess(b, t);
      LessParts(b, Expire(b, t));
      LessFrom(s.book, ExpireClock(s.book, t));
    }
  }

  lemma LessFrom(b: Book, b': Book)
    requires forall t :: IsHeld(b', t) ==> IsHeld(b, t)
    ensures LessHeld(b, b')
  {
  }

  lemma LessParts(b: Book, b': Book)
    requires LessHeld(b, b')
    ensures forall t :: IsHeld(b', t) ==> IsHeld(b, t)
  {
  }

  lemma ExpireLess(b: Book, t: Token)
    ensures LessHeld(b, Expire(b, t))
  {
    DropKeeps(b, t);
  }

  lemma ForgetLess(sys: System, clients: set<ClientId>)
    ensures LessHeld(sys.state.book, Forget(sys, clients).state.book)
    ensures Forget(sys, clients).state.pending == sys.state.pending
  {
    DropSetHolds(sys.state.book, OwnedBy(sys.state.book, clients));
    hide DropSet, OwnedBy, IsHeld;
  }

  lemma TickLess(s: State, now: nat)
    requires Inv(s)
    ensures LessHeld(s.book, s.book.(now := now))
  {
    TickCoherent(s.book, now);
  }

  lemma {:induction false} RemovedAreListed(pending: seq<Pending>, u: Uuid)
    ensures forall p :: p in RemoveFirst(pending, u) ==> p in pending
  {
    if pending != [] { RemovedAreListed(pending[1..], u); }
  }

  lemma RemovalAddsNone(s: State, s': State, u: Uuid)
    requires NoNewConflict(s, s')
    ensures NoNewConflict(s, RemovePending(s', u))
  {
    RemovedAreListed(s'.pending, u);
    hide FindPending, RemoveFirst;
  }

  lemma CancelUnheld(s: State, online: set<ClientId>, client: ClientId, uuid: Uuid, token: Token)
    requires TempsUnheld(s)
    ensures TempsUnheld(CancelRecording(s, online, client, uuid, token))
    ensures TempsUnheld(CancelRecordingReply(s, online, client, uuid, token))
  {
    RemovalAddsNone(s, s, token);
    RemovalAddsNone(s, s, uuid);
    DropKeeps(s.book, token);
    RemovePendingBook(s, token);
    RemovePendingBook(s, uuid);
    hide TempsUnheld, Temps, FindPending, RemovePending, Drop, IsHeld, Lookup;
    LessUnheld(s, CancelRecording(s, online, client, uuid, token));
    LessUnheld(s, CancelRecordingReply(s, online, client, uuid, token));
  }

  // ---- settling and re-evaluation

  lemma DueDraws(s: State, online: set<ClientId>, u: Uuid)
    requires Inv(s) && RoomToSettle(s, u)
    ensures OnlyDraws(s, PendingDue(s, online, u), None) && OnlyDraws(s, CancelLiveReply(s, u), None)
  {
    hide *;
    InvParts(s);
    SameDraws(s, PendingDue(s, online, u));
    SameDraws(s, CancelLiveReply(s, u));
    Retention.DueBook(s, online, u);
    var p := FindPending(s.pending, u);
    if p.Some? {
      Retention.FoundEntry(s, p.value, u);
      if p.value.ConflictEntry? {
        ConflictDraws(s, online, p.value);
        SameBookDraws(s, ConflictTimeout(s, online, p.value).0, PendingDue(s, online, u));
      } else if p.value.CancelLiveEntry? {
        GrantDraws(s, p.value.request, p.value.parent);
        SameBookDraws(s, Grant(s, p.value.request, p.value.parent).0, PendingDue(s, online, u));
        SameBookDraws(s, Grant(s, p.value.request, p.value.parent).0, CancelLiveReply(s, u));
      }
    }
  }

  lemma SameBookDraws(s: State, s1: State, s2: State)
    requires OnlyDraws(s, s1, None) && s2.book == s1.book
    ensures OnlyDraws(s, s2, None)
  {
  }

  lemma TimeoutAddsNone(s: State, online: set<ClientId>, p: Pending)
    ensures NoNewConflict(s, Timeout(s, online, p).0)
  {
    if p.ConflictEntry? { ConflictTimeoutPending(s, online, p); }
    if p.CancelLiveEntry? { GrantKeepsPending(s, p.request, p.parent); }
    hide Grant, ConflictTimeout;
  }

  lemma DueAddsNone(s: State, online: set<ClientId>, u: Uuid)
    ensures NoNewConflict(s, PendingDue(s, online, u)) && NoNewConflict(s, CancelLiveReply(s, u))
  {
    var p := FindPending(s.pending, u);
    hide Timeout, Grant, RemovePending, FindPending, NoNewConflict;
    SameAddsNone(s);
    if p.Some? {
      TimeoutAddsNone(s, online, p.value);
      RemovalAddsNone(s, Timeout(s, online, p.value).0, u);
      if p.value.CancelLiveEntry? {
        TimeoutIsGrant(s, online, p.value);
      }
    }
  }

  lemma SameAddsNone(s: State)
    ensures NoNewConflict(s, s)
  {
  }

  lemma TimeoutIsGrant(s: State, online: set<ClientId>, p: Pending)
    requires p.CancelLiveEntry?
    ensures Timeout(s, online, p) == Grant(s, p.request, p.parent)
  {
  }

  lemma DueUnheld(s: State, online: set<ClientId>, u: Uuid)
    requires Inv(s) && RoomToSettle(s, u) && TempsUnheld(s)
    ensures TempsUnheld(PendingDue(s, online, u)) && TempsUnheld(CancelLiveReply(s, u))
  {
    hide *;
    DueDraws(s, online, u);
    DueAddsNone(s, online, u);
    StaysUnheld(s, PendingDue(s, online, u), None);
    StaysUnheld(s, CancelLiveReply(s, u), None);
  }

  lemma ClockUnheld(s: State, online: set<ClientId>, u: Uuid)
    requires Inv(s) && u in s.pendingTimers && TempsUnheld(s)
    requires s.pendingTimers[u].future <= s.book.now ==> RoomToSettle(s, u)
    ensures TempsUnheld(PendingClock(s, online, u))
  {
    var s' := PendingMarked(s, u);
    assert s'.book == s.book && s'.pending == s.pending && (RoomToSettle(s, u) ==> RoomToSettle(s', u));
    hide Inv, RoomToSettle, PendingDue, PendingMarked, IsHeld, Temps;
    PendingMarkedInv(s, u);
    if s.pendingTimers[u].future <= s.book.now {
      DueUnheld(s', online, u);
    }
  }

  lemma UpdateUnheld(s: State, online: set<ClientId>)
    requires Inv(s) && TempsUnheld(s)
    ensures TempsUnheld(Reevaluate(s, online))
  {
    hide *;
    var s' := Reevaluate(s, online);
    InvWalking(s);
    WalkDraws(s, online, 0, []);
    Retention.ReevaluateBook(s, online);
    SameBookDraws(s, Walk(s, online, 0, []).0, s');
    ReevaluateEffect(s, online);
    var (walked, done) := Walk(s, online, 0, []);
    SurvivorsListed(s, s', DoneSet(done), AddedBy(s, walked));
    StaysUnheld(s, s', None);
  }

  lemma SurvivorsListed(s: State, s': State, done: set<Uuid>, added: seq<Pending>)
    requires s'.pending == Survivors(s.pending, done) + added && forall x :: x in added ==> x.CancelLiveEntry?
    ensures NoNewConflict(s, s')
  {
    hide Survivors;
  }

  // ---- reserve requests

  lemma ApartDraws(s: State, s': State, t: Token)
    requires SameHoldingsApartFrom(s.book, s'.book, t)
    ensures OnlyDraws(s, s', Some(t))
    ensures IsHeld(s.book, t) || Undrawn(s, t) ==> OnlyDraws(s, s', None)
  {
    forall x | IsHeld(s'.book, x) && x != t ensures IsHeld(s.book, x) {
      HeldApart(s.book, s'.book, t, x);
    }
  }

  // A Live request that asks back the temporary token of a pending conflict, and is granted.
  ghost predicate RevivesTemp(s: State, q: ReserveTuner) {
    && q.reservation.activity == Live
    && Resurrects(q, OwnLive(s.book, q.device))
    && q.reservation.token in Temps(s.pending)
    && LiveGrantable(s.book, q.device, q.reservation.locator, None)
  }

  lemma LiveUnheldIff(s: State, q: ReserveTuner, client: ClientId)
    requires Inv(s) && ReserveAdmissible(s, q) && q.reservation.activity == Live && TempsUnheld(s)
    ensures TempsUnheld(Reserve(s, q, client)) <==> !RevivesTemp(s, q)
  {
    hide *;
    InvParts(s);
    LiveAdmissibleNow(s, q);
    ReserveLiveIs(s, q, client);
    LiveRequestEffect(s.book, q, client, Minted(s));
    var (book, reply) := ReserveLive(s.book, q, client, Minted(s));
    var s' := Reserve(s, q, client);
    RevivesIs(s, q);
    if reply.LiveGranted? {
      var t := reply.reservation.token;
      GrantEffectHoldings(s.book, book, reply.reservation, client);
      ServedIs(s, q.uuid, book, if t == Minted(s) then s.issued + 1 else s.issued, t);
      Retention.GrantedIsHeld(s.book, book, reply.reservation, client);
      ApartDraws(s, s', t);
      LiveTokenFrom(s, q);
      SamePendingAddsNone(s, s');
      if RevivesTemp(s, q) {
        HeldTemp(s', t);
      } else {
        StaysUnheld(s, s', if Resurrects(q, OwnLive(s.book, q.device)) then Some(t) else None);
      }
    } else {
      SamePendingAddsNone(s, s');
      SameDraws(s, s');
      StaysUnheld(s, s', None);
    }
  }

  lemma SamePendingAddsNone(s: State, s': State)
    requires s'.pending == s.pending
    ensures NoNewConflict(s, s')
  {
  }

  lemma HeldTemp(s: State, t: Token)
    requires t in Temps(s.pending) && IsHeld(s.book, t)
    ensures !TempsUnheld(s)
  {
  }

  lemma RevivesIs(s: State, q: ReserveTuner)
    ensures RevivesTemp(s, q) <==>
      && q.reservation.activity == Live && Resurrects(q, OwnLive(s.book, q.device))
      && q.reservation.token in Temps(s.pending)
      && LiveGrantable(s.book, q.device, q.reservation.locator, None)
    ensures Resurrects(q, OwnLive(s.book, q.device)) ==>
      OwnLive(s.book, q.device) == None && !TokenMismatch(q, OwnLive(s.book, q.device))
  {
    hide OwnLive, Temps, LiveGrantable;
  }

  lemma LiveTokenFrom(s: State, q: ReserveTuner)
    ensures var own := OwnLive(s.book, q.device);
      var t := LiveToken(q, own, Minted(s));
      if Resurrects(q, own) then t == q.reservation.token else IsHeld(s.book, t) || Undrawn(s, t)
  {
    hide OwnLive, IsHeld;
  }

  lemma RecordUnheld(s: State, q: ReserveTuner, client: ClientId)
    requires Inv(s) && ReserveAdmissible(s, q) && q.reservation.activity == Record && TempsUnheld(s)
    ensures TempsUnheld(Reserve(s, q, client))
  {
    hide *;
    ReserveRecordParts(s, q);
    ReserveRecordIs(s, q, client);
    var (book, reply) := ReserveRecord(s.book, Temps(s.pending), q, client, Minted(s));
    var s' := Reserve(s, q, client);
    RecordEffectDraws(s, q, client);
    if reply.RecordInConflict? {
      InvParts(s);
      MintedUnused(s);
      OpenedIs(s, q, client, reply.live, reply.parent);
      ConflictUnheld(s, s', ConflictOf(s, q, client, reply.live, reply.parent));
    } else {
      ServedPending(s, q, book);
      SamePendingAddsNone(s, s');
      SameBookDraws(s, s.(book := book), s');
      StaysUnheld(s, s', None);
    }
  }

  lemma OpenedIs(s: State, q: ReserveTuner, client: ClientId, live: Reservation, parent: TunerId)
    ensures var p := ConflictOf(s, q, client, live, parent);
      var s' := AddPending(s.(seen := s.seen + {q.uuid}, issued := s.issued + 1), p, CONFLICT_RESOLUTION_TIMEOUT_MS);
      && s'.book == s.book && s'.pending == s.pending + [p] && s'.seen == s.seen + {q.uuid}
      && s'.uuid == s.uuid && s'.issued == s.issued + 1
      && p.ConflictEntry? && p.uuid == Minted(s) && p.live == live && |p.conflicts| == 1 && p.conflicts[0].token == Minted(s)
  {
  }

  lemma ServedPending(s: State, q: ReserveTuner, book: Book)
    ensures forall issued: nat {:trigger Served(s, q.uuid, book, issued)} ::
      Served(s, q.uuid, book, issued).pending == s.pending && Served(s, q.uuid, book, issued).book == book
  {
  }

  lemma ConflictUnheld(s: State, s': State, p: Pending)
    requires TempsUnheld(s) && s'.book == s.book && s'.pending == s.pending + [p]
    requires p.ConflictEntry? && |p.conflicts| == 1 && !IsHeld(s.book, p.conflicts[0].token)
    ensures TempsUnheld(s')
  {
    forall t | t in Temps(s'.pending) ensures !IsHeld(s'.book, t) {
      TempOf(s'.pending, t);
      TempOf(s.pending, t);
    }
  }

  lemma RecordEffectDraws(s: State, q: ReserveTuner, client: ClientId)
    requires Inv(s) && ReserveAdmissible(s, q) && q.reservation.activity == Record
    ensures var (book, reply) := ReserveRecord(s.book, Temps(s.pending), q, client, Minted(s));
      OnlyDraws(s, s.(book := book), None) && (reply.RecordInConflict? ==> book == s.book)
  {
    hide *;
    InvParts(s);
    SoundParts(s.book);
    ReserveRecordParts(s, q);
    var (book, reply) := ReserveRecord(s.book, Temps(s.pending), q, client, Minted(s));
    var s' := s.(book := book);
    SameDraws(s, s');
    if q.reservation.token != "" {
      RenewalDraws(s, q, client);
    } else if SearchRecord(s.book, q.reservation).Place? {
      RecordPlacedEffect(s.book, Temps(s.pending), q, client, Minted(s));
      if reply.RecordGranted? {
        GrantEffectHoldings(s.book, book, reply.reservation, client);
        MintedUndrawn(s);
        ApartDraws(s, s', Minted(s));
      }
    } else {
      RecordUnplacedEffect(s.book, Temps(s.pending), q, client, Minted(s));
    }
  }

  lemma MintedUndrawn(s: State)
    ensures Undrawn(s, Minted(s))
  {
  }

  lemma RenewalDraws(s: State, q: ReserveTuner, client: ClientId)
    requires Inv(s) && ReserveAdmissible(s, q) && q.reservation.activity == Record && q.reservation.token != ""
    ensures var (book, reply) := ReserveRecord(s.book, Temps(s.pending), q, client, Minted(s));
      OnlyDraws(s, s.(book := book), None) && !reply.RecordInConflict?
  {
    hide *;
    InvParts(s);
    ReserveRecordParts(s, q);
    RenewEffect(s.book, Temps(s.pending), q, client, Minted(s));
    var (book, reply) := ReserveRecord(s.book, Temps(s.pending), q, client, Minted(s));
    var s' := s.(book := book);
    SameDraws(s, s');
    if reply.RecordRenewed? {
      RenewedHoldings(s.book, q.reservation, client);
      ApartDraws(s, s', q.reservation.token);
    } else if reply.RecordLost? {
      DropKeeps(s.book, q.reservation.token);
      LessFrom(s.book, book);
      LessDraws(s, s');
    }
  }

  lemma LessDraws(s: State, s': State)
    requires LessHeld(s.book, s'.book)
    ensures OnlyDraws(s, s', None)
  {
  }

  // Every event leaves the temporary tokens unheld, except a Live request that gets one of them.
  lemma StepUnheldIff(sys: System, e: Event)
    requires Inv(sys.state) && Admissible(sys, e) && TempsUnheld(sys.state)
    ensures TempsUnheld(Step(sys, e).state) <==> !(e.ReserveRequest? && RevivesTemp(sys.state, e.q))
  {
    var s := sys.state;
    hide Inv, TempsUnheld, RevivesTemp, ReserveAdmissible, RoomToSettle, StartsInTune, Undrawn, Ids, Reserve, Expire, StartClock,
      ExpireClock, PendingClock, Reevaluate, CancelLiveReply, CancelRecording, CancelRecordingReply, EndSession, Forget,
      ClientsOn, LessHeld;
    match e
    case Tick(now) => TickLess(s, now); LessUnheld(s, Step(sys, e).state);
    case ReserveRequest(q, client) => ReserveUnheldIff(s, q, client);
    case ReleaseRequest(token) => ExpireLess(s.book, token); LessUnheld(s, Step(sys, e).state);
    case StartTimer(token) => ClocksLess(s, token); LessUnheld(s, Step(sys, e).state);
    case ExpireTimer(token) => ClocksLess(s, token); LessUnheld(s, Step(sys, e).state);
    case PendingTimer(uuid) => ClockUnheld(s, Online(sys), uuid);
    case ReservationUpdated => UpdateUnheld(s, Online(sys));
    case CancelLiveAnswer(uuid) => DueUnheld(s, Online(sys), uuid);
    case CancelRecordingRequest(client, uuid, token) => CancelUnheld(s, Online(sys), client, uuid, token);
    case CancelRecordingAnswer(client, uuid, token) => CancelUnheld(s, Online(sys), client, uuid, token);
    case Heard(client, conn) =>
    case EmptyMessage(client, conn) => SessionUnheld(sys, client, conn);
    case Disconnected(conn) => ForgetLess(sys, ClientsOn(sys.clients, conn)); LessUnheld(s, Step(sys, e).state);
  }

  lemma SessionUnheld(sys: System, client: ClientId, conn: Conn)
    requires TempsUnheld(sys.state)
    ensures TempsUnheld(EndSession(sys, client, conn).state)
  {
    var sys' := sys.(clients := Known(sys.clients, client, conn));
    hide TempsUnheld, Forget, ClientsOn, LessHeld;
    ForgetLess(sys', {client});
    LessUnheld(sys'.state, Forget(sys', {client}).state);
  }

  lemma ReserveUnheldIff(s: State, q: ReserveTuner, client: ClientId)
    requires Inv(s) && ReserveAdmissible(s, q) && TempsUnheld(s)
    ensures TempsUnheld(Reserve(s, q, client)) <==> !RevivesTemp(s, q)
  {
    hide *;
    RevivesIs(s, q);
    if q.reservation.activity == Live {
      LiveUnheldIff(s, q, client);
    } else if q.reservation.activity == Record {
      RecordUnheld(s, q, client);
    } else {
      OtherUnheld(s, q, client);
    }
  }

  lemma OtherUnheld(s: State, q: ReserveTuner, client: ClientId)
    requires q.reservation.activity != Live && q.reservation.activity != Record && TempsUnheld(s)
    ensures TempsUnheld(Reserve(s, q, client))
  {
  }

  // ---- whole runs

  ghost predicate NoTempRevived(sys: System, events: seq<Event>) {
    forall i :: 0 <= i < |events| && events[i].ReserveRequest? ==> !RevivesTemp(Run(sys, events[..i]).state, events[i].q)
  }

  lemma {:induction false} RunUnheld(sys: System, events: seq<Event>)
    requires Initial(sys) && AdmissibleRun(sys, events) && NoTempRevived(sys, events)
    ensures TempsUnheld(Run(sys, events).state)
  {
    hide *;
    if events == [] {
      NothingPending(sys);
    } else {
      var n := |events| - 1;
      LastNotRevived(sys, events);
      LastEvent(sys, events);
      RunInv(sys, events[..n]);
      RunUnheld(sys, events[..n]);
      StepUnheldIff(Run(sys, events[..n]), events[n]);
    }
  }

  lemma NothingPending(sys: System)
    requires Initial(sys)
    ensures TempsUnheld(Run(sys, []).state)
  {
    assert sys.state.pending == [];
  }

  lemma LastNotRevived(sys: System, events: seq<Event>)
    requires events != [] && NoTempRevived(sys, events)
    ensures var n := |events| - 1;
      && NoTempRevived(sys, events[..n])
      && (events[n].ReserveRequest? ==> !RevivesTemp(Run(sys, events[..n]).state, events[n].q))
  {
    hide RevivesTemp, Run;
    var n := |events| - 1;
    forall i | 0 <= i < n && events[..n][i].ReserveRequest?
      ensures !RevivesTemp(Run(sys, events[..n][..i]).state, events[..n][i].q)
    {
      assert events[..n][..i] == events[..i] && events[i].ReserveRequest?;
    }
  }

  // The filter that is meant to pass over Lives already in conflict passes over nothing: whatever conflicts
  // are pending, a Record is put in conflict with the Live it would be put in conflict with if none were.
  lemma FilterExcludesNothing(sys: System, events: seq<Event>, r: Reservation)
    requires Initial(sys) && AdmissibleRun(sys, events) && NoTempRevived(sys, events)
    ensures var s := Run(sys, events).state; RecordConflict(s.book, Temps(s.pending), r) == RecordConflict(s.book, {}, r)
  {
    RunUnheld(sys, events);
    hide Initial, AdmissibleRun, NoTempRevived, Run, RecordConflict, Temps, IsHeld;
    var s := Run(sys, events).state;
    FilterIdle(s.book, Temps(s.pending), r);
  }
}
