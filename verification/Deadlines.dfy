// How long an entry waits: its clock is set when it is opened, and nothing moves it.
module Deadlines {
  import opened Domain
  import opened Registry
  import RecordPlacement
  import opened RecordAnswers
  import opened LiveRequests
  import opened RecordRequests
  import opened Lifecycle
  import opened Protocol
  import opened ProtocolInvariants
  import opened Reevaluation
  import opened ProtocolSteps
  import opened ReserveSteps
  import opened Disconnection
  import opened Runs
  import opened Timeouts
  import opened Updates
  import opened Promises
  import Timers

  // In milliseconds: a conflict waits 53.5 seconds, a viewer's answer 10, the recorder's 15.
  function Patience(p: Pending): nat {
    match p
    case ConflictEntry(_, _, _, _, _, _) => 53500
    case CancelLiveEntry(_, _, _) => 10000
    case CancelRecordingEntry(_, _, _) => 15000
  }

  ghost predicate OpenedAt(s: State, u: Uuid, now: nat) {
    u in s.pendingTimers && exists p :: p in s.pending && p.uuid == u && s.pendingTimers[u] == Timers.Clockwork(Some(u), now + Patience(p), true)
  }

  // Each clock of the later state is one of the earlier state, with the same entry, or was just set.
  ghost predicate Carried(s: State, s': State, u: Uuid) {
    u in s'.pendingTimers ==>
      if u in s.pendingTimers
      then s'.pendingTimers[u] == s.pendingTimers[u] && forall p :: p in s.pending && p.uuid == u ==> p in s'.pending
      else OpenedAt(s', u, s.book.now)
  }

  lemma CarriedSame(s: State, s': State, u: Uuid)
    requires s'.pendingTimers == s.pendingTimers && s'.pending == s.pending
    ensures Carried(s, s', u)
  {
  }

  lemma CarriedTwice(s: State, s1: State, s2: State, u: Uuid)
    requires Carried(s, s1, u) && Carried(s1, s2, u) && s1.book.now == s.book.now
    requires u in s.pendingTimers && u in s2.pendingTimers ==> u in s1.pendingTimers
    ensures Carried(s, s2, u)
  {
  }

  lemma CarriedOpened(s: State, s': State, p: Pending, u: Uuid)
    requires p.uuid !in s.pendingTimers && s'.pending == s.pending + [p]
    requires s'.pendingTimers == s.pendingTimers[p.uuid := Timers.Clockwork(Some(p.uuid), s.book.now + Patience(p), true)]
    ensures Carried(s, s', u)
  {
    assert p in s'.pending;
  }

  lemma CarriedShorter(s: State, s': State, i: nat, u: Uuid)
    requires i < |s.pending| && DistinctIds(s.pending)
    requires s'.pending == Shorter(s, i).pending && s'.pendingTimers == Shorter(s, i).pendingTimers
    ensures Carried(s, s', u)
  {
    ShorterMeans(s, i);
  }

  // ---- the events that touch the list

  lemma ReserveCarries(s: State, q: ReserveTuner, client: ClientId, u: Uuid)
    requires Inv(s)
    ensures Carried(s, Reserve(s, q, client), u)
  {
    hide *;
    var s' := Reserve(s, q, client);
    InvParts(s);
    MintedUnused(s);
    if q.reservation.activity == Record {
      var (book, reply) := ReserveRecord(s.book, Temps(s.pending), q, client, Minted(s));
      ReserveRecordIs(s, q, client);
      RecordLists(s, q, client, book, reply);
      if reply.RecordInConflict? {
        var p := ConflictOf(s, q, client, reply.live, reply.parent);
        var s1 := s.(seen := s.seen + {q.uuid}, book := book, issued := s.issued + 1);
        ConflictKeepsBook(s.book, Temps(s.pending), q, client, Minted(s));
        ConflictOpens(s, s1, p, s');
        CarriedOpened(s, s', p, u);
      } else {
        CarriedSame(s, s', u);
      }
    } else {
      OtherLists(s, q, client);
      CarriedSame(s, s', u);
    }
  }

  lemma OtherLists(s: State, q: ReserveTuner, client: ClientId)
    requires q.reservation.activity != Record
    ensures Reserve(s, q, client).pending == s.pending && Reserve(s, q, client).pendingTimers == s.pendingTimers
  {
    hide ReserveLive;
  }

  lemma RecordLists(s: State, q: ReserveTuner, client: ClientId, book: Book, reply: RecordReply)
    requires q.reservation.activity == Record && (book, reply) == ReserveRecord(s.book, Temps(s.pending), q, client, Minted(s))
    ensures !reply.RecordInConflict? ==>
      Reserve(s, q, client).pending == s.pending && Reserve(s, q, client).pendingTimers == s.pendingTimers
    ensures reply.RecordInConflict? ==>
      ConflictOf(s, q, client, reply.live, reply.parent).ConflictEntry? && ConflictOf(s, q, client, reply.live, reply.parent).uuid == Minted(s)
  {
    hide ReserveRecord;
  }

  lemma ConflictOpens(s: State, s1: State, p: Pending, s': State)
    requires Listed(s) && s1.pending == s.pending && s1.pendingTimers == s.pendingTimers && s1.book.now == s.book.now
    requires p.ConflictEntry? && p.uuid !in Ids(s.pending) && s' == AddPending(s1, p, CONFLICT_RESOLUTION_TIMEOUT_MS)
    ensures p.uuid !in s.pendingTimers && s'.pending == s.pending + [p]
    ensures s'.pendingTimers == s.pendingTimers[p.uuid := Timers.Clockwork(Some(p.uuid), s.book.now + Patience(p), true)]
  {
    hide Ids;
  }

  lemma TimedOutCarries(b: State, online: set<ClientId>, p: Pending, mid: State, ok: bool, u: Uuid)
    requires p.ConflictEntry? && TimedOut(b, online, p, mid, ok) && Supply(b) && Listed(b)
    ensures Carried(b, mid, u) && mid.book.now == b.book.now && (u in b.pendingTimers ==> u in mid.pendingTimers)
  {
    MintedUnused(b);
    var x := CancelLiveEntry(b.uuid(b.issued), p.request, p.parent);
    var h := b.book.tuners[p.parent];
    hide Promised, Emergency, Supply, Carried, Ids;
    if mid == Asked(b, p) {
      CarriedOpened(b, mid, x, u);
    } else {
      TimedOutRest(b, online, p, mid, ok);
      CarriedSame(b, mid, u);
    }
  }

  lemma TimedOutRest(b: State, online: set<ClientId>, p: Pending, mid: State, ok: bool)
    requires p.ConflictEntry? && TimedOut(b, online, p, mid, ok)
    ensures mid == Asked(b, p) || (mid.pending == b.pending && mid.pendingTimers == b.pendingTimers)
    ensures mid.book.now == b.book.now
  {
    hide Promised, Emergency;
  }

  lemma {:induction false} AfterCarries(s: State, online: set<ClientId>, k: nat, u: Uuid)
    requires Inv(s) && k <= |s.pending|
    ensures Carried(s, After(s, online, k), u) && After(s, online, k).book.now == s.book.now
    ensures u in s.pendingTimers ==> u in After(s, online, k).pendingTimers
  {
    hide *;
    if k == 0 {
      AfterNone(s, online);
      CarriedSame(s, s, u);
    } else {
      var b, p := After(s, online, k - 1), s.pending[k - 1];
      AfterCarries(s, online, k - 1, u);
      AfterStep(s, online, k - 1);
      AfterAlong(s, online, k - 1);
      AlongParts(s, b, k - 1, CompletedIds(s, online, k - 1));
      WalkingParts(b, k - 1, CompletedIds(s, online, k - 1));
      if OverAt(s, online, k - 1) {
        assert b.pending[k - 1] == p && p in b.pending;
        var (mid, ok) := ConflictTimeout(b, online, p);
        ConflictTimeoutExact(b, online, p);
        TimedOutCarries(b, online, p, mid, ok, u);
        CarriedTwice(s, b, mid, u);
      }
    }
  }

  lemma CleanedCarries(b: State, done: set<Uuid>, u: Uuid)
    ensures Carried(b, Cleaned(b, done), u)
  {
  }

  lemma CleanedClocks(b: State, done: set<Uuid>)
    ensures Cleaned(b, done).pendingTimers.Keys <= b.pendingTimers.Keys
  {
  }

  lemma UpdateCarries(s: State, online: set<ClientId>, u: Uuid)
    requires Inv(s)
    ensures Carried(s, Reevaluate(s, online), u)
  {
    hide *;
    var b, done := After(s, online, |s.pending|), DoneSet(CompletedIds(s, online, |s.pending|));
    AfterCarries(s, online, |s.pending|, u);
    ReevaluationIs(s, online);
    CleanedCarries(b, done, u);
    CleanedClocks(b, done);
    CarriedTwice(s, b, Cleaned(b, done), u);
  }

  lemma CancelCarries(s: State, online: set<ClientId>, client: ClientId, uuid: Uuid, token: Token, u: Uuid)
    requires Inv(s) && uuid !in Ids(s.pending)
    ensures Carried(s, CancelRecording(s, online, client, uuid, token), u)
  {
    var s' := CancelRecording(s, online, client, uuid, token);
    InvParts(s);
    assert uuid !in s.pendingTimers;
    hide *;
    CarriedSame(s, s, u);
    if i: nat :| i < |s.pending| && s.pending[i].ConflictEntry? && s.pending[i].uuid == token {
      WithdrawalExact(s, online, client, uuid, i);
      if s.pending[i].client in online { CarriedShorter(s, s', i, u); }
    } else {
      QuestionExact(s, online, client, uuid, token);
      if HeldRecord(s.book, token) {
        var p := CancelRecordingEntry(uuid, client, token);
        QuestionPatience(p);
        CarriedOpened(s, s', p, u);
      }
    }
  }

  lemma QuestionPatience(p: Pending)
    ensures p.CancelRecordingEntry? ==> Patience(p) == 15000
  {
  }

  lemma AnswerCarries(s: State, online: set<ClientId>, client: ClientId, uuid: Uuid, token: Token, u: Uuid)
    requires Inv(s)
    ensures Carried(s, CancelRecordingReply(s, online, client, uuid, token), u)
  {
    hide *;
    var s' := CancelRecordingReply(s, online, client, uuid, token);
    InvParts(s);
    CarriedSame(s, s, u);
    if i: nat :| i < |s.pending| && s.pending[i].CancelRecordingEntry? && s.pending[i].uuid == uuid && s.pending[i].token == token {
      CancelAnswerExact(s, online, client, token, i);
      if client != 0 && HeldRecord(s.book, token) { CarriedShorter(s, s', i, u); }
    } else {
      CancelAnswerIgnored(s, online, client, uuid, token);
    }
  }

  lemma GivenWayCarries(s: State, i: nat, q: ReserveTuner, parent: TunerId, s': State, u: Uuid)
    requires i < |s.pending| && DistinctIds(s.pending) && GivenWay(s, i, q, parent, s')
    ensures Carried(s, s', u)
  {
    hide Promised, Carried, DistinctIds;
    if s'.pending == s.pending && s'.pendingTimers == s.pendingTimers {
      CarriedSame(s, s', u);
    } else {
      CarriedShorter(s, s', i, u);
    }
  }

  lemma CancelLiveCarries(s: State, id: Uuid, u: Uuid)
    requires Inv(s) && RoomToSettle(s, id)
    ensures Carried(s, CancelLiveReply(s, id), u)
  {
    hide *;
    InvParts(s);
    CancelLiveAnswerExact(s, id);
    CarriedSame(s, s, u);
    if i: nat :| i < |s.pending| && s.pending[i].uuid == id && s.pending[i].CancelLiveEntry? {
      GivenWayCarries(s, i, s.pending[i].request, s.pending[i].parent, CancelLiveReply(s, id), u);
    }
  }

  lemma ResolvesCarries(s: State, online: set<ClientId>, i: nat, s': State, u: Uuid)
    requires Inv(s) && i < |s.pending| && Resolves(s, online, i, s')
    ensures Carried(s, s', u)
  {
    InvParts(s);
    hide Inv, Carried, Shorter, GivenWay, TimedOut;
    CarriedSame(s, s, u);
    match s.pending[i]
    case CancelRecordingEntry(_, client, _) =>
      if client in online { CarriedShorter(s, s', i, u); }
    case CancelLiveEntry(_, request, parent) =>
      GivenWayCarries(s, i, request, parent, s', u);
    case ConflictEntry(_, _, _, _, _, _) =>
      var mid, ok :| TimedOut(s, online, s.pending[i], mid, ok) && i < |mid.pending| && s' == if ok then Shorter(mid, i) else mid;
      TimedOutCarries(s, online, s.pending[i], mid, ok, u);
      if ok {
        StillDistinct(s, online, s.pending[i], mid, ok);
        CarriedShorter(mid, s', i, u);
        ShorterClocks(mid, i);
        CarriedTwice(s, mid, s', u);
      }
  }

  lemma ShorterClocks(s: State, i: nat)
    requires i < |s.pending|
    ensures Shorter(s, i).pendingTimers.Keys <= s.pendingTimers.Keys
  {
  }

  lemma StillDistinct(s: State, online: set<ClientId>, p: Pending, mid: State, ok: bool)
    requires Supply(s) && Listed(s) && p.ConflictEntry? && TimedOut(s, online, p, mid, ok)
    ensures DistinctIds(mid.pending)
  {
    hide TimedOut, Supply, Ids;
    OutcomeOf(s, online, p, mid, ok);
    MintedUnused(s);
    AppendDistinct(s, CancelLiveEntry(s.uuid(s.issued), p.request, p.parent));
  }

  lemma ConflictKeepsBook(s: Book, temps: set<Token>, q: ReserveTuner, client: ClientId, minted: Token)
    ensures ReserveRecord(s, temps, q, client, minted).1.RecordInConflict? ==> ReserveRecord(s, temps, q, client, minted).0 == s
  {
    PlaceNeverConflicts(s, q, client, minted);
    RenewNeverConflicts(s, q, client);
    hide RecordPlacement.SearchRecord, PlaceRecord, RenewRecord, Contended;
  }

  lemma RenewNeverConflicts(s: Book, q: ReserveTuner, client: ClientId)
    ensures !RenewRecord(s, q, client).1.RecordInConflict?
  {
    hide Insert, FirstRenewable;
  }

  // ---------------------------------------------------------------- one event, and whole runs

  // Every event leaves the clocks of the entries that stay, except that a clock going off at or after its time is
  // spent; and it sets the clock of an entry it opens.
  lemma StepCarries(sys: System, e: Event, u: Uuid)
    requires Inv(sys.state) && Admissible(sys, e)
    ensures !(e == PendingTimer(u) && sys.state.pendingTimers[u].future <= sys.state.book.now && u in Step(sys, e).state.pendingTimers) ==>
      Near(sys.state, Step(sys, e).state, u)
    ensures e == PendingTimer(u) && sys.state.pendingTimers[u].future <= sys.state.book.now && u in Step(sys, e).state.pendingTimers ==>
      !Step(sys, e).state.pendingTimers[u].armed
  {
    var s := sys.state;
    hide Inv, Carried, Near, Reserve, Expire, StartClock, ExpireClock, PendingClock, Reevaluate, CancelLiveReply, CancelRecording,
      CancelRecordingReply, EndSession, Forget, ClientsOn, RoomToSettle, StartsInTune, ReserveAdmissible, Undrawn, Ids;
    match e
    case ReserveRequest(q, client) => ReserveCarries(s, q, client, u); NearFrom(s, Step(sys, e).state, u);
    case PendingTimer(id) => TimerCarries(sys, id, u);
    case ReservationUpdated => UpdateCarries(s, Online(sys), u); NearFrom(s, Step(sys, e).state, u);
    case CancelLiveAnswer(uuid) => CancelLiveCarries(s, uuid, u); NearFrom(s, Step(sys, e).state, u);
    case CancelRecordingRequest(client, uuid, token) =>
      CancelCarries(s, Online(sys), client, uuid, token, u);
      NearFrom(s, Step(sys, e).state, u);
    case CancelRecordingAnswer(client, uuid, token) =>
      AnswerCarries(s, Online(sys), client, uuid, token, u);
      NearFrom(s, Step(sys, e).state, u);
    case EmptyMessage(client, conn) => SessionLists(sys, client, conn); CarriedSame(s, Step(sys, e).state, u); NearFrom(s, Step(sys, e).state, u);
    case Disconnected(conn) => ForgetIs(sys, ClientsOn(sys.clients, conn)); CarriedSame(s, Step(sys, e).state, u); NearFrom(s, Step(sys, e).state, u);
    case _ => CarriedSame(s, Step(sys, e).state, u); NearFrom(s, Step(sys, e).state, u);
  }

  // As Carried, but a clock that went off early may have been set again, for the same time.
  ghost predicate Near(s: State, s': State, u: Uuid) {
    u in s'.pendingTimers ==>
      if u in s.pendingTimers
      then s'.pendingTimers[u].future == s.pendingTimers[u].future && (s'.pendingTimers[u].armed ==> s.pendingTimers[u].armed)
        && forall p :: p in s.pending && p.uuid == u ==> p in s'.pending
      else OpenedAt(s', u, s.book.now)
  }

  lemma NearFrom(s: State, s': State, u: Uuid)
    requires Carried(s, s', u)
    ensures Near(s, s', u)
  {
  }

  lemma SessionLists(sys: System, client: ClientId, conn: Conn)
    ensures var s' := EndSession(sys, client, conn).state;
      s'.pending == sys.state.pending && s'.pendingTimers == sys.state.pendingTimers
  {
    hide DropSet, OwnedBy, ClientsOn;
  }

  lemma TimerCarries(sys: System, id: Uuid, u: Uuid)
    requires Inv(sys.state) && Admissible(sys, PendingTimer(id))
    ensures var s, s' := sys.state, Step(sys, PendingTimer(id)).state;
      && id in s.pendingTimers
      && (!(u == id && s.pendingTimers[id].future <= s.book.now && u in s'.pendingTimers) ==> Near(s, s', u))
      && (u == id && s.pendingTimers[id].future <= s.book.now && u in s'.pendingTimers ==> !s'.pendingTimers[u].armed)
  {
    hide *;
    var s := sys.state;
    PendingTimerIs(sys, id);
    ArmedTimer(sys, id);
    var s1 := PendingMarked(s, id);
    PendingMarkedInv(s, id);
    MarkedIs(s, id);
    if s.pendingTimers[id].future <= s.book.now {
      var i := EntryOf(s, id);
      TimeoutExact(s1, Online(sys), i);
      ResolvesCarries(s1, Online(sys), i, PendingDue(s1, Online(sys), id), u);
      SpentClock(s, id, PendingDue(s1, Online(sys), id), u);
    } else {
      EarlyClock(s, id, u);
    }
  }

  lemma ArmedTimer(sys: System, id: Uuid)
    requires Admissible(sys, PendingTimer(id))
    ensures id in sys.state.pendingTimers && sys.state.pendingTimers[id].armed
  {
    hide RoomToSettle;
  }

  lemma EarlyClock(s: State, id: Uuid, u: Uuid)
    requires id in s.pendingTimers && s.pendingTimers[id].armed && s.pendingTimers[id].future > s.book.now
    ensures Near(s, PendingMarked(s, id), u)
  {
  }

  lemma SpentClock(s: State, id: Uuid, s': State, u: Uuid)
    requires id in s.pendingTimers && s.pendingTimers[id].future <= s.book.now && Carried(PendingMarked(s, id), s', u)
    ensures u != id ==> Near(s, s', u)
    ensures u == id && u in s'.pendingTimers ==> !s'.pendingTimers[u].armed
    ensures u !in s'.pendingTimers ==> Near(s, s', u)
  {
  }

  // In every run: a pending clock that runs is set for the moment its entry was opened plus its patience.
  lemma {:induction false} DeadlineIs(sys: System, events: seq<Event>, u: Uuid)
    requires Initial(sys) && AdmissibleRun(sys, events)
    requires u in Run(sys, events).state.pendingTimers && Run(sys, events).state.pendingTimers[u].armed
    ensures exists i: nat, p :: i < |events| && Opening(sys, events, i, u, p) && SetFor(Run(sys, events).state, u, p, Run(sys, events[..i]).state.book.now)
    decreases |events|
  {
    hide *;
    if events == [] {
      NoClocks(sys, u);
    } else {
      var n := |events| - 1;
      var before := events[..n];
      LastEvent(sys, events);
      RunInv(sys, before);
      var s, s' := Run(sys, before).state, Run(sys, events).state;
      StepCarries(Run(sys, before), events[n], u);
      NearMeans(s, s', u);
      if u in s.pendingTimers {
        DeadlineIs(sys, before, u);
        var i: nat, p :| i < |before| && Opening(sys, before, i, u, p) && SetFor(s, u, p, Run(sys, before[..i]).state.book.now);
        OpeningLater(sys, before, events, i, u, p);
        SetForLater(s, s', u, p, Run(sys, events[..i]).state.book.now);
      } else {
        var p :| p in s'.pending && p.uuid == u && s'.pendingTimers[u].future == s.book.now + Patience(p);
        OpeningNow(sys, events, u, p);
        SetForNow(s', u, p, s.book.now);
      }
    }
  }

  // The event that opened an entry.
  ghost predicate Opening(sys: System, events: seq<Event>, i: nat, u: Uuid, p: Pending) {
    && i < |events| && p.uuid == u
    && u !in Run(sys, events[..i]).state.pendingTimers
    && p in Step(Run(sys, events[..i]), events[i]).state.pending
  }

  // The entry waits, and its clock runs until so long after a moment.
  ghost predicate SetFor(s: State, u: Uuid, p: Pending, since: nat) {
    p in s.pending && u in s.pendingTimers && s.pendingTimers[u].future == since + Patience(p)
  }

  lemma SetForLater(s: State, s': State, u: Uuid, p: Pending, since: nat)
    requires SetFor(s, u, p, since) && p.uuid == u && u in s'.pendingTimers && s'.pendingTimers[u].future == s.pendingTimers[u].future
    requires forall x :: x in s.pending && x.uuid == u ==> x in s'.pending
    ensures SetFor(s', u, p, since)
  {
  }

  lemma SetForNow(s: State, u: Uuid, p: Pending, since: nat)
    requires p in s.pending && u in s.pendingTimers && s.pendingTimers[u].future == since + Patience(p)
    ensures SetFor(s, u, p, since)
  {
  }

  lemma NoClocks(sys: System, u: Uuid)
    requires Initial(sys)
    ensures u !in Run(sys, []).state.pendingTimers
  {
  }

  lemma NearMeans(s: State, s': State, u: Uuid)
    requires u in s'.pendingTimers && s'.pendingTimers[u].armed && Near(s, s', u)
    ensures u in s.pendingTimers ==>
      && s.pendingTimers[u].armed && s'.pendingTimers[u].future == s.pendingTimers[u].future
      && forall p :: p in s.pending && p.uuid == u ==> p in s'.pending
    ensures u !in s.pendingTimers ==> exists p :: p in s'.pending && p.uuid == u && s'.pendingTimers[u].future == s.book.now + Patience(p)
  {
  }

  lemma OpeningLater(sys: System, before: seq<Event>, events: seq<Event>, i: nat, u: Uuid, p: Pending)
    requires events != [] && before == events[..|events| - 1] && Opening(sys, before, i, u, p)
    ensures Opening(sys, events, i, u, p) && p.uuid == u && before[..i] == events[..i]
  {
    assert before[..i] == events[..i];
    hide Run, Step;
  }

  lemma OpeningNow(sys: System, events: seq<Event>, u: Uuid, p: Pending)
    requires events != [] && p.uuid == u && u !in Run(sys, events[..|events| - 1]).state.pendingTimers
    requires p in Run(sys, events).state.pending && Run(sys, events) == Step(Run(sys, events[..|events| - 1]), events[|events| - 1])
    ensures Opening(sys, events, |events| - 1, u, p)
  {
    hide Run, Step;
  }
}
