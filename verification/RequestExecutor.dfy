// Requests, timeouts and answers step by step on the manager.
module RequestExecutor {
  import opened Domain
  import opened Ordering
  import opened Tuners
  import opened Registry
  import opened LiveRequests
  import opened RecordRequests
  import opened Times
  import opened Protocol
  import Timers
  import opened ProtocolSteps
  import opened Management
  import LiveExecutor
  import RecordExecutor

  // ---------------------------------------------------------------- reserve requests

  lemma ReserveIs(s: State, q: ReserveTuner, client: ClientId)
    ensures var seen := s.(seen := s.seen + {q.uuid});
      var live := ReserveLive(s.book, q, client, Minted(s));
      var record := ReserveRecord(s.book, Temps(s.pending), q, client, Minted(s));
      Reserve(s, q, client) ==
        match q.reservation.activity
        case Live => AfterLive(seen, q, live.0, live.1)
        case Record => AfterRecord(seen, q, client, record.0, record.1)
        case _ => seen
  {
    hide ReserveLive, ReserveRecord, Temps, AddPending;
  }

  method Execute(m: Manager, q: ReserveTuner, client: ClientId)
    requires m.Valid()
    modifies m, m.tuners.Values
    ensures m.StateView() == Reserve(old(m.StateView()), q, client)
  {
    ReserveIs(m.StateView(), q, client);
    m.StateIs();
    hide *;
    var minted := m.uuid(m.issued);
    m.Saw(q.uuid);
    match q.reservation.activity {
      case Live => ExecuteLive(m, q, client, minted);
      case Record => ExecuteRecord(m, q, client, minted);
      case _ =>
    }
  }

  method ExecuteLive(m: Manager, q: ReserveTuner, client: ClientId, minted: Uuid)
    requires m.Valid() && minted == m.uuid(m.issued)
    modifies m, m.tuners.Values
    ensures var s := old(m.StateView());
      var live := ReserveLive(s.book, q, client, minted);
      m.StateView() == AfterLive(s, q, live.0, live.1)
  {
    m.StateIs();
    hide ReserveLive, Manager.View, Manager.Valid, Manager.StateView;
    var reply := LiveExecutor.Reserve(m, q, client, minted);
    m.StateIs();
    if reply.LiveGranted? {
      if reply.reservation.token == minted {
        var id := m.GenerateUuid();
      }
      m.Gave(q.uuid);
    }
  }

  method ExecuteRecord(m: Manager, q: ReserveTuner, client: ClientId, minted: Uuid)
    requires m.Valid() && minted == m.uuid(m.issued)
    modifies m, m.tuners.Values
    ensures var s := old(m.StateView());
      var record := ReserveRecord(s.book, Temps(s.pending), q, client, minted);
      m.StateView() == AfterRecord(s, q, client, record.0, record.1)
  {
    ghost var s := m.StateView();
    m.StateIs();
    hide *;
    var reply := RecordExecutor.Reserve(m, q, client, minted);
    m.StateIs();
    AfterRecordIs(s, q, client, m.View(), reply);
    FollowUp(m, q, client, reply);
  }

  // The follow-up replaces nothing of the book.
  lemma AfterRecordIs(s: State, q: ReserveTuner, client: ClientId, book: Book, reply: RecordReply)
    ensures AfterRecord(s.(book := book), q, client, book, reply) == AfterRecord(s, q, client, book, reply)
  {
    hide AddPending;
  }

  // What a Record reply sets going.
  method FollowUp(m: Manager, q: ReserveTuner, client: ClientId, reply: RecordReply)
    modifies m, m.tuners.Values
    ensures m.StateView() == AfterRecord(old(m.StateView()), q, client, old(m.View()), reply)
  {
    m.StateIs();
    hide AddPending, Manager.View, Manager.StateView;
    match reply {
      case RecordGranted(_) =>
        var id := m.GenerateUuid();
        m.Gave(q.uuid);
      case RecordRenewed(_) =>
        m.Gave(q.uuid);
      case RecordInConflict(live, parent) =>
        var temp := m.GenerateUuid();
        m.AddPendingRequest(ConflictEntry(temp, client, live, [q.reservation.(token := temp)], q, parent),
                            CONFLICT_RESOLUTION_TIMEOUT_MS);
      case _ =>
    }
  }

  // ---------------------------------------------------------------- the unconditional grant

  // Which way the unconditional grant goes.
  lemma GrantCases(s: State, q: ReserveTuner, parent: TunerId)
    ensures Grant(s, q, parent) ==
      if q.reservation.activity != Record then (s, q.reservation.activity != Live)
      else if parent !in s.book.tuners then (s, false)
      else if q.reservation.token == "" then GrantUnder(s.(issued := s.issued + 1), q, parent, Minted(s))
      else GrantUnder(s, q, parent, q.reservation.token)
  {
    hide GrantUnder;
  }

  method GrantOn(m: Manager, q: ReserveTuner, parent: TunerId) returns (ok: bool)
    requires m.Apart()
    modifies m, m.tuners.Values
    ensures (m.StateView(), ok) == Grant(old(m.StateView()), q, parent)
  {
    hide *;
    m.KnowsAll();
    m.StateIs();
    GrantCases(m.StateView(), q, parent);
    if q.reservation.activity != Record || parent !in m.tuners {
      ok := q.reservation.activity != Live && q.reservation.activity != Record;
      return;
    }
    var token := q.reservation.token;
    if token == "" {
      token := m.GenerateUuid();
    }
    ok := AddGranted(m, q, parent, token);
  }

  method AddGranted(m: Manager, q: ReserveTuner, parent: TunerId, token: Token) returns (ok: bool)
    requires m.Apart() && parent in m.tuners && parent in m.StateView().book.tuners
    modifies m, m.tuners.Values
    ensures (m.StateView(), ok) == GrantUnder(old(m.StateView()), q, parent, token)
  {
    m.ViewAt(parent);
    m.ViewIs();
    m.StateIs();
    ghost var s, book := m.StateView(), m.View();
    hide Insert, StateOf, Adjusted, Manager.View, Manager.StateView;
    var state := m.tuners[parent].GetState();
    assert m.View() == book;
    m.StateIs();
    var r := Adjusted(state, q.reservation, m.now, m.now, m.now).(token := token);
    var outcome := m.AddReservation(r, parent, RECORDER_CLIENT);
    m.StateIs();
    ok := outcome == Added;
    if ok {
      m.Gave(q.uuid);
    }
  }

  // ---------------------------------------------------------------- timeouts

  // The assertions that open the timeout of a conflict.
  method Opens(m: Manager, p: Pending) returns (opens: bool)
    requires p.ConflictEntry?
    ensures opens <==> OpeningAsserts(m.StateView(), p)
  {
    m.StateIs();
    hide FindPending, Manager.View, Manager.StateView;
    var found := m.GetPendingRequest(p.uuid);
    m.StateIs();
    opens :=
      && found == Some(p)
      && p.request.reservation.activity == Record
      && |p.conflicts| == 1
      && p.conflicts[0].activity == Record
      && p.live.activity == Live;
  }

  method ConflictTimedOut(m: Manager, online: set<ClientId>, p: Pending) returns (ok: bool)
    requires m.Apart() && p.ConflictEntry?
    modifies m, m.tuners.Values
    ensures (m.StateView(), ok) == ConflictTimeout(old(m.StateView()), online, p)
  {
    ghost var s := m.StateView();
    m.KnowsAll();
    m.StateIs();
    hide *;
    var opens := Opens(m, p);
    assert m.StateView() == s;
    if !opens || p.parent !in m.tuners {
      TimeoutRefused(s, online, p);
      return false;
    }
    ok := ConflictDecided(m, online, p);
  }

  lemma TimeoutRefused(s: State, online: set<ClientId>, p: Pending)
    requires p.ConflictEntry? && (!OpeningAsserts(s, p) || p.parent !in s.book.tuners)
    ensures ConflictTimeout(s, online, p) == (s, false)
  {
  }

  // What the tuner holds decides.
  method ConflictDecided(m: Manager, online: set<ClientId>, p: Pending) returns (ok: bool)
    requires m.Apart() && p.ConflictEntry? && p.parent in m.tuners && OpeningAsserts(m.StateView(), p)
    modifies m, m.tuners.Values
    ensures (m.StateView(), ok) == ConflictTimeout(old(m.StateView()), online, p)
  {
    ghost var s := m.StateView();
    m.ViewAt(p.parent);
    m.StateIs();
    var tokens, state := Contents(m.tuners[p.parent]);
    hide *;
    assert m.StateView() == s;
    TimeoutIs(s, online, p, tokens);
    if |tokens| == 1 {
      ok := LoneTimedOut(m, online, p, m.tuners[p.parent].reservations[tokens[0]]);
    } else if |tokens| == 2 {
      ok := false;
      if state == HybridState {
        ok := GrantOn(m, p.request, p.parent);
      }
    } else if |tokens| == 0 {
      ok := GrantOn(m, p.request, p.parent);
    } else {
      ok := false;
    }
  }

  method Contents(tuner: Tuner) returns (tokens: seq<Token>, state: TunerState)
    ensures tokens == Sorted(tuner.reservations.Keys) && state == StateOf(tuner.reservations)
    ensures |tokens| == 1 ==> tokens[0] in tuner.reservations
  {
    tokens := tuner.GetReservationTokens([]);
    state := tuner.GetState();
    assert |tokens| == 1 ==> tokens[0] in tokens;
  }

  lemma TimeoutIs(s: State, online: set<ClientId>, p: Pending, tokens: seq<Token>)
    requires p.ConflictEntry? && OpeningAsserts(s, p) && p.parent in s.book.tuners
    requires tokens == Sorted(s.book.tuners[p.parent].Keys)
    ensures |tokens| == 1 ==> tokens[0] in s.book.tuners[p.parent]
    ensures ConflictTimeout(s, online, p) ==
      if |tokens| == 1 then LoneTimeout(s, online, p, s.book.tuners[p.parent][tokens[0]])
      else if |tokens| == 0 || (|tokens| == 2 && StateOf(s.book.tuners[p.parent]) == HybridState) then Grant(s, p.request, p.parent)
      else (s, false)
  {
    Manager.Counted(s.book.tuners[p.parent]);
    assert |tokens| == 1 ==> tokens[0] in tokens;
    hide Grant, LoneTimeout, StateOf, OpeningAsserts;
  }

  method LoneTimedOut(m: Manager, online: set<ClientId>, p: Pending, r: Reservation) returns (ok: bool)
    requires p.ConflictEntry?
    modifies m, m.tuners.Values
    ensures (m.StateView(), ok) == LoneTimeout(old(m.StateView()), online, p, r)
  {
    m.StateIs();
    hide AddPending, Manager.View, Manager.StateView;
    if r.Detail("eas") == "true" && p.request.reservation.locator != r.locator {
      return RECORDER_CLIENT in online;
    }
    if r.activity != Live {
      return false;
    }
    var id := m.GenerateUuid();
    if RECORDER_CLIENT in online {
      m.AddPendingRequest(CancelLiveEntry(id, p.request, p.parent), CANCEL_LIVE_TIMEOUT_MS);
    }
    ok := true;
  }

  method TimedOut(m: Manager, online: set<ClientId>, p: Pending) returns (ok: bool)
    requires m.Apart()
    modifies m, m.tuners.Values
    ensures (m.StateView(), ok) == Timeout(old(m.StateView()), online, p)
  {
    hide Grant, ConflictTimeout, Manager.View, Manager.StateView;
    match p {
      case CancelLiveEntry(_, request, parent) => ok := GrantOn(m, request, parent);
      case ConflictEntry(_, _, _, _, _, _) => ok := ConflictTimedOut(m, online, p);
      case CancelRecordingEntry(_, client, _) => ok := client in online;
    }
  }

  // The pending timer's task.
  method RunPendingTask(m: Manager, online: set<ClientId>, u: Uuid)
    requires m.Apart()
    modifies m, m.tuners.Values
    ensures m.StateView() == PendingDue(old(m.StateView()), online, u)
  {
    ghost var s := m.StateView();
    m.StateIs();
    hide FindPending, Timeout, RemovePending, Manager.View, Manager.StateView;
    var p := m.GetPendingRequest(u);
    assert m.StateView() == s;
    if p.Some? {
      var ok := TimedOut(m, online, p.value);
      if ok {
        m.RemovePendingRequest(u);
      }
    }
  }

  // The clock of a pending timer goes off.
  method OnPendingTimer(m: Manager, online: set<ClientId>, u: Uuid)
    requires m.Apart()
    modifies m, m.tuners.Values
    ensures m.StateView() == PendingClock(old(m.StateView()), online, u)
  {
    m.StateIs();
    m.ViewIs();
    hide PendingDue, PendingMarked, Manager.View, Manager.StateView;
    if u in m.pendingRequestTimers {
      var ran := Timers.RunBy(m.pendingRequestTimers[u], Timers.Fire(m.now));
      m.MarkPending(u);
      if ran.Some? {
        RunPendingTask(m, online, u);
      }
    }
  }

  // ---------------------------------------------------------------- answers

  method ExecuteCancelLiveResponse(m: Manager, u: Uuid)
    requires m.Apart()
    modifies m, m.tuners.Values
    ensures m.StateView() == CancelLiveReply(old(m.StateView()), u)
  {
    ghost var s := m.StateView();
    m.StateIs();
    hide FindPending, Grant, RemovePending, Manager.View, Manager.StateView;
    var p := m.GetPendingRequest(u);
    assert m.StateView() == s;
    if p.Some? && p.value.CancelLiveEntry? {
      var ok := GrantOn(m, p.value.request, p.value.parent);
      if ok {
        m.RemovePendingRequest(u);
      }
    }
  }

  // A token that is held by a Record, as both cancellation messages ask.
  method IsRecord(m: Manager, token: Token) returns (record: bool)
    ensures record <==> RecordHeld(m.View(), token)
  {
    hide IsHeld, Lookup, Manager.View, Manager.Valid;
    var r := m.GetReservation(token);
    record := r.Some? && r.value.activity == Record;
  }

  ghost predicate RecordHeld(s: Book, token: Token) {
    IsHeld(s, token) && Lookup(s, token).activity == Record
  }

  method ExecuteCancelRecording(m: Manager, online: set<ClientId>, client: ClientId, uuid: Uuid, token: Token)
    requires m.Valid()
    modifies m, m.tuners.Values
    ensures m.StateView() == CancelRecording(old(m.StateView()), online, client, uuid, token)
  {
    ghost var s := m.StateView();
    m.StateIs();
    CancelRecordingIs(s, online, client, uuid, token);
    hide *;
    var pending := m.IsPendingConflict(token);
    assert m.StateView() == s && m.Valid();
    if pending {
      WithdrawRequest(m, online, token);
    } else {
      var record := IsRecord(m, token);
      assert m.StateView() == s && m.View() == s.book;
      if record {
        m.AddPendingRequest(CancelRecordingEntry(uuid, client, token), CANCEL_RECORDING_TIMEOUT_MS);
      }
    }
  }

  lemma CancelRecordingIs(s: State, online: set<ClientId>, client: ClientId, uuid: Uuid, token: Token)
    ensures CancelRecording(s, online, client, uuid, token) ==
      if token in Temps(s.pending) then Withdrawn(s, online, token)
      else if RecordHeld(s.book, token) then AddPending(s, CancelRecordingEntry(uuid, client, token), CANCEL_RECORDING_TIMEOUT_MS)
      else s
  {
    hide AddPending, RemovePending, FindPending, Temps, IsHeld, Lookup;
  }

  // The viewer cancels a recording that is still in conflict.
  method WithdrawRequest(m: Manager, online: set<ClientId>, token: Token)
    modifies m, m.tuners.Values
    ensures m.StateView() == Withdrawn(old(m.StateView()), online, token)
  {
    ghost var s := m.StateView();
    m.StateIs();
    hide FindPending, RemovePending, Manager.View, Manager.StateView;
    var p := m.GetPendingRequest(token);
    assert m.StateView() == s;
    if p.Some? && p.value.ConflictEntry? && p.value.client in online {
      m.RemovePendingRequest(token);
      m.StateIs();
      m.Withdrew(p.value.request.uuid);
    }
  }

  method ExecuteCancelRecordingResponse(m: Manager, online: set<ClientId>, client: ClientId, uuid: Uuid, token: Token)
    requires m.Valid()
    modifies m, m.tuners.Values
    ensures m.StateView() == CancelRecordingReply(old(m.StateView()), online, client, uuid, token)
  {
    ghost var s := m.StateView();
    m.StateIs();
    CancelReplyIs(s, online, client, uuid, token);
    hide *;
    var record := IsRecord(m, token);
    assert m.StateView() == s && m.Valid() && m.View() == s.book;
    if record && client != TRM_CLIENT {
      AnswerCancel(m, online, uuid, token);
    }
  }

  lemma CancelReplyIs(s: State, online: set<ClientId>, client: ClientId, uuid: Uuid, token: Token)
    ensures CancelRecordingReply(s, online, client, uuid, token) ==
      if RecordHeld(s.book, token) && client != TRM_CLIENT then CancelAnswered(s, online, uuid, token) else s
  {
    hide RemovePending, FindPending, IsHeld, Lookup, Drop;
  }

  method AnswerCancel(m: Manager, online: set<ClientId>, uuid: Uuid, token: Token)
    requires m.Valid() && RecordHeld(m.View(), token)
    modifies m, m.tuners.Values
    ensures m.StateView() == CancelAnswered(old(m.StateView()), online, uuid, token)
  {
    ghost var s := m.StateView();
    m.StateIs();
    HeldRecord(m.View(), token);
    AnsweredIs(s, online, uuid, token);
    hide *;
    var p := m.GetPendingRequest(uuid);
    assert m.StateView() == s && m.Valid();
    if p.Some? && p.value.CancelRecordingEntry? && p.value.token == token {
      SettleCancel(m, uuid, token, p.value.client in online);
    }
  }

  // The entry goes away; the reservation too, once the answer could be passed on.
  method SettleCancel(m: Manager, uuid: Uuid, token: Token, release: bool)
    requires m.Valid() && IsHeld(m.View(), token)
    modifies m, m.tuners.Values
    ensures var s := old(m.StateView());
      m.StateView() == if release then RemovePending(s, uuid).(book := Drop(s.book, token)) else RemovePending(s, uuid)
  {
    m.StateIs();
    m.IsCoherent();
    RemovePendingBook(m.StateView(), uuid);
    hide *;
    DropEntry(m, uuid);
    if release {
      ReleaseNow(m, token);
    }
  }

  method DropEntry(m: Manager, uuid: Uuid)
    requires m.Apart() && Coherent(m.StateView().book)
    modifies m`pendingRequests, m`pendingRequestTimers
    ensures m.StateView() == RemovePending(old(m.StateView()), uuid)
    ensures m.Valid() && m.View() == old(m.StateView()).book
  {
    ghost var s := m.StateView();
    RemovePendingBook(s, uuid);
    hide *;
    m.RemovePendingRequest(uuid);
    m.StateIs();
    m.StillValid(s.book);
  }

  method ReleaseNow(m: Manager, token: Token)
    requires m.Valid() && IsHeld(m.View(), token)
    modifies m, m.tuners.Values
    ensures m.StateView() == old(m.StateView()).(book := Drop(old(m.View()), token))
  {
    m.StateIs();
    hide *;
    var found := m.ReleaseReservation(token);
    m.StateIs();
  }

  lemma HeldRecord(s: Book, token: Token)
    requires RecordHeld(s, token)
    ensures IsHeld(s, token)
  {
  }

  lemma AnsweredIs(s: State, online: set<ClientId>, uuid: Uuid, token: Token)
    ensures var p := FindPending(s.pending, uuid);
      CancelAnswered(s, online, uuid, token) ==
        if p.Some? && p.value.CancelRecordingEntry? && p.value.token == token then
          if p.value.client in online then RemovePending(s, uuid).(book := Drop(s.book, token)) else RemovePending(s, uuid)
        else s
  {
    hide RemovePending, FindPending, Drop;
  }
}
