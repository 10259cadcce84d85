// Pending requests: conflicts waiting for a viewer, cancellations waiting for an answer.
module Protocol {
  import opened Domain
  import opened Ordering
  import opened Tuners
  import opened Registry
  import opened LiveRequests
  import opened RecordRequests
  import opened Times
  import Timers

  datatype Pending =
    | CancelLiveEntry(uuid: Uuid, request: ReserveTuner, parent: TunerId)
    | ConflictEntry(uuid: Uuid, client: ClientId, live: Reservation, conflicts: seq<Reservation>,
                    request: ReserveTuner, parent: TunerId)
    | CancelRecordingEntry(uuid: Uuid, client: ClientId, token: Token)

  datatype State = State(
    book: Book,
    uuid: nat -> Uuid,              // the supply behind GenerateUUID
    issued: nat,                    // how many of them were handed out
    pending: seq<Pending>,
    pendingTimers: map<Uuid, Timers.Clockwork>,
    // history, for properties of whole runs
    seen: set<Uuid>,                // ids of the reserve requests served so far
    granted: multiset<Uuid>,        // one occurrence per reservation granted to a request
    cancelled: set<Uuid>)           // requests the user cancelled while in conflict

  const CONFLICT_RESOLUTION_TIMEOUT_MS: nat := 53500
  const CANCEL_RECORDING_TIMEOUT_MS: nat := 15000
  const CANCEL_LIVE_TIMEOUT_MS: nat := 10000

  // ---------------------------------------------------------------- the list

  function Ids(pending: seq<Pending>): (ids: set<Uuid>)
  {
    set i | 0 <= i < |pending| :: pending[i].uuid
  }

  function FindPending(pending: seq<Pending>, u: Uuid): (p: Option<Pending>)
    ensures p.Some? ==> p.value in pending && p.value.uuid == u
    ensures p.None? ==> forall x :: x in pending ==> x.uuid != u
  {
    if pending == [] then None
    else if pending[0].uuid == u then Some(pending[0])
    else FindPending(pending[1..], u)
  }

  // The temporary Record tokens of the pending conflicts.
  function Temps(pending: seq<Pending>): set<Token> {
    set i, j | 0 <= i < |pending| && pending[i].ConflictEntry? && 0 <= j < |pending[i].conflicts| ::
      pending[i].conflicts[j].token
  }

  function RemoveFirst(pending: seq<Pending>, u: Uuid): seq<Pending> {
    if pending == [] then []
    else if pending[0].uuid == u then pending[1..]
    else [pending[0]] + RemoveFirst(pending[1..], u)
  }

  ghost function AddPending(s: State, p: Pending, timeout: nat): State {
    s.(pending := s.pending + [p],
       pendingTimers := if p.uuid in s.pendingTimers then s.pendingTimers
                        else s.pendingTimers[p.uuid := Timers.SetIn(p.uuid, timeout, s.book.now)])
  }

  ghost function RemovePending(s: State, u: Uuid): State {
    if FindPending(s.pending, u).None? then s
    else s.(pending := RemoveFirst(s.pending, u), pendingTimers := s.pendingTimers - {u})
  }

  // ---------------------------------------------------------------- the unconditional grant

  ghost function Minted(s: State): Uuid {
    s.uuid(s.issued)
  }

  // The reservation such a grant inserts.
  ghost function GrantedRecord(s: Book, q: ReserveTuner, parent: TunerId, token: Token): Reservation
    requires parent in s.tuners
  {
    Adjusted(StateOf(s.tuners[parent]), q.reservation, s.now, s.now, s.now).(token := token)
  }

  // Inserting it under a token already chosen; false when an assertion stops it.
  ghost function GrantUnder(s: State, q: ReserveTuner, parent: TunerId, token: Token): (State, bool)
    requires parent in s.book.tuners
  {
    var (book, outcome) := Insert(s.book, GrantedRecord(s.book, q, parent, token), parent, RECORDER_CLIENT);
    if outcome == Added then (s.(book := book, granted := s.granted + multiset{q.uuid}), true)
    else (s.(book := book), false)
  }

  // Granting a Record its tuner without a search.
  ghost function Grant(s: State, q: ReserveTuner, parent: TunerId): (State, bool) {
    if q.reservation.activity != Record then (s, q.reservation.activity != Live)
    else if parent !in s.book.tuners then (s, false)
    else if q.reservation.token == "" then GrantUnder(s.(issued := s.issued + 1), q, parent, Minted(s))
    else GrantUnder(s, q, parent, q.reservation.token)
  }

  // ---------------------------------------------------------------- timeouts

  // The assertions that open the timeout of a conflict.
  ghost predicate OpeningAsserts(s: State, p: Pending)
    requires p.ConflictEntry?
  {
    && FindPending(s.pending, p.uuid) == Some(p)
    && p.request.reservation.activity == Record
    && |p.conflicts| == 1
    && p.conflicts[0].activity == Record
    && p.live.activity == Live
  }

  ghost function ConflictTimeout(s: State, online: set<ClientId>, p: Pending): (State, bool)
    requires p.ConflictEntry?
  {
    if !OpeningAsserts(s, p) || p.parent !in s.book.tuners then (s, false)
    else
      var h := s.book.tuners[p.parent];
      if |h| == 1 then LoneTimeout(s, online, p, h[Sorted(h.Keys)[0]])
      else if |h| == 2 then
        if StateOf(h) == HybridState then Grant(s, p.request, p.parent) else (s, false)
      else if |h| == 0 then Grant(s, p.request, p.parent)
      else (s, false)
  }

  // One reservation on the tuner: an emergency channel cancels the Record, a Live is asked to give way.
  ghost function LoneTimeout(s: State, online: set<ClientId>, p: Pending, r: Reservation): (State, bool)
    requires p.ConflictEntry?
  {
    if r.Detail("eas") == "true" && p.request.reservation.locator != r.locator then
      (s, RECORDER_CLIENT in online)
    else if r.activity != Live then (s, false)
    else if RECORDER_CLIENT !in online then (s.(issued := s.issued + 1), true)
    else (AddPending(s.(issued := s.issued + 1), CancelLiveEntry(Minted(s), p.request, p.parent), CANCEL_LIVE_TIMEOUT_MS), true)
  }

  ghost function Timeout(s: State, online: set<ClientId>, p: Pending): (State, bool) {
    match p
    case CancelLiveEntry(_, request, parent) => Grant(s, request, parent)
    case ConflictEntry(_, _, _, _, _, _) => ConflictTimeout(s, online, p)
    case CancelRecordingEntry(_, client, _) => (s, client in online)
  }

  // A pending timer fires: the entry goes away only if its timeout completes.
  ghost function PendingDue(s: State, online: set<ClientId>, u: Uuid): State {
    var p := FindPending(s.pending, u);
    if p.None? then s else
      var (s', ok) := Timeout(s, online, p.value);
      if ok then RemovePending(s', u) else s'
  }

  // The clock of a pending timer goes off, early or late; the task runs if the timer lets it.
  ghost function PendingClock(s: State, online: set<ClientId>, u: Uuid): State {
    if u !in s.pendingTimers then s
    else if Timers.RunBy(s.pendingTimers[u], Timers.Fire(s.book.now)).Some? then PendingDue(PendingMarked(s, u), online, u)
    else PendingMarked(s, u)
  }

  ghost function PendingMarked(s: State, u: Uuid): State
    requires u in s.pendingTimers
  {
    s.(pendingTimers := s.pendingTimers[u := Timers.Fired(s.pendingTimers[u], s.book.now)])
  }

  // ---------------------------------------------------------------- answers

  ghost function CancelLiveReply(s: State, u: Uuid): State {
    var p := FindPending(s.pending, u);
    if p.None? || !p.value.CancelLiveEntry? then s else
      var (s', ok) := Grant(s, p.value.request, p.value.parent);
      if ok then RemovePending(s', u) else s'
  }

  ghost function Withdrawn(s: State, online: set<ClientId>, token: Token): State {
    var p := FindPending(s.pending, token);
    if p.None? || !p.value.ConflictEntry? || p.value.client !in online then s
    else RemovePending(s, token).(cancelled := s.cancelled + {p.value.request.uuid})
  }

  // Cancelling a recording: a temporary token withdraws the pending request for good,
  // a granted one is put to the recorder.
  ghost function CancelRecording(s: State, online: set<ClientId>, client: ClientId, uuid: Uuid, token: Token): State {
    if token in Temps(s.pending) then Withdrawn(s, online, token)
    else if !IsHeld(s.book, token) || Lookup(s.book, token).activity != Record then s
    else AddPending(s, CancelRecordingEntry(uuid, client, token), CANCEL_RECORDING_TIMEOUT_MS)
  }

  ghost function CancelAnswered(s: State, online: set<ClientId>, uuid: Uuid, token: Token): State {
    var p := FindPending(s.pending, uuid);
    if p.None? || !p.value.CancelRecordingEntry? || p.value.token != token then s
    else if p.value.client !in online then RemovePending(s, uuid)
    else RemovePending(s, uuid).(book := Drop(s.book, token))
  }

  ghost function CancelRecordingReply(s: State, online: set<ClientId>, client: ClientId, uuid: Uuid, token: Token): State {
    if !IsHeld(s.book, token) || Lookup(s.book, token).activity != Record || client == TRM_CLIENT then s
    else CancelAnswered(s, online, uuid, token)
  }

  // ---------------------------------------------------------------- re-evaluation

  // A conflict is over when its Live is gone or has moved to the recording's channel.
  ghost predicate Ripe(book: Book, p: Pending)
    requires p.ConflictEntry?
  {
    !IsHeld(book, p.live.token) ||
    (|p.conflicts| == 1 && Lookup(book, p.live.token).locator == p.conflicts[0].locator)
  }

  // What is left to visit: a conflict may append one entry, any other entry appends none.
  function Work(pending: seq<Pending>, i: nat): nat
    requires i <= |pending|
    decreases |pending| - i
  {
    if i == |pending| then 0
    else (if pending[i].ConflictEntry? then 2 else 1) + Work(pending, i + 1)
  }

  lemma {:induction false} WorkAppend(pending: seq<Pending>, p: Pending, i: nat)
    requires i <= |pending|
    ensures Work(pending + [p], i) == Work(pending, i) + if p.ConflictEntry? then 2 else 1
    decreases |pending| - i
  {
    if i < |pending| {
      WorkAppend(pending, p, i + 1);
    } else {
      assert Work(pending + [p], i + 1) == 0;
    }
  }

  lemma GrantKeepsPending(s: State, q: ReserveTuner, parent: TunerId)
    ensures var s' := Grant(s, q, parent).0;
      s'.pending == s.pending && s'.pendingTimers == s.pendingTimers && s'.uuid == s.uuid
      && s'.seen == s.seen && s'.cancelled == s.cancelled
  {
  }

  lemma ConflictTimeoutPending(s: State, online: set<ClientId>, p: Pending)
    requires p.ConflictEntry?
    ensures var s' := ConflictTimeout(s, online, p).0;
      s'.pending == s.pending || s'.pending == s.pending + [CancelLiveEntry(Minted(s), p.request, p.parent)]
  {
    GrantKeepsPending(s, p.request, p.parent);
  }

  // The walk over a list that grows while it is walked. The second component lists what completed.
  ghost function Walk(s: State, online: set<ClientId>, i: nat, done: seq<Uuid>): (State, seq<Uuid>)
    requires i <= |s.pending|
    decreases Work(s.pending, i)
  {
    if i == |s.pending| then (s, done)
    else
      var p := s.pending[i];
      if p.ConflictEntry? && Ripe(s.book, p) then
        var (s', ok) := ConflictTimeout(s, online, p);
        ConflictTimeoutPending(s, online, p);
        WorkAppend(s.pending, CancelLiveEntry(Minted(s), p.request, p.parent), i + 1);
        Walk(s', online, i + 1, if ok then done + [p.uuid] else done)
      else Walk(s, online, i + 1, done)
  }

  ghost function RemoveAll(s: State, done: seq<Uuid>): State
    decreases |done|
  {
    if done == [] then s else RemoveAll(RemovePending(s, done[0]), done[1..])
  }

  ghost function Reevaluate(s: State, online: set<ClientId>): State {
    var (s', done) := Walk(s, online, 0, []);
    RemoveAll(s', done)
  }

  // ---------------------------------------------------------------- requests

  // History, then the book: what a Live reply adds to the state.
  ghost function AfterLive(s: State, q: ReserveTuner, book: Book, reply: LiveReply): State {
    var s := s.(book := book);
    if reply.LiveGranted? then
      s.(granted := s.granted + multiset{q.uuid},
         issued := if reply.reservation.token == Minted(s) then s.issued + 1 else s.issued)
    else s
  }

  ghost function AfterRecord(s: State, q: ReserveTuner, client: ClientId, book: Book, reply: RecordReply): State {
    var s := s.(book := book);
    match reply
    case RecordGranted(_) => s.(granted := s.granted + multiset{q.uuid}, issued := s.issued + 1)
    case RecordRenewed(_) => s.(granted := s.granted + multiset{q.uuid})
    case RecordInConflict(live, parent) =>
      AddPending(s.(issued := s.issued + 1),
                 ConflictEntry(Minted(s), client, live, [q.reservation.(token := Minted(s))], q, parent),
                 CONFLICT_RESOLUTION_TIMEOUT_MS)
    case _ => s
  }

  ghost function Reserve(s: State, q: ReserveTuner, client: ClientId): State {
    var s := s.(seen := s.seen + {q.uuid});
    match q.reservation.activity
    case Live =>
      var (book, reply) := ReserveLive(s.book, q, client, Minted(s));
      AfterLive(s, q, book, reply)
    case Record =>
      var (book, reply) := ReserveRecord(s.book, Temps(s.pending), q, client, Minted(s));
      AfterRecord(s, q, client, book, reply)
    case _ => s
  }
}
