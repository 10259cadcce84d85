// Building runs event by event, and a first one: two pending conflicts that name the same Live.
module Scenes {
  import opened Domain
  import opened Ordering
  import opened Tuners
  import opened Registry
  import opened LivePlacement
  import opened Invariants
  import opened LiveRequests
  import opened RecordPlacement
  import opened RecordRequests
  import opened Lifecycle
  import opened Protocol
  import opened ProtocolInvariants
  import opened ReserveSteps
  import opened Runs

  // ---------------------------------------------------------------- requests and single steps

  function Asks(uuid: Uuid, device: Device, activity: Activity, locator: Locator, token: Token, start: nat, duration: nat): ReserveTuner {
    ReserveTuner(uuid, device, Reservation(token, device, locator, start, duration, activity, map[], IDLE), false)
  }

  lemma OneMore(sys: System, events: seq<Event>, e: Event)
    requires AdmissibleRun(sys, events) && Admissible(Run(sys, events), e)
    ensures AdmissibleRun(sys, events + [e]) && Run(sys, events + [e]) == Step(Run(sys, events), e)
  {
    var longer := events + [e];
    assert longer[..|events|] == events;
    forall i | 0 <= i < |longer| ensures Admissible(Run(sys, longer[..i]), longer[i]) {
      assert i < |events| ==> longer[..i] == events[..i];
    }
  }

  // What a run has come to: the reservations, how many ids were drawn, which requests were served.
  ghost predicate At(sys0: System, s: State, tuners: map<TunerId, Holdings>, drawn: nat, seen: set<Uuid>) {
    && Inv(s)
    && s.book.tuners == tuners && s.book.now == sys0.state.book.now && s.book.deviceId == sys0.state.book.deviceId
    && s.uuid == sys0.state.uuid && s.issued == drawn && s.seen == seen
  }

  // A reservation alone on its tuner, granted and due.
  ghost predicate Due(s: Book, id: TunerId, r: Reservation) {
    && id in s.tuners && s.tuners[id] == map[r.token := r]
    && r.phase == IDLE && r.start <= s.now
    && r.token in s.startTimers && s.startTimers[r.token].armed
  }

  // It starts, and is ACTIVE as it was granted.
  lemma Starts(sys: System, id: TunerId, r: Reservation)
    requires Inv(sys.state) && Due(sys.state.book, id, r)
    ensures Admissible(sys, StartTimer(r.token))
    ensures var s, s' := sys.state, Step(sys, StartTimer(r.token)).state;
      && Inv(s')
      && s' == s.(book := s'.book)
      && s'.book.tuners == s.book.tuners[id := map[r.token := r.(phase := ACTIVE)]]
      && s'.book.now == s.book.now && s'.book.local == s.book.local && s'.book.deviceId == s.book.deviceId
  {
    var s, t := sys.state, r.token;
    hide *;
    InvParts(s);
    SoundParts(s.book);
    DueParts(s.book, id, r);
    AloneHeld(s.book, id, r);
    DueStarts(sys, id, r);
    StepInv(sys, StartTimer(t));
    StartClockIs(s.book, t);
    MarkedSame(s.book, t);
    ClocksHold(s.book, StartMarked(s.book, t));
    StartTuners(StartMarked(s.book, t), t);
    StartedAlone(r);
    StartedIs(StartMarked(s.book, t), t);
  }

  lemma DueParts(s: Book, id: TunerId, r: Reservation)
    requires Due(s, id, r)
    ensures id in s.tuners && s.tuners[id] == map[r.token := r]
    ensures r.phase == IDLE && r.start <= s.now && r.token in s.startTimers && s.startTimers[r.token].armed
  {
  }

  lemma DueStarts(sys: System, id: TunerId, r: Reservation)
    requires Due(sys.state.book, id, r) && IsHeld(sys.state.book, r.token) && HomeOf(sys.state.book, r.token) == id
    ensures Admissible(sys, StartTimer(r.token))
    ensures Step(sys, StartTimer(r.token)).state == sys.state.(book := StartClock(sys.state.book, r.token))
  {
    hide StartClock, IsHeld, HomeOf;
  }

  lemma AloneHeld(s: Book, id: TunerId, r: Reservation)
    requires OneHome(s) && id in s.tuners && s.tuners[id] == map[r.token := r]
    ensures IsHeld(s, r.token) && HomeOf(s, r.token) == id && Lookup(s, r.token) == r
  {
    HeldOn(s, id, r.token);
  }

  lemma StartedAlone(r: Reservation)
    ensures Synced(Activated(map[r.token := r], r.token)) == map[r.token := r.(phase := ACTIVE)]
  {
    var h := Activated(map[r.token := r], r.token);
    assert !(HasActive(h, Live) && HasActive(h, Record));
  }

  lemma StartedIs(s: Book, t: Token)
    requires IsHeld(s, t)
    ensures StartedTuner(s, t) == Synced(Activated(s.tuners[HomeOf(s, t)], t))
    ensures Start(s, t).now == s.now && Start(s, t).local == s.local && Start(s, t).deviceId == s.deviceId
  {
    hide Synced, Activated, SyncRaises;
  }

  // A Live of a device without one, granted: where it went, and which tuner is the reserved one then.
  lemma LiveLands(s: State, q: ReserveTuner, client: ClientId) returns (id: TunerId, local: TunerId)
    requires Inv(s) && ReserveAdmissible(s, q) && q.reservation.activity == Live && q.reservation.token == ""
    requires OwnLive(s.book, q.device) == None && LiveGrantable(s.book, q.device, q.reservation.locator, None)
    ensures Quiet(s.book, id) && local in s.book.tuners && (q.device != s.book.deviceId ==> local != id)
    ensures var b := s.book.(local := local);
      Reserve(s, q, client) == Served(s, q.uuid, Put(b, LiveReservation(b, q, Minted(s), id), id, client), s.issued + 1)
  {
    hide *;
    InvParts(s);
    LiveAdmissibleNow(s, q);
    ReadyForLive(s.book, q);
    var c := ChooseLive(s.book, q.device, q.reservation.locator, None);
    LiveGrantedIff(s.book, q.device, q.reservation.locator, None);
    LiveChoiceSound(s.book, q.device, q.reservation.locator, None);
    id, local := c.target.value, c.local;
    ChosenQuiet(s.book, q);
    LiveDecision(s.book, q, client, Minted(s));
    RoomChosen(s.book, q);
    GrantLiveSound(s.book, q, client, None, Minted(s), id, local);
    NewToken(s, q, local);
    ReserveLiveIs(s, q, client);
    LandedToken(s.book.(local := local), q, Minted(s), id);
  }

  lemma ChosenQuiet(s: Book, q: ReserveTuner)
    requires s.deviceId != "" && Ready(s) && OwnLive(s, q.device) == None
    ensures var c := ChooseLive(s, q.device, q.reservation.locator, None);
      && (c.target.Some? ==> Quiet(s, c.target.value) && c.target.value in s.tuners)
      && c.local in s.tuners
  {
    ChoiceShape(s, q.device, q.reservation.locator, None);
    hide ChooseLive, Coherent;
  }

  lemma RoomChosen(s: Book, q: ReserveTuner)
    requires LiveRoom(s, q) && OwnLive(s, q.device) == None && q.reservation.token == ""
    ensures var c := ChooseLive(s, q.device, q.reservation.locator, None);
      && !TokenMismatch(q, None)
      && (c.target.Some? && c.target.value in s.tuners ==> Roomy(Vacated(s, None, c.local), c.target.value))
  {
    hide ChooseLive, OwnLive;
  }

  lemma NewToken(s: State, q: ReserveTuner, local: TunerId)
    requires q.reservation.token == ""
    ensures LiveToken(q, None, Minted(s)) == Minted(s) && Vacated(s.book, None, local) == s.book.(local := local)
  {
  }

  lemma LandedToken(s: Book, q: ReserveTuner, token: Token, id: TunerId)
    requires id in s.tuners
    ensures LiveReservation(s, q, token, id).token == token
  {
  }

  // A Record for which the search finds a tuner without an overlapping Record, granted.
  lemma RecordLands(s: State, q: ReserveTuner, client: ClientId, id: TunerId)
    requires Inv(s) && ReserveAdmissible(s, q) && Waitable(q)
    requires SearchRecord(s.book, q.reservation) == Place(id) && id in s.book.tuners && ClearOfRecords(s.book.tuners[id], q.reservation)
    ensures Reserve(s, q, client) ==
      Served(s, q.uuid, Put(s.book.(local := LocalAfterRecord(s.book, id)), q.reservation.(token := Minted(s)), id, client), s.issued + 1)
  {
    assert q.reservation.activity == Record && q.reservation.token == "";
    hide *;
    InvParts(s);
    ReserveRecordParts(s, q);
    ReserveRecordIs(s, q, client);
    ClearNeverClashes(s.book.tuners[id], q.reservation);
    PlacedRoom(s.book, q, id);
    PlacedBook(s.book, Temps(s.pending), q, client, Minted(s), id);
  }

  lemma PlacedRoom(s: Book, q: ReserveTuner, id: TunerId)
    requires RecordRoom(s, q) && q.reservation.token == "" && SearchRecord(s, q.reservation) == Place(id) && id in s.tuners
    ensures TakesWhole(s.tuners[id], q.reservation)
  {
    hide SearchRecord;
  }

  lemma PlacedBook(s: Book, temps: set<Token>, q: ReserveTuner, client: ClientId, minted: Token, id: TunerId)
    requires Sound(s) && LivesStarted(s) && RecordAdmissible(s, q, minted) && q.reservation.token == ""
    requires SearchRecord(s, q.reservation) == Place(id) && id in s.tuners
    requires TakesWhole(s.tuners[id], q.reservation) && !Clashes(s.tuners[id], q.reservation)
    ensures var r := q.reservation.(token := minted);
      ReserveRecord(s, temps, q, client, minted) == (Put(s.(local := LocalAfterRecord(s, id)), r, id, client), RecordGranted(r))
  {
    var local := LocalAfterRecord(s, id);
    var s1 := s.(local := local);
    var r := q.reservation.(token := minted);
    LocalAfterRecordReservable(s, id);
    LocalSound(s, local);
    LocalSame(s, local);
    assert Insertable(s1, r, id);
    InsertSound(s1, r, id, client);
    assert !Clashes(s1.tuners[id], r);
    hide Insert, SearchRecord, Put, Sound, LocalAfterRecord;
  }

  // ---------------------------------------------------------------- searches on small servers

  // A tuner that only serves Lives of other channels.
  predicate Busy(h: Holdings, locator: Locator) {
    && (exists t :: t in h)
    && forall t :: t in h ==> Fits(h[t], Live, ACTIVE, "") && h[t].locator != "" && h[t].locator != locator
  }

  lemma BusyIs(h: Holdings, r: Reservation)
    requires Busy(h, r.locator)
    ensures StateOf(h) == LiveState
    ensures !TunerPasses("", h, ByTunerLocator(r.locator)) && !Meets(h, BackToBack(r.locator, r.start))
  {
    var t :| t in h;
    assert HasActive(h, Live) && !HasActive(h, Record);
    assert t in Sorted(h.Keys);
  }

  lemma EmptyIs(r: Reservation, now: nat)
    ensures StateOf(map[]) == FreeState
    ensures !Meets(map[], BackToBack(r.locator, r.start)) && Meets(map[], TakesRecording(r.locator, now))
  {
  }

  // With nothing but Lives of other channels and empty tuners, an empty tuner takes the Record, or nobody.
  lemma SearchAmongLives(s: Book, r: Reservation)
    requires forall id :: id in s.tuners ==> Busy(s.tuners[id], r.locator) || s.tuners[id] == map[]
    ensures SearchRecord(s, r).Nowhere? ==> forall id :: id in s.tuners ==> s.tuners[id] != map[]
    ensures !SearchRecord(s, r).Nowhere? ==>
      SearchRecord(s, r).Place? && SearchRecord(s, r).id in s.tuners && s.tuners[SearchRecord(s, r).id] == map[]
  {
    hide Meets, StateOf, ServiceLocator, Busy, LastMeeting, FirstMeeting, KeepTuners, DoneBy, IdsInState;
    EmptyIs(r, s.now);
    forall id | id in s.tuners ensures !Meets(s.tuners[id], BackToBack(r.locator, r.start)) {
      if s.tuners[id] != map[] { BusyIs(s.tuners[id], r); }
    }
    assert BackToBackStage(s, r) == None;
    forall id ensures !InState(s, id, HybridState) && !InState(s, id, RecordState) {
      if id in s.tuners && s.tuners[id] != map[] { BusyIs(s.tuners[id], r); }
    }
    forall id | InState(s, id, LiveState) ensures !TunerPasses(id, s.tuners[id], ByTunerLocator(r.locator)) {
      BusyIs(s.tuners[id], r);
    }
    NoneKept(s, r);
    FreeFound(s, r);
    hide BackToBackStage, RecordAndFreeStages;
  }

  lemma NoneKept(s: Book, r: Reservation)
    requires forall id :: !InState(s, id, HybridState) && !InState(s, id, RecordState)
    requires forall id :: InState(s, id, LiveState) ==> !TunerPasses(id, s.tuners[id], ByTunerLocator(r.locator))
    ensures KeepTuners(s, ByTunerLocator(r.locator), DoneBy(s, HybridState, r.start)) == []
    ensures KeepTuners(s, ByTunerLocator(r.locator), IdsInState(s, LiveState)) == []
    ensures KeepTuners(s, ByTunerLocator(r.locator), DoneBy(s, RecordState, r.start)) == [] && DoneBy(s, RecordState, r.start) == []
    ensures FirstMeeting(s, [], LoneLive(r.locator)) == None
  {
    EmptyOrMember(KeepTuners(s, ByTunerLocator(r.locator), DoneBy(s, HybridState, r.start)));
    EmptyOrMember(KeepTuners(s, ByTunerLocator(r.locator), IdsInState(s, LiveState)));
    EmptyOrMember(DoneBy(s, RecordState, r.start));
  }

  lemma FreeFound(s: Book, r: Reservation)
    requires forall id :: id in s.tuners ==> Busy(s.tuners[id], r.locator) || s.tuners[id] == map[]
    requires KeepTuners(s, ByTunerLocator(r.locator), DoneBy(s, RecordState, r.start)) == [] && DoneBy(s, RecordState, r.start) == []
    ensures var found := RecordAndFreeStages(s, r);
      if found.Nowhere? then forall id :: id in s.tuners ==> s.tuners[id] != map[]
      else found.Place? && found.id in s.tuners && s.tuners[found.id] == map[]
  {
    EmptyIs(r, s.now);
    var free := FirstMeeting(s, IdsInState(s, FreeState), TakesRecording(r.locator, s.now));
    if free.Some? {
      assert InState(s, free.value, FreeState);
      if s.tuners[free.value] != map[] { BusyIs(s.tuners[free.value], r); }
    } else {
      forall id | id in s.tuners ensures s.tuners[id] != map[] {
        assert s.tuners[id] == map[] ==> InState(s, id, FreeState);
      }
    }
    hide FirstMeeting, IdsInState, StateOf;
  }

  // ---------------------------------------------------------------- how a scene goes on

  lemma MapsTo(s: Book, r: Reservation, id: TunerId, client: ClientId)
    requires id in s.tuners
    ensures var s' := Put(s, r, id, client);
      && s'.tuners == s.tuners[id := s.tuners[id][r.token := r]]
      && s'.now == s.now && s'.local == s.local && s'.deviceId == s.deviceId
      && r.token in s'.startTimers && s'.startTimers[r.token].armed
  {
  }

  lemma AtParts(sys0: System, s: State, tuners: map<TunerId, Holdings>, drawn: nat, seen: set<Uuid>)
    requires At(sys0, s, tuners, drawn, seen)
    ensures Inv(s) && s.book.tuners == tuners && s.issued == drawn && s.seen == seen && Minted(s) == sys0.state.uuid(drawn)
    ensures s.book.now == sys0.state.book.now && s.book.deviceId == sys0.state.book.deviceId
  {
  }

  lemma AtServed(sys0: System, s: State, tuners: map<TunerId, Holdings>, drawn: nat, seen: set<Uuid>, u: Uuid, book: Book)
    requires At(sys0, s, tuners, drawn, seen) && Inv(Served(s, u, book, drawn + 1))
    requires book.now == s.book.now && book.deviceId == s.book.deviceId
    ensures At(sys0, Served(s, u, book, drawn + 1), book.tuners, drawn + 1, seen + {u})
    ensures Served(s, u, book, drawn + 1).book == book && Served(s, u, book, drawn + 1).pending == s.pending
  {
  }

  // The first Live of all goes to an empty tuner, and is due if it asks to be.
  lemma FirstLive(sys: System, q: ReserveTuner, client: ClientId) returns (id: TunerId)
    requires Initial(sys)
    requires q.reservation.activity == Live && q.reservation.phase == IDLE && q.reservation.locator != ""
    requires q.reservation.token == "" && q.device == q.reservation.device && q.reservation.start <= sys.state.book.now
    requires q.device == sys.state.book.deviceId || exists i :: i in sys.state.book.tuners && i != sys.state.book.local
    ensures Admissible(sys, ReserveRequest(q, client)) && id in sys.state.book.tuners
    ensures var s', r := Step(sys, ReserveRequest(q, client)).state, q.reservation.(token := sys.state.uuid(0));
      && At(sys, s', sys.state.book.tuners[id := map[r.token := r]], 1, {q.uuid})
      && Due(s'.book, id, r) && s'.pending == []
      && s'.book.local in sys.state.book.tuners && (q.device != sys.state.book.deviceId ==> s'.book.local != id)
  {
    hide *;
    var s := sys.state;
    InitialInv(sys);
    InitialParts(sys);
    InitialAt(sys);
    StartsEmpty(s.book, q);
    FirstLiveGranted(sys, q, client);
    FirstStep(sys, q, client);
    var local;
    id, local := LiveLands(s, q, client);
    QuietKnown(s.book, id);
    ReserveInv(s, q, client);
    var b, r := s.book.(local := local), q.reservation.(token := Minted(s));
    LandsAsAsked(b, q, Minted(s), id);
    MapsTo(b, r, id, client);
    AtServed(sys, s, s.book.tuners, 0, {}, q.uuid, Put(b, r, id, client));
    assert {} + {q.uuid} == {q.uuid};
    AtParts(sys, s, s.book.tuners, 0, {});
    DueFrom(Put(b, r, id, client), id, r);
  }

  lemma InitialAt(sys: System)
    requires Initial(sys) && Inv(sys.state)
    ensures At(sys, sys.state, sys.state.book.tuners, 0, {}) && sys.state.pending == []
  {
  }

  lemma QuietKnown(s: Book, id: TunerId)
    requires Quiet(s, id)
    ensures id in s.tuners
  {
  }

  lemma LandsAsAsked(s: Book, q: ReserveTuner, token: Token, id: TunerId)
    requires id in s.tuners && s.tuners[id] == map[] && q.reservation.start <= s.now
    ensures LiveReservation(s, q, token, id) == q.reservation.(token := token)
  {
  }

  lemma DueFrom(s: Book, id: TunerId, r: Reservation)
    requires id in s.tuners && s.tuners[id] == map[][r.token := r]
    requires r.phase == IDLE && r.start <= s.now && r.token in s.startTimers && s.startTimers[r.token].armed
    ensures Due(s, id, r)
  {
  }

  // A due reservation alone on its tuner starts.
  lemma Goes(sys0: System, sys: System, tuners: map<TunerId, Holdings>, drawn: nat, seen: set<Uuid>, id: TunerId, r: Reservation)
    requires At(sys0, sys.state, tuners, drawn, seen) && Due(sys.state.book, id, r)
    ensures Admissible(sys, StartTimer(r.token))
    ensures var s' := Step(sys, StartTimer(r.token)).state;
      && At(sys0, s', tuners[id := map[r.token := r.(phase := ACTIVE)]], drawn, seen)
      && s'.pending == sys.state.pending && s'.book.local == sys.state.book.local
  {
    Starts(sys, id, r);
    hide Inv, Due, Step, Admissible;
  }

  // A Record that finds a clear tuner lands there.
  lemma Lands(sys0: System, s: State, tuners: map<TunerId, Holdings>, drawn: nat, seen: set<Uuid>,
              q: ReserveTuner, client: ClientId, id: TunerId)
    requires At(sys0, s, tuners, drawn, seen) && ReserveAdmissible(s, q) && Waitable(q) && id in tuners
    requires SearchRecord(s.book, q.reservation) == Place(id) && ClearOfRecords(tuners[id], q.reservation)
    ensures var s', r := Reserve(s, q, client), q.reservation.(token := sys0.state.uuid(drawn));
      && At(sys0, s', tuners[id := tuners[id][r.token := r]], drawn + 1, seen + {q.uuid})
      && s'.pending == s.pending && s'.book.local == LocalAfterRecord(s.book, id)
      && r.token in s'.book.startTimers && s'.book.startTimers[r.token].armed
  {
    hide *;
    AtParts(sys0, s, tuners, drawn, seen);
    RecordLands(s, q, client, id);
    ReserveInv(s, q, client);
    var b, r := s.book.(local := LocalAfterRecord(s.book, id)), q.reservation.(token := Minted(s));
    MapsTo(b, r, id, client);
    AtServed(sys0, s, tuners, drawn, seen, q.uuid, Put(b, r, id, client));
  }

  // ---------------------------------------------------------------- one Live, two conflicts

  // A server with one tuner, serving one Live.
  ghost predicate OneViewer(s: Book, id: TunerId, live: Reservation) {
    s.tuners == map[id := map[live.token := live]] && Fits(live, Live, ACTIVE, "") && live.locator != ""
  }

  // A Record on another channel is put in conflict with the Live, whatever the device.
  lemma ViewerInTheWay(s: Book, id: TunerId, live: Reservation, temps: set<Token>, r: Reservation)
    requires OneHome(s) && OneLive(s) && OneViewer(s, id, live) && r.locator != live.locator && live.token !in temps
    ensures LivesStarted(s) && SearchRecord(s, r) == Nowhere
    ensures RecordConflict(s, temps, r) == Some(live.token)
    ensures IsHeld(s, live.token) && HomeOf(s, live.token) == id && Lookup(s, live.token) == live
  {
    hide *;
    ViewerIs(s, id, live, temps, r);
    SearchAmongLives(s, r);
    RecordConflictExact(s, temps, r);
    assert GivesWay(s, temps, live.token);
  }

  lemma ViewerIs(s: Book, id: TunerId, live: Reservation, temps: set<Token>, r: Reservation)
    requires OneHome(s) && OneViewer(s, id, live) && r.locator != live.locator && live.token !in temps
    ensures LivesStarted(s) && IsHeld(s, live.token) && HomeOf(s, live.token) == id && Lookup(s, live.token) == live
    ensures forall i :: i in s.tuners ==> Busy(s.tuners[i], r.locator) && s.tuners[i] != map[]
    ensures forall t :: GivesWay(s, temps, t) <==> t == live.token
  {
    var h := s.tuners[id];
    assert live.token in h && Busy(h, r.locator);
    AloneHeld(s, id, live);
    BusyIs(h, r);
    hide HomeOf, StateOf;
    assert GivesWay(s, temps, live.token);
  }

  lemma OpensConflict(sys0: System, s: State, tuners: map<TunerId, Holdings>, drawn: nat, seen: set<Uuid>,
                      q: ReserveTuner, client: ClientId, id: TunerId, live: Reservation)
    requires At(sys0, s, tuners, drawn, seen) && OneViewer(s.book, id, live) && Waitable(q) && q.uuid !in seen
    requires q.reservation.locator != live.locator && live.token !in Temps(s.pending)
    ensures ReserveAdmissible(s, q)
    ensures var s' := Reserve(s, q, client);
      At(sys0, s', tuners, drawn + 1, seen + {q.uuid}) && s'.pending == s.pending + [ConflictOf(s, q, client, live, id)]
      && s'.book == s.book
  {
    hide *;
    AtParts(sys0, s, tuners, drawn, seen);
    InvParts(s);
    SoundParts(s.book);
    ViewerInTheWay(s.book, id, live, Temps(s.pending), q.reservation);
    WaitableAdmissible(s, q);
    ReserveInv(s, q, client);
    ConflictReply(s.book, Temps(s.pending), q, client, Minted(s), live.token);
    WaitableIs(q);
    ReserveRecordIs(s, q, client);
    AtOpened(sys0, s, tuners, drawn, seen, q, ConflictOf(s, q, client, live, id));
    assert s.(seen := s.seen + {q.uuid}, book := s.book, issued := s.issued + 1) == s.(seen := s.seen + {q.uuid}, issued := s.issued + 1);
  }

  lemma WaitableIs(q: ReserveTuner)
    requires Waitable(q)
    ensures q.reservation.activity == Record && q.reservation.token == "" && q.reservation.phase == IDLE
  {
  }

  lemma WaitableAdmissible(s: State, q: ReserveTuner)
    requires Waitable(q) && q.uuid !in s.seen && LivesStarted(s.book) && SearchRecord(s.book, q.reservation) == Nowhere
    ensures ReserveAdmissible(s, q)
  {
    hide SearchRecord, LivesStarted;
  }

  lemma ConflictReply(s: Book, temps: set<Token>, q: ReserveTuner, client: ClientId, minted: Token, t: Token)
    requires Waitable(q) && SearchRecord(s, q.reservation) == Nowhere && RecordConflict(s, temps, q.reservation) == Some(t)
    requires IsHeld(s, t)
    ensures ReserveRecord(s, temps, q, client, minted) == (s, RecordInConflict(Lookup(s, t), HomeOf(s, t)))
  {
    hide SearchRecord, RecordConflict;
  }

  lemma AtOpened(sys0: System, s: State, tuners: map<TunerId, Holdings>, drawn: nat, seen: set<Uuid>, q: ReserveTuner, p: Pending)
    requires At(sys0, s, tuners, drawn, seen)
    requires Inv(AddPending(s.(seen := s.seen + {q.uuid}, issued := s.issued + 1), p, CONFLICT_RESOLUTION_TIMEOUT_MS))
    ensures var s' := AddPending(s.(seen := s.seen + {q.uuid}, issued := s.issued + 1), p, CONFLICT_RESOLUTION_TIMEOUT_MS);
      At(sys0, s', tuners, drawn + 1, seen + {q.uuid}) && s'.pending == s.pending + [p] && s'.book == s.book
  {
  }

  // A Live that a device asks for at once and that then starts.
  ghost function Watching(sys: System, device: Device): seq<Event> {
    [ReserveRequest(Asks("live", device, Live, "a", "", sys.state.book.now, 100), 1), StartTimer(sys.state.uuid(0))]
  }

  ghost function Watched(sys: System, device: Device): Reservation {
    Asks("live", device, Live, "a", "", sys.state.book.now, 100).reservation.(token := sys.state.uuid(0), phase := ACTIVE)
  }

  lemma Watches(sys: System, device: Device) returns (id: TunerId)
    requires Initial(sys)
    requires device == sys.state.book.deviceId || exists i :: i in sys.state.book.tuners && i != sys.state.book.local
    ensures AdmissibleRun(sys, Watching(sys, device)) && id in sys.state.book.tuners
    ensures var s, live := Run(sys, Watching(sys, device)).state, Watched(sys, device);
      && At(sys, s, sys.state.book.tuners[id := map[live.token := live]], 1, {"live"}) && s.pending == []
      && s.book.local in sys.state.book.tuners && (device != sys.state.book.deviceId ==> s.book.local != id)
  {
    hide *;
    var es, live := Watching(sys, device), Watched(sys, device);
    WatchingIs(sys, device);
    var q, asked := es[0].q, live.(phase := IDLE);
    NoEvents(sys);
    id := FirstLive(sys, q, 1);
    OneMore(sys, [], es[0]);
    var tuners := sys.state.book.tuners[id := map[asked.token := asked]];
    Goes(sys, Run(sys, [] + [es[0]]), tuners, 1, {"live"}, id, asked);
    OneMore(sys, [] + [es[0]], es[1]);
    assert tuners[id := map[live.token := live]] == sys.state.book.tuners[id := map[live.token := live]];
  }

  lemma WatchingIs(sys: System, device: Device)
    ensures var es, live := Watching(sys, device), Watched(sys, device);
      && |es| == 2 && es[0].ReserveRequest? && es[0].client == 1 && es == [] + [es[0]] + [es[1]]
      && es[1] == StartTimer(sys.state.uuid(0)) && live.phase == ACTIVE
      && var q, asked := es[0].q, live.(phase := IDLE);
      && asked == q.reservation.(token := sys.state.uuid(0))
      && q.uuid == "live" && q.device == device && q.reservation.device == device && q.reservation.token == ""
      && q.reservation.activity == Live && q.reservation.phase == IDLE && q.reservation.locator != ""
      && q.reservation.start == sys.state.book.now
  {
  }

  lemma NoEvents(sys: System)
    ensures AdmissibleRun(sys, []) && Run(sys, []) == sys
  {
  }

  function RecordAsked(uuid: Uuid, device: Device, now: nat): (q: ReserveTuner)
    ensures Waitable(q) && q.uuid == uuid && q.reservation.locator == "b" && q.reservation.start == now
  {
    Asks(uuid, device, Record, "b", "", now, 100)
  }

  // A viewer of the host on one channel, then two recordings on another.
  ghost function TwoRecordings(sys: System): seq<Event> {
    var now, host := sys.state.book.now, sys.state.book.deviceId;
    Watching(sys, host) + [ReserveRequest(RecordAsked("one", host, now), 2)] + [ReserveRequest(RecordAsked("two", host, now), 2)]
  }

  // A run that has come to one viewer on one tuner, whose token is not a temporary one.
  ghost predicate Viewed(sys: System, events: seq<Event>, drawn: nat, seen: set<Uuid>, id: TunerId, live: Reservation) {
    var s := Run(sys, events).state;
    && AdmissibleRun(sys, events)
    && At(sys, s, s.book.tuners, drawn, seen)
    && OneViewer(s.book, id, live) && live.token !in Temps(s.pending)
  }

  lemma ViewedParts(sys: System, events: seq<Event>, drawn: nat, seen: set<Uuid>, id: TunerId, live: Reservation)
    requires Viewed(sys, events, drawn, seen, id, live)
    ensures var s := Run(sys, events).state;
      && AdmissibleRun(sys, events) && At(sys, s, s.book.tuners, drawn, seen)
      && OneViewer(s.book, id, live) && live.token !in Temps(s.pending)
  {
    hide Run, AdmissibleRun, At, OneViewer, Temps;
  }

  lemma ViewedFrom(sys: System, events: seq<Event>, drawn: nat, seen: set<Uuid>, id: TunerId, live: Reservation)
    requires var s := Run(sys, events).state;
      && AdmissibleRun(sys, events) && At(sys, s, s.book.tuners, drawn, seen)
      && OneViewer(s.book, id, live) && live.token !in Temps(s.pending)
    ensures Viewed(sys, events, drawn, seen, id, live)
  {
    hide Run, AdmissibleRun, At, OneViewer, Temps;
  }

  // One more recording on another channel, one more conflict with the same Live.
  lemma OneMoreConflict(sys: System, events: seq<Event>, drawn: nat, seen: set<Uuid>, q: ReserveTuner, id: TunerId, live: Reservation)
    requires Viewed(sys, events, drawn, seen, id, live) && live.token != sys.state.uuid(drawn)
    requires Waitable(q) && q.uuid !in seen && q.reservation.locator != live.locator
    ensures Viewed(sys, events + [ReserveRequest(q, 2)], drawn + 1, seen + {q.uuid}, id, live)
    ensures var s := Run(sys, events).state;
      Run(sys, events + [ReserveRequest(q, 2)]).state.pending == s.pending + [ConflictOf(s, q, 2, live, id)]
  {
    hide *;
    ViewedParts(sys, events, drawn, seen, id, live);
    var sys1 := Run(sys, events);
    var s := sys1.state;
    AtParts(sys, s, s.book.tuners, drawn, seen);
    OpensConflict(sys, s, s.book.tuners, drawn, seen, q, 2, id, live);
    FirstStep(sys1, q, 2);
    OneMore(sys, events, ReserveRequest(q, 2));
    OneMoreTemp(s, q, live, id);
    ViewedFrom(sys, events + [ReserveRequest(q, 2)], drawn + 1, seen + {q.uuid}, id, live);
  }

  lemma OneMoreTemp(s: State, q: ReserveTuner, live: Reservation, id: TunerId)
    ensures var p := ConflictOf(s, q, 2, live, id);
      && p.ConflictEntry? && p.live == live && p.request == q
      && forall t :: t in Temps(s.pending + [p]) ==> t in Temps(s.pending) || t == Minted(s)
  {
    var p := ConflictOf(s, q, 2, live, id);
    var more := s.pending + [p];
    forall t | t in Temps(more) && t != Minted(s) ensures t in Temps(s.pending) {
      var i, j :| 0 <= i < |more| && more[i].ConflictEntry? && 0 <= j < |more[i].conflicts| && more[i].conflicts[j].token == t;
      assert i < |s.pending|;
    }
  }

  lemma ViewerAlone(sys: System, id: TunerId)
    requires Initial(sys) && sys.state.book.tuners.Keys == {id}
    ensures var host := sys.state.book.deviceId;
      && Viewed(sys, Watching(sys, host), 1, {"live"}, id, Watched(sys, host))
      && Run(sys, Watching(sys, host)).state.pending == []
  {
    hide *;
    var host := sys.state.book.deviceId;
    var start, live := Watching(sys, host), Watched(sys, host);
    var i := Watches(sys, host);
    var s := Run(sys, start).state;
    WatchedIs(sys, host);
    AtParts(sys, s, sys.state.book.tuners[id := map[live.token := live]], 1, {"live"});
    ViewerShown(s.book, sys.state.book.tuners, id, live);
    NoTemps(live.token);
    ViewedFrom(sys, start, 1, {"live"}, id, live);
  }

  // On a server with one tuner this leaves two pending conflicts, both naming the one Live.
  lemma TwoConflictsOneLive(sys: System, id: TunerId)
    requires Initial(sys) && sys.state.book.tuners.Keys == {id}
    ensures AdmissibleRun(sys, TwoRecordings(sys))
    ensures var s := Run(sys, TwoRecordings(sys)).state;
      && |s.pending| == 2 && s.pending[0].ConflictEntry? && s.pending[1].ConflictEntry?
      && s.pending[0].live == s.pending[1].live && IsHeld(s.book, s.pending[0].live.token)
      && s.pending[0].request.uuid == "one" && s.pending[1].request.uuid == "two"
  {
    hide *;
    var host, now := sys.state.book.deviceId, sys.state.book.now;
    var one, two := RecordAsked("one", host, now), RecordAsked("two", host, now);
    var start, live := Watching(sys, host), Watched(sys, host);
    var es1 := start + [ReserveRequest(one, 2)];
    TwoRecordingsAre(sys);
    WatchedIs(sys, host);
    UuidsDiffer(sys);
    ViewerAlone(sys, id);
    OneMoreConflict(sys, start, 1, {"live"}, one, id, live);
    OneMoreConflict(sys, es1, 2, {"live"} + {"one"}, two, id, live);
    OneMoreTemp(Run(sys, start).state, one, live, id);
    OneMoreTemp(Run(sys, es1).state, two, live, id);
    ViewedParts(sys, TwoRecordings(sys), 3, {"live"} + {"one"} + {"two"}, id, live);
    var s := Run(sys, TwoRecordings(sys)).state;
    AtParts(sys, s, s.book.tuners, 3, {"live"} + {"one"} + {"two"});
    InvParts(s);
    SoundParts(s.book);
    ViewerHeld(s.book, id, live);
  }

  lemma TwoRecordingsAre(sys: System)
    ensures var host, now := sys.state.book.deviceId, sys.state.book.now;
      TwoRecordings(sys) ==
        Watching(sys, host) + [ReserveRequest(RecordAsked("one", host, now), 2)] + [ReserveRequest(RecordAsked("two", host, now), 2)]
  {
    hide Watching, RecordAsked;
  }

  lemma ViewerHeld(s: Book, id: TunerId, live: Reservation)
    requires OneHome(s) && OneViewer(s, id, live)
    ensures IsHeld(s, live.token)
  {
    AloneHeld(s, id, live);
  }

  lemma WatchedIs(sys: System, device: Device)
    ensures var live := Watched(sys, device);
      live.token == sys.state.uuid(0) && Fits(live, Live, ACTIVE, "") && live.locator == "a" && live.device == device
  {
  }

  lemma UuidsDiffer(sys: System)
    requires Initial(sys)
    ensures sys.state.uuid(0) != sys.state.uuid(1) && sys.state.uuid(0) != sys.state.uuid(2)
  {
  }

  lemma ViewerShown(s: Book, empty: map<TunerId, Holdings>, id: TunerId, live: Reservation)
    requires empty.Keys == {id} && s.tuners == empty[id := map[live.token := live]]
    requires Fits(live, Live, ACTIVE, "") && live.locator != ""
    ensures OneViewer(s, id, live)
  {
  }

  lemma NoTemps(t: Token)
    ensures t !in Temps([])
  {
  }

  // ---------------------------------------------------------------- longer scenes, event by event

  ghost predicate RunsTo(sys: System, events: seq<Event>, tuners: map<TunerId, Holdings>, drawn: nat, seen: set<Uuid>) {
    AdmissibleRun(sys, events) && At(sys, Run(sys, events).state, tuners, drawn, seen)
  }

  lemma RunsToParts(sys: System, events: seq<Event>, tuners: map<TunerId, Holdings>, drawn: nat, seen: set<Uuid>)
    requires RunsTo(sys, events, tuners, drawn, seen)
    ensures AdmissibleRun(sys, events) && At(sys, Run(sys, events).state, tuners, drawn, seen)
  {
    hide AdmissibleRun, At, Run;
  }

  lemma RunsToFrom(sys: System, events: seq<Event>, tuners: map<TunerId, Holdings>, drawn: nat, seen: set<Uuid>)
    requires AdmissibleRun(sys, events) && At(sys, Run(sys, events).state, tuners, drawn, seen)
    ensures RunsTo(sys, events, tuners, drawn, seen)
  {
    hide AdmissibleRun, At, Run;
  }

  // A Record lands on the tuner the search finds, if that tuner is clear and has room.
  lemma RecordNext(sys: System, events: seq<Event>, tuners: map<TunerId, Holdings>, drawn: nat, seen: set<Uuid>,
                   q: ReserveTuner, client: ClientId, id: TunerId)
    requires RunsTo(sys, events, tuners, drawn, seen) && Waitable(q) && q.uuid !in seen && id in tuners
    requires LivesStarted(Run(sys, events).state.book) && SearchRecord(Run(sys, events).state.book, q.reservation) == Place(id)
    requires ClearOfRecords(tuners[id], q.reservation) && Uncrowded(tuners[id])
    ensures var r := q.reservation.(token := sys.state.uuid(drawn));
      var events' := events + [ReserveRequest(q, client)];
      var s' := Run(sys, events').state;
      && RunsTo(sys, events', tuners[id := tuners[id][r.token := r]], drawn + 1, seen + {q.uuid})
      && r.token in s'.book.startTimers && s'.book.startTimers[r.token].armed
  {
    hide *;
    RunsToParts(sys, events, tuners, drawn, seen);
    var sys1 := Run(sys, events);
    AtParts(sys, sys1.state, tuners, drawn, seen);
    PlacedAdmissible(sys1.state, q, id);
    Lands(sys, sys1.state, tuners, drawn, seen, q, client, id);
    FirstStep(sys1, q, client);
    OneMore(sys, events, ReserveRequest(q, client));
    var r := q.reservation.(token := sys.state.uuid(drawn));
    RunsToFrom(sys, events + [ReserveRequest(q, client)], tuners[id := tuners[id][r.token := r]], drawn + 1, seen + {q.uuid});
  }

  lemma PlacedAdmissible(s: State, q: ReserveTuner, id: TunerId)
    requires Waitable(q) && q.uuid !in s.seen && LivesStarted(s.book)
    requires SearchRecord(s.book, q.reservation) == Place(id) && id in s.book.tuners && Uncrowded(s.book.tuners[id])
    ensures ReserveAdmissible(s, q)
  {
    hide SearchRecord, LivesStarted, Uncrowded;
  }

  // It starts if it is alone there and due.
  lemma StartNext(sys: System, events: seq<Event>, tuners: map<TunerId, Holdings>, drawn: nat, seen: set<Uuid>, id: TunerId, r: Reservation)
    requires RunsTo(sys, events, tuners, drawn, seen) && Due(Run(sys, events).state.book, id, r)
    ensures RunsTo(sys, events + [StartTimer(r.token)], tuners[id := map[r.token := r.(phase := ACTIVE)]], drawn, seen)
  {
    hide *;
    RunsToParts(sys, events, tuners, drawn, seen);
    Goes(sys, Run(sys, events), tuners, drawn, seen, id, r);
    OneMore(sys, events, StartTimer(r.token));
    RunsToFrom(sys, events + [StartTimer(r.token)], tuners[id := map[r.token := r.(phase := ACTIVE)]], drawn, seen);
  }

  // A Record put on an empty tuner at once, and started.
  lemma RecordStarts(sys: System, events: seq<Event>, tuners: map<TunerId, Holdings>, drawn: nat, seen: set<Uuid>,
                     q: ReserveTuner, client: ClientId, id: TunerId)
    requires RunsTo(sys, events, tuners, drawn, seen) && Waitable(q) && q.uuid !in seen && q.reservation.start <= sys.state.book.now
    requires id in tuners && tuners[id] == map[] && LivesStarted(Run(sys, events).state.book)
    requires SearchRecord(Run(sys, events).state.book, q.reservation) == Place(id)
    ensures var r := q.reservation.(token := sys.state.uuid(drawn), phase := ACTIVE);
      RunsTo(sys, events + [ReserveRequest(q, client)] + [StartTimer(r.token)], tuners[id := map[r.token := r]], drawn + 1, seen + {q.uuid})
  {
    hide *;
    var r := q.reservation.(token := sys.state.uuid(drawn));
    var events', tuners' := events + [ReserveRequest(q, client)], tuners[id := map[][r.token := r]];
    EmptyHasRoom(q.reservation);
    WaitableIs(q);
    RecordNext(sys, events, tuners, drawn, seen, q, client, id);
    RunsToParts(sys, events', tuners', drawn + 1, seen + {q.uuid});
    var s := Run(sys, events').state;
    AtParts(sys, s, tuners', drawn + 1, seen + {q.uuid});
    DueFrom(s.book, id, r);
    StartNext(sys, events', tuners', drawn + 1, seen + {q.uuid}, id, r);
    var started := map[r.token := r.(phase := ACTIVE)];
    assert tuners'[id := started] == tuners[id := started];
  }

  lemma EmptyHasRoom(r: Reservation)
    ensures ClearOfRecords(map[], r) && Uncrowded(map[])
  {
    assert ActiveTokens(map[]) == {};
  }
}
