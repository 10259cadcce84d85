// Two runs that end badly: a viewer's channel change is refused, and a renewal loses its reservation.
module Failures {
  import opened Domain
  import opened Ordering
  import opened Tuners
  import opened Registry
  import opened LivePlacement
  import opened Invariants
  import opened LiveRequests
  import opened RecordPlacement
  import opened RecordRequests
  import opened Protocol
  import opened ProtocolInvariants
  import opened ReserveSteps
  import opened Runs
  import Retention
  import opened Scenes

  // ---------------------------------------------------------------- a channel change refused

  // A remote viewer on one channel, then a recording of another.
  ghost function Recording(sys: System, remote: Device): seq<Event> {
    Watching(sys, remote) + [ReserveRequest(RecordAsked("one", sys.state.book.deviceId, sys.state.book.now), 2)] + [StartTimer(sys.state.uuid(1))]
  }

  function Recorded(sys: System): Reservation {
    RecordAsked("one", sys.state.book.deviceId, sys.state.book.now).reservation.(token := sys.state.uuid(1), phase := ACTIVE)
  }

  lemma RecordedIs(sys: System)
    ensures var r := Recorded(sys); Fits(r, Record, ACTIVE, "b") && r.token == sys.state.uuid(1)
  {
  }

  // One tuner shows the viewer's channel, the other one records.
  ghost predicate Split(s: Book, viewing: TunerId, recording: TunerId, live: Reservation, r: Reservation) {
    && viewing != recording
    && s.tuners == map[viewing := map[live.token := live], recording := map[r.token := r]]
    && Fits(live, Live, ACTIVE, "") && live.locator == "a" && Fits(r, Record, ACTIVE, "b")
  }

  lemma RecordingRuns(sys: System, remote: Device, a: TunerId, b: TunerId) returns (viewing: TunerId, recording: TunerId)
    requires Initial(sys) && a != b && sys.state.book.tuners.Keys == {a, b} && remote != sys.state.book.deviceId
    ensures var s := Run(sys, Recording(sys, remote)).state;
      && AdmissibleRun(sys, Recording(sys, remote)) && Inv(s) && s.seen == {"live", "one"}
      && s.book.deviceId == sys.state.book.deviceId && s.book.now == sys.state.book.now
      && Split(s.book, viewing, recording, Watched(sys, remote), Recorded(sys))
  {
    hide *;
    var start, live, r := Watching(sys, remote), Watched(sys, remote), Recorded(sys);
    var q := RecordAsked("one", sys.state.book.deviceId, sys.state.book.now);
    assert exists i :: i in sys.state.book.tuners && i != sys.state.book.local;
    viewing := Watches(sys, remote);
    recording := if viewing == a then b else a;
    WatchedIs(sys, remote);
    RecordedIs(sys);
    RecordingIs(sys, remote);
    InitialParts(sys);
    var tuners := sys.state.book.tuners[viewing := map[live.token := live]];
    RunsToFrom(sys, start, tuners, 1, {"live"});
    var s := Run(sys, start).state;
    AtParts(sys, s, tuners, 1, {"live"});
    ShowsOne(s.book, viewing, recording, live, q.reservation);
    RecordStarts(sys, start, tuners, 1, {"live"}, q, 2, recording);
    var tuners' := tuners[recording := map[r.token := r]];
    RunsToParts(sys, Recording(sys, remote), tuners', 2, {"live"} + {"one"});
    var s' := Run(sys, Recording(sys, remote)).state;
    AtParts(sys, s', tuners', 2, {"live"} + {"one"});
    SplitShown(s'.book, tuners', viewing, recording, live, r);
  }

  lemma RecordingIs(sys: System, remote: Device)
    ensures var q := RecordAsked("one", sys.state.book.deviceId, sys.state.book.now);
      && Recording(sys, remote) == Watching(sys, remote) + [ReserveRequest(q, 2)] + [StartTimer(Recorded(sys).token)]
      && Recorded(sys) == q.reservation.(token := sys.state.uuid(1), phase := ACTIVE)
  {
    hide Watching, RecordAsked;
  }

  lemma ShowsOne(s: Book, viewing: TunerId, recording: TunerId, live: Reservation, r: Reservation)
    requires viewing != recording && s.tuners.Keys == {viewing, recording}
    requires s.tuners[viewing] == map[live.token := live] && s.tuners[recording] == map[]
    requires Fits(live, Live, ACTIVE, "") && live.locator == "a" && r.locator == "b"
    ensures LivesStarted(s) && SearchRecord(s, r) == Place(recording)
  {
    var h := s.tuners[viewing];
    assert live.token in h && Busy(h, r.locator);
    assert h != map[];
    SearchAmongLives(s, r);
    hide SearchRecord;
  }

  lemma SplitShown(s: Book, tuners: map<TunerId, Holdings>, viewing: TunerId, recording: TunerId, live: Reservation, r: Reservation)
    requires viewing != recording && tuners.Keys == {viewing, recording} && s.tuners == tuners
    requires tuners[viewing] == map[live.token := live] && tuners[recording] == map[r.token := r]
    requires Fits(live, Live, ACTIVE, "") && live.locator == "a" && Fits(r, Record, ACTIVE, "b")
    ensures Split(s, viewing, recording, live, r)
  {
    assert s.tuners == map[viewing := map[live.token := live], recording := map[r.token := r]];
  }

  // On such a server the recording tuner is the reserved one, and nothing is left for the viewer.
  lemma SplitRefuses(s: Book, viewing: TunerId, recording: TunerId, live: Reservation, r: Reservation)
    requires Sound(s) && Split(s, viewing, recording, live, r) && live.device != s.deviceId
    ensures LivesStarted(s) && Ready(s) && OwnLive(s, live.device) == Some(live.token)
    ensures OnLiveTuner(s, Some(live.token)) && !OnLocator(s, "b", Some(live.token))
    ensures Sharing(s, "b", s.local) && !AnotherQuiet(s, s.local)
  {
    hide *;
    SplitIs(s, viewing, recording, live, r);
    SoundParts(s);
    SplitStates(live, r);
    AloneHeld(s, viewing, live);
    SplitLocal(s, viewing, recording, live, r);
    SplitOwn(s, live.token);
    SplitReady(s);
    SplitSharing(s, viewing, recording, live.token);
  }

  lemma SplitIs(s: Book, viewing: TunerId, recording: TunerId, live: Reservation, r: Reservation)
    requires Split(s, viewing, recording, live, r)
    ensures viewing != recording && s.tuners.Keys == {viewing, recording}
    ensures s.tuners[viewing] == map[live.token := live] && s.tuners[recording] == map[r.token := r]
    ensures Fits(live, Live, ACTIVE, "") && live.activity == Live && live.locator == "a" && Fits(r, Record, ACTIVE, "b")
  {
  }

  lemma SplitStates(live: Reservation, r: Reservation)
    requires Fits(live, Live, ACTIVE, "") && Fits(r, Record, ACTIVE, "b")
    ensures StateOf(map[live.token := live]) == LiveState
    ensures StateOf(map[r.token := r]) == RecordState && Meets(map[r.token := r], SharesRecording("b"))
  {
    var viewing, recording := map[live.token := live], map[r.token := r];
    assert live.token in viewing && HasActive(viewing, Live);
    assert r.token in recording && HasActive(recording, Record);
    assert Fits(recording[r.token], Record, ACTIVE, "");
  }

  lemma SplitLocal(s: Book, viewing: TunerId, recording: TunerId, live: Reservation, r: Reservation)
    requires Reservable(s, s.local) && live.device != s.deviceId && s.tuners.Keys == {viewing, recording}
    requires s.tuners[viewing] == map[live.token := live] && s.tuners[recording] == map[r.token := r] && viewing != recording
    requires Fits(live, Live, ACTIVE, "") && Fits(r, Record, ACTIVE, "b")
    ensures s.local == recording && LivesStarted(s)
  {
    assert HoldsLive(s, viewing, live.token);
  }

  lemma SplitReady(s: Book)
    requires Sound(s) && LivesStarted(s)
    ensures Ready(s)
  {
  }

  lemma SplitSharing(s: Book, viewing: TunerId, recording: TunerId, t: Token)
    requires IsHeld(s, t) && HomeOf(s, t) == viewing && Lookup(s, t).locator == "a"
    requires viewing != recording && s.tuners.Keys == {viewing, recording} && s.local == recording
    requires StateOf(s.tuners[viewing]) == LiveState
    requires StateOf(s.tuners[recording]) == RecordState && Meets(s.tuners[recording], SharesRecording("b"))
    ensures OnLiveTuner(s, Some(t)) && !OnLocator(s, "b", Some(t))
    ensures Sharing(s, "b", s.local) && !AnotherQuiet(s, s.local)
  {
    hide StateOf, Meets, IsHeld, HomeOf, Lookup;
  }

  lemma SplitOwn(s: Book, t: Token)
    requires OneHome(s) && OneLive(s) && IsHeld(s, t) && Lookup(s, t).activity == Live
    ensures OwnLive(s, Lookup(s, t).device) == Some(t)
  {
    OwnLivesAre(s, Lookup(s, t).device, Some(t));
    hide OwnLives;
  }

  // With two tuners, a remote viewer asking for the channel that is being recorded is refused.
  lemma ChannelChangeRefused(sys: System, remote: Device, a: TunerId, b: TunerId)
    requires Initial(sys) && a != b && sys.state.book.tuners.Keys == {a, b} && remote != sys.state.book.deviceId
    ensures var s := Run(sys, Recording(sys, remote)).state;
      var q := Asks("zap", remote, Live, "b", "", s.book.now, 100);
      && AdmissibleRun(sys, Recording(sys, remote) + [ReserveRequest(q, 1)])
      && ReserveLive(s.book, q, 1, Minted(s)).1.LiveRefused?
  {
    hide *;
    var viewing, recording := RecordingRuns(sys, remote, a, b);
    var sys1 := Run(sys, Recording(sys, remote));
    var s, live := sys1.state, Watched(sys, remote);
    var q := Asks("zap", remote, Live, "b", "", s.book.now, 100);
    WatchedIs(sys, remote);
    ZapIs(remote, s.book.now);
    InvParts(s);
    SplitRefuses(s.book, viewing, recording, live, Recorded(sys));
    ReadyForLive(s.book, q);
    RemoteChannelChangeRefusedIff(s.book, remote, "b", Some(live.token));
    LiveGrantedIff(s.book, remote, "b", Some(live.token));
    RefusedAdmissible(s, q, Some(live.token));
    LiveAdmissibleNow(s, q);
    LiveRequestEffect(s.book, q, 1, Minted(s));
    FirstStep(sys1, q, 1);
    OneMore(sys, Recording(sys, remote), ReserveRequest(q, 1));
  }

  lemma ZapIs(remote: Device, now: nat)
    ensures var q := Asks("zap", remote, Live, "b", "", now, 100);
      && q.uuid == "zap" && q.device == remote && q.reservation.device == remote && q.reservation.token == "" && !q.resurrect
      && q.reservation.activity == Live && q.reservation.phase == IDLE && q.reservation.locator == "b"
  {
  }

  lemma RefusedAdmissible(s: State, q: ReserveTuner, own: Option<Token>)
    requires q.uuid !in s.seen && LivesStarted(s.book) && own == OwnLive(s.book, q.device)
    requires q.device == q.reservation.device && q.reservation.token == ""
    requires q.reservation.activity == Live && q.reservation.phase == IDLE && q.reservation.locator != ""
    requires ChooseLive(s.book, q.device, q.reservation.locator, own).target.None?
    ensures ReserveAdmissible(s, q) && !TokenMismatch(q, own)
  {
    hide OwnLive, ChooseLive, LivesStarted;
  }

  // ---------------------------------------------------------------- a renewal that loses its reservation

  // A recording that runs, and a later one on another channel.
  ghost function Later(sys: System): seq<Event> {
    var host, now := sys.state.book.deviceId, sys.state.book.now;
    [] + [ReserveRequest(RecordAsked("one", host, now), 2)] + [StartTimer(sys.state.uuid(0))] + [ReserveRequest(LaterAsked(sys), 2)]
  }

  ghost function LaterAsked(sys: System): (q: ReserveTuner)
    ensures Waitable(q) && q.uuid == "two" && q.reservation.locator == "c" && q.reservation.device == sys.state.book.deviceId
    ensures q.reservation.start == sys.state.book.now + 200
  {
    Asks("two", sys.state.book.deviceId, Record, "c", "", sys.state.book.now + 200, 50)
  }

  // The later one, moved forward into the window of the first.
  ghost function Renewal(sys: System): (q: ReserveTuner)
    ensures var r := q.reservation;
      && r.activity == Record && r.phase == IDLE && r.locator == "c" && r.device == sys.state.book.deviceId
      && r.token == sys.state.uuid(1) && r.start == sys.state.book.now + 50 && r.duration == 100 && q.uuid == "again"
  {
    Asks("again", sys.state.book.deviceId, Record, "c", sys.state.uuid(1), sys.state.book.now + 50, 100)
  }

  ghost function Running(sys: System): (r: Reservation)
    ensures Fits(r, Record, ACTIVE, "b") && r.token == sys.state.uuid(0) && r.End() == sys.state.book.now + 100
  {
    RecordAsked("one", sys.state.book.deviceId, sys.state.book.now).reservation.(token := sys.state.uuid(0), phase := ACTIVE)
  }

  // One tuner with a running Record, and a Record elsewhere that starts after it ended.
  lemma AnyRecordStage(s: Book, id: TunerId, running: Reservation, r: Reservation)
    requires s.tuners == map[id := map[running.token := running]] && Fits(running, Record, ACTIVE, "b")
    requires r.locator == "c" && running.End() <= r.start
    ensures SearchRecord(s, r) == Place(id) && ClearOfRecords(s.tuners[id], r) && Uncrowded(s.tuners[id]) && LivesStarted(s)
  {
    var h := s.tuners[id];
    RunningIs(running, r);
    assert RecordsEndBy(h, r.start);
    assert forall i :: InState(s, i, RecordState) ==> i == id;
    assert forall i :: !InState(s, i, HybridState) && !InState(s, i, LiveState);
    hide StateOf, ServiceLocator, EndTime, ActiveTokens;
    AnyStages(s, id, r);
  }

  lemma RunningIs(running: Reservation, r: Reservation)
    requires Fits(running, Record, ACTIVE, "b") && r.locator == "c"
    ensures var h := map[running.token := running];
      && StateOf(h) == RecordState && Uncrowded(h)
      && !TunerPasses("", h, ByTunerLocator("c")) && !Meets(h, BackToBack(r.locator, r.start))
  {
    var h := map[running.token := running];
    assert HasActive(h, Record);
    assert running.token in Sorted(h.Keys);
    assert ActiveTokens(h) == {running.token};
  }

  lemma AnyStages(s: Book, id: TunerId, r: Reservation)
    requires s.tuners.Keys == {id} && InState(s, id, RecordState) && r.locator == "c" && RecordsEndBy(s.tuners[id], r.start)
    requires !TunerPasses("", s.tuners[id], ByTunerLocator("c")) && !Meets(s.tuners[id], BackToBack(r.locator, r.start))
    requires forall i :: !InState(s, i, HybridState) && !InState(s, i, LiveState)
    ensures SearchRecord(s, r) == Place(id)
  {
    hide KeepTuners, IdsInState, InState, FirstMeeting, LastMeeting, Meets, StateOf, ServiceLocator;
    EmptyOrMember(DoneOn(s, HybridState, r));
    EmptyOrMember(KeepTuners(s, ByTunerLocator("c"), IdsInState(s, LiveState)));
    EmptyOrMember(DoneOn(s, RecordState, r));
    var any := DoneBy(s, RecordState, r.start);
    EmptyOrMember(any);
    assert id in IdsInState(s, RecordState);
    assert id in any;
    assert DoneOn(s, HybridState, r) == [] && DoneOn(s, RecordState, r) == [] && LiveOn(s, r) == None;
    assert BackToBackStage(s, r) == None;
    hide DoneBy, DoneOn, LiveOn, BackToBackStage;
  }

  lemma LaterRuns(sys: System, id: TunerId)
    requires Initial(sys) && sys.state.book.tuners.Keys == {id}
    ensures var r := LaterAsked(sys).reservation.(token := sys.state.uuid(1));
      RunsTo(sys, Later(sys), map[id := map[Running(sys).token := Running(sys)][r.token := r]], 2, {"one", "two"})
  {
    hide *;
    var host, now := sys.state.book.deviceId, sys.state.book.now;
    var one, two, running := RecordAsked("one", host, now), LaterAsked(sys), Running(sys);
    var empty := sys.state.book.tuners;
    LaterIs(sys);
    NoEvents(sys);
    InitialInv(sys);
    InitialParts(sys);
    InitialAt(sys);
    RunsToFrom(sys, [], empty, 0, {});
    EmptySearch(sys.state.book, id, one.reservation);
    RecordStarts(sys, [], empty, 0, {}, one, 2, id);
    var es := [] + [ReserveRequest(one, 2)] + [StartTimer(running.token)];
    var tuners := empty[id := map[running.token := running]];
    assert tuners == map[id := map[running.token := running]];
    assert {} + {"one"} == {"one"};
    RunsToParts(sys, es, tuners, 1, {"one"});
    var s := Run(sys, es).state;
    AtParts(sys, s, tuners, 1, {"one"});
    AnyRecordStage(s.book, id, running, two.reservation);
    RecordNext(sys, es, tuners, 1, {"one"}, two, 2, id);
    var r := two.reservation.(token := sys.state.uuid(1));
    assert tuners[id := tuners[id][r.token := r]] == map[id := map[running.token := running][r.token := r]];
    assert {"one"} + {"two"} == {"one", "two"};
  }

  lemma LaterIs(sys: System)
    ensures var one := RecordAsked("one", sys.state.book.deviceId, sys.state.book.now);
      && Later(sys) == [] + [ReserveRequest(one, 2)] + [StartTimer(Running(sys).token)] + [ReserveRequest(LaterAsked(sys), 2)]
      && Running(sys) == one.reservation.(token := sys.state.uuid(0), phase := ACTIVE)
  {
    hide RecordAsked, LaterAsked;
  }

  lemma EmptySearch(s: Book, id: TunerId, r: Reservation)
    requires s.tuners.Keys == {id} && s.tuners[id] == map[]
    ensures SearchRecord(s, r) == Place(id) && LivesStarted(s)
  {
    SearchAmongLives(s, r);
    hide SearchRecord;
  }

  // With one tuner, moving the later recording into the window of the running one loses it.
  lemma RenewalLost(sys: System, id: TunerId)
    requires Initial(sys) && sys.state.book.tuners.Keys == {id}
    ensures var s, q := Run(sys, Later(sys)).state, Renewal(sys);
      var s' := Run(sys, Later(sys) + [ReserveRequest(q, 2)]).state;
      && AdmissibleRun(sys, Later(sys) + [ReserveRequest(q, 2)])
      && ReserveRecord(s.book, Temps(s.pending), q, 2, Minted(s)).1.RecordLost?
      && IsHeld(s.book, q.reservation.token) && !IsHeld(s'.book, q.reservation.token)
  {
    hide *;
    var q, running := Renewal(sys), Running(sys);
    var r := LaterAsked(sys).reservation.(token := sys.state.uuid(1));
    var tuners := map[id := map[running.token := running][r.token := r]];
    LaterRuns(sys, id);
    RunsToParts(sys, Later(sys), tuners, 2, {"one", "two"});
    var sys1 := Run(sys, Later(sys));
    var s := sys1.state;
    AtParts(sys, s, tuners, 2, {"one", "two"});
    InvParts(s);
    SoundParts(s.book);
    UuidsDiffer(sys);
    RenewalMeets(sys);
    RenewalClashes(s.book, id, running, r, q.reservation);
    RenewalAdmissible(s, q);
    RenewEffect(s.book, Temps(s.pending), q, 2, Minted(s));
    FirstMatches(s.book, q.reservation);
    assert Matches(s.book, q.reservation, q.reservation.token);
    FirstStep(sys1, q, 2);
    OneMore(sys, Later(sys), ReserveRequest(q, 2));
    Retention.RecordBook(s, q, 2);
    DropCoherent(s.book, q.reservation.token);
  }

  lemma RenewalMeets(sys: System)
    ensures Fits(LaterAsked(sys).reservation.(token := sys.state.uuid(1)), Record, IDLE, "c")
    ensures Overlaps(Running(sys), Renewal(sys).reservation)
  {
  }

  lemma RenewalClashes(s: Book, id: TunerId, running: Reservation, later: Reservation, r: Reservation)
    requires OneHome(s) && s.tuners == map[id := map[running.token := running][later.token := later]] && running.token != later.token
    requires Fits(running, Record, ACTIVE, "b") && Fits(later, Record, IDLE, "c") && r.token == later.token
    requires r.activity == Record && r.locator == "c" && r.device == later.device && Overlaps(running, r)
    ensures LivesStarted(s) && IsHeld(s, r.token)
    ensures Clashes(s.tuners[HomeOf(s, r.token)] - {r.token}, r)
    ensures forall t :: Matches(s, r, t) <==> t == r.token
  {
    HeldOn(s, id, later.token);
    HeldOn(s, id, running.token);
    var h := s.tuners[id] - {later.token};
    assert h[running.token] == running && Disagrees(h[running.token], r) && HasActive(h, Record);
    hide HomeOf;
    forall t | Matches(s, r, t) ensures t == r.token {
      assert Holds(s, HomeOf(s, t), t);
    }
  }

  lemma RenewalAdmissible(s: State, q: ReserveTuner)
    requires q.uuid !in s.seen && LivesStarted(s.book) && IsHeld(s.book, q.reservation.token)
    requires q.reservation.activity == Record && q.reservation.phase == IDLE && q.reservation.locator != "" && q.reservation.token != ""
    requires Clashes(s.book.tuners[HomeOf(s.book, q.reservation.token)] - {q.reservation.token}, q.reservation)
    ensures ReserveAdmissible(s, q) && RecordRoom(s.book, q)
  {
    hide SearchRecord, LivesStarted, Clashes, HomeOf, IsHeld;
  }
}
