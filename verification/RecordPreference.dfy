// Which tuner a Record gets.
module RecordPreference {
  import opened Domain
  import opened Ordering
  import opened Tuners
  import opened Registry
  import opened LivePlacement
  import opened Plain
  import opened LivePreference
  import opened RecordPlacement

  // ---------------------------------------------------------------- the order of preference

  ghost predicate OnlyRecordsUpTo(h: Holdings, t: Token) {
    t in h && forall u :: u in h && (u == t || Less(u, t)) ==> h[u].activity == Record
  }

  // The Records that come before everything else, in the order of tokens, are over by then.
  ghost predicate LeadersOver(h: Holdings, start: nat) {
    forall t :: OnlyRecordsUpTo(h, t) ==> h[t].End() <= start
  }

  ghost predicate AllOver(h: Holdings, start: nat) {
    forall t :: t in h && h[t].activity == Record ==> h[t].End() <= start
  }

  ghost predicate Lone(h: Holdings, phase: Phase, locator: Locator, t: Token) {
    h.Keys == {t} && Is(h[t], Live, phase) && h[t].locator == locator
  }

  // What makes a tuner a place for a Record, the best reason first:
  // 0 a recording of the locator is to come there and the leading Records are over by the start,
  // 1 somebody watches and something is recorded, on the locator, and the Records are over by the start,
  // 2 somebody watches the locator and nothing else is held there,
  // 3 it records the locator and the Records are over by the start, 4 it records anything, likewise,
  // 5 it holds nothing, or a Live of the locator alone that should have started.
  ghost predicate Suits(s: Book, r: Reservation, k: nat, id: TunerId) {
    id in s.tuners &&
    var h := s.tuners[id];
    if k == 0 then (exists t :: t in h && Is(h[t], Record, IDLE) && h[t].locator == r.locator) && LeadersOver(h, r.start)
    else if k == 1 then IsHybrid(h) && TunedTo(h, r.locator) && AllOver(h, r.start)
    else if k == 2 then exists t :: Lone(h, ACTIVE, r.locator, t)
    else if k == 3 then IsRecording(h) && TunedTo(h, r.locator) && AllOver(h, r.start)
    else if k == 4 then IsRecording(h) && AllOver(h, r.start)
    else k == 5 && (h == map[] || exists t :: Lone(h, IDLE, r.locator, t) && h[t].start <= s.now)
  }

  ghost predicate NoneSuits(s: Book, r: Reservation, k: nat) {
    forall i :: !Suits(s, r, k, i)
  }

  // Among places of one kind the first counts; of the first kind the last; of the second there must be one.
  ghost predicate Chosen(s: Book, r: Reservation, k: nat, id: TunerId) {
    && k <= 5 && Suits(s, r, k, id) && (forall j: nat :: j < k ==> NoneSuits(s, r, j))
    && (forall i :: Suits(s, r, k, i) && i != id ==> if k == 0 then Less(i, id) else k != 1 && Less(id, i))
  }

  ghost predicate TwoHybrids(s: Book, r: Reservation) {
    NoneSuits(s, r, 0) && exists i, j :: i != j && Suits(s, r, 1, i) && Suits(s, r, 1, j)
  }

  // ---------------------------------------------------------------- the stages find the places

  ghost predicate LeadsIn(h: Holdings, order: seq<Token>, t: Token)
    requires forall t :: t in order ==> t in h
  {
    t in order && forall u :: u in order && (u == t || Less(u, t)) ==> h[u].activity == Record
  }

  // The scan of getEndTime, stopping at the first reservation of another activity.
  lemma {:induction false} ScanMeans(h: Holdings, order: seq<Token>, start: nat)
    requires Ascending(order) && forall t :: t in order ==> t in h
    ensures ScanEnd(h, order, Record) <= start <==> forall t :: LeadsIn(h, order, t) ==> h[t].End() <= start
  {
    if order != [] {
      TailAscends(order);
      ScanMeans(h, order[1..], start);
      if h[order[0]].activity != Record {
        NobodyLeads(h, order);
      } else {
        ScanTail(h, order, start);
      }
      hide LeadsIn, Ascending;
    }
  }

  lemma NobodyLeads(h: Holdings, order: seq<Token>)
    requires Ascending(order) && order != [] && (forall t :: t in order ==> t in h) && h[order[0]].activity != Record
    ensures forall t :: !LeadsIn(h, order, t)
  {
    TailAscends(order);
    assert order[0] in order;
  }

  lemma ScanTail(h: Holdings, order: seq<Token>, start: nat)
    requires Ascending(order) && order != [] && (forall t :: t in order ==> t in h) && h[order[0]].activity == Record
    ensures (forall t :: LeadsIn(h, order, t) ==> h[t].End() <= start) <==>
      h[order[0]].End() <= start && forall t :: LeadsIn(h, order[1..], t) ==> h[t].End() <= start
  {
    var x, rest := order[0], order[1..];
    TailAscends(order);
    forall u | u in rest ensures u != x && !Less(u, x) {
      LessOneWay(x, u);
      var i :| 0 <= i < |rest| && rest[i] == u;
      assert order[i + 1] == u;
    }
    assert LeadsIn(h, order, x) by {
      forall u | u in order && (u == x || Less(u, x)) ensures h[u].activity == Record {}
    }
    forall t ensures LeadsIn(h, order, t) <==> t == x || LeadsIn(h, rest, t) {
      if t in rest { assert Less(x, t); }
    }
  }

  lemma LeadersMean(h: Holdings, start: nat)
    ensures EndTime(h, Record) <= start <==> LeadersOver(h, start)
  {
    var order := Sorted(h.Keys);
    SortedAscends(h.Keys);
    ScanMeans(h, order, start);
    assert forall t :: LeadsIn(h, order, t) <==> OnlyRecordsUpTo(h, t);
    hide ScanEnd, Sorted, LeadsIn, OnlyRecordsUpTo;
  }

  lemma BackToBackSuits(s: Book, r: Reservation, i: TunerId)
    requires i in s.tuners && r.locator != ""
    ensures Meets(s.tuners[i], BackToBack(r.locator, r.start)) <==> Suits(s, r, 0, i)
  {
    var h := s.tuners[i];
    LeadersMean(h, r.start);
    assert forall t :: t in h ==> (Fits(h[t], Record, IDLE, r.locator) <==> Is(h[t], Record, IDLE) && h[t].locator == r.locator);
    hide EndTime, LeadersOver;
  }

  lemma DoneSuits(s: Book, r: Reservation, i: TunerId)
    requires AllWellKept(s)
    ensures i in DoneOn(s, HybridState, r) <==> Suits(s, r, 1, i)
    ensures i in DoneOn(s, RecordState, r) <==> Suits(s, r, 3, i)
    ensures i in DoneBy(s, RecordState, r.start) <==> Suits(s, r, 4, i)
  {
    hide *;
    InStateMeans(s, i);
    DoneByMeans(s, HybridState, r.start, i);
    DoneByMeans(s, RecordState, r.start, i);
    if i in s.tuners && (IsHybrid(s.tuners[i]) || IsRecording(s.tuners[i])) {
      RecordRuns(s.tuners[i]);
      OnLocatorMeans(s, i, r.locator);
    }
    KeptByLocator(s, r, HybridState, i);
    KeptByLocator(s, r, RecordState, i);
    DoneSuitsIs(s, r, i);
  }

  lemma RecordRuns(h: Holdings)
    requires IsHybrid(h) || IsRecording(h)
    ensures Running(h, Record)
  {
  }

  lemma DoneSuitsIs(s: Book, r: Reservation, i: TunerId)
    ensures Suits(s, r, 1, i) <==> i in s.tuners && IsHybrid(s.tuners[i]) && TunedTo(s.tuners[i], r.locator) && AllOver(s.tuners[i], r.start)
    ensures Suits(s, r, 3, i) <==> i in s.tuners && IsRecording(s.tuners[i]) && TunedTo(s.tuners[i], r.locator) && AllOver(s.tuners[i], r.start)
    ensures Suits(s, r, 4, i) <==> i in s.tuners && IsRecording(s.tuners[i]) && AllOver(s.tuners[i], r.start)
  {
    hide IsHybrid, IsRecording, TunedTo, AllOver;
  }

  lemma KeptByLocator(s: Book, r: Reservation, state: TunerState, i: TunerId)
    ensures i in DoneOn(s, state, r) <==>
      i in DoneBy(s, state, r.start) && i in s.tuners && TunerPasses(i, s.tuners[i], ByTunerLocator(r.locator))
  {
  }

  lemma DoneByMeans(s: Book, state: TunerState, start: nat, i: TunerId)
    ensures i in DoneBy(s, state, start) <==> InState(s, i, state) && AllOver(s.tuners[i], start)
  {
  }

  lemma OnLocatorMeans(s: Book, i: TunerId, locator: Locator)
    requires AllWellKept(s) && i in s.tuners && (Running(s.tuners[i], Live) || Running(s.tuners[i], Record))
    ensures TunerPasses(i, s.tuners[i], ByTunerLocator(locator)) <==> TunedTo(s.tuners[i], locator)
  {
    var h := s.tuners[i];
    forall t | t in h ensures h[t].locator != "" { assert Holds(s, i, t) && WellKept(h[t]); }
    TunedMeans(h, locator);
    hide ServiceLocator, TunedTo;
  }

  lemma LoneMeans(h: Holdings)
    ensures |h| == 1 <==> exists t :: h.Keys == {t}
  {
    assert |h.Keys| == |h|;
    if |h| == 1 {
      var t :| t in h;
      SingleKey(h, t);
      assert h.Keys == {t};
    }
  }

  ghost predicate InLive(s: Book, r: Reservation, i: TunerId) {
    i in KeepTuners(s, ByTunerLocator(r.locator), IdsInState(s, LiveState)) && Meets(s.tuners[i], LoneLive(r.locator))
  }

  lemma LiveSuits(s: Book, r: Reservation, i: TunerId)
    requires AllWellKept(s)
    ensures InLive(s, r, i) <==> Suits(s, r, 2, i)
  {
    hide *;
    InLiveIs(s, r, i);
    LiveSuitsIs(s, r, i);
    if i in s.tuners {
      var h := s.tuners[i];
      LoneMeans(h);
      if exists t :: h.Keys == {t} {
        var t :| h.Keys == {t};
        LoneLiveMeans(s, r, i, t);
      } else {
        NobodyLone(h, ACTIVE, r.locator);
      }
    }
  }

  lemma InLiveIs(s: Book, r: Reservation, i: TunerId)
    ensures InLive(s, r, i) <==>
      && i in s.tuners && |s.tuners[i]| == 1 && InState(s, i, LiveState)
      && TunerPasses(i, s.tuners[i], ByTunerLocator(r.locator)) && ActiveLocator(s.tuners[i]) == r.locator
  {
    hide StateOf, ActiveLocator, ServiceLocator;
  }

  lemma LiveSuitsIs(s: Book, r: Reservation, i: TunerId)
    ensures Suits(s, r, 2, i) <==> i in s.tuners && exists t :: Lone(s.tuners[i], ACTIVE, r.locator, t)
  {
    hide Lone;
  }

  lemma NobodyLone(h: Holdings, phase: Phase, locator: Locator)
    requires !exists t :: h.Keys == {t}
    ensures forall t :: !Lone(h, phase, locator, t)
  {
  }

  lemma LoneLiveMeans(s: Book, r: Reservation, i: TunerId, t: Token)
    requires AllWellKept(s) && i in s.tuners && s.tuners[i].Keys == {t}
    ensures InState(s, i, LiveState) && TunerPasses(i, s.tuners[i], ByTunerLocator(r.locator)) && ActiveLocator(s.tuners[i]) == r.locator
      <==> Lone(s.tuners[i], ACTIVE, r.locator, t)
    ensures forall u :: Lone(s.tuners[i], ACTIVE, r.locator, u) ==> u == t
  {
    var h := s.tuners[i];
    InStateMeans(s, i);
    assert Holds(s, i, t) && WellKept(h[t]);
    assert forall u :: Lone(h, ACTIVE, r.locator, u) ==> u in {t};
    assert IsWatched(h) <==> Is(h[t], Live, ACTIVE);
    if h[t].phase == ACTIVE {
      TunedMeans(h, r.locator);
      assert EarliestRunning(h, t);
      assert TunedTo(h, r.locator) <==> h[t].locator == r.locator;
    }
    hide ServiceLocator, ActiveLocator, StateOf;
  }

  ghost predicate InFree(s: Book, r: Reservation, i: TunerId) {
    InState(s, i, FreeState) && Meets(s.tuners[i], TakesRecording(r.locator, s.now))
  }

  lemma FreeSuits(s: Book, r: Reservation, i: TunerId)
    ensures InFree(s, r, i) <==> Suits(s, r, 5, i)
  {
    hide *;
    InStateMeans(s, i);
    InFreeIs(s, r, i);
    if i in s.tuners { OverdueMeans(s.tuners[i], r.locator, s.now); }
  }

  // Nothing, or one Live that should have started.
  ghost predicate Idles(h: Holdings, locator: Locator, now: nat) {
    h == map[] || exists t :: Lone(h, IDLE, locator, t) && h[t].start <= now
  }

  lemma InFreeIs(s: Book, r: Reservation, i: TunerId)
    ensures InFree(s, r, i) <==> InState(s, i, FreeState) && Meets(s.tuners[i], TakesRecording(r.locator, s.now))
    ensures Suits(s, r, 5, i) <==> i in s.tuners && Idles(s.tuners[i], r.locator, s.now)
    ensures InState(s, i, FreeState) ==> i in s.tuners
  {
    hide Lone, StateOf, Meets;
  }

  lemma OverdueMeans(h: Holdings, locator: Locator, now: nat)
    ensures IsFree(h) && Meets(h, TakesRecording(locator, now)) <==> Idles(h, locator, now)
  {
    LoneMeans(h);
    if exists t :: Lone(h, IDLE, locator, t) && h[t].start <= now {
      var t :| Lone(h, IDLE, locator, t) && h[t].start <= now;
      assert t in h && Overdue(h[t], locator, now);
    }
    if |h| == 1 && exists t :: t in h && Overdue(h[t], locator, now) {
      var t :| t in h && Overdue(h[t], locator, now);
      SingleKey(h, t);
      assert h.Keys == {t} && Lone(h, IDLE, locator, t);
    }
  }

  // ---------------------------------------------------------------- the search finds the preferred place

  ghost predicate SomeChoice(s: Book, r: Reservation, id: TunerId) {
    exists k: nat :: Chosen(s, r, k, id)
  }

  ghost predicate NoneAtAll(s: Book, r: Reservation) {
    forall k: nat :: k <= 5 ==> NoneSuits(s, r, k)
  }

  lemma ChosenFrom(s: Book, r: Reservation, k: nat, id: TunerId)
    requires k <= 5 && Suits(s, r, k, id) && forall j: nat :: j < k ==> NoneSuits(s, r, j)
    requires forall i :: Suits(s, r, k, i) && i != id ==> if k == 0 then Less(i, id) else k != 1 && Less(id, i)
    ensures SomeChoice(s, r, id)
  {
    hide Suits, NoneSuits;
    assert Chosen(s, r, k, id);
  }

  lemma Exclusive(s: Book, r: Reservation, id: TunerId)
    requires SomeChoice(s, r, id)
    ensures !NoneAtAll(s, r) && !TwoHybrids(s, r) && forall i :: SomeChoice(s, r, i) ==> i == id
  {
    hide Suits;
    var k: nat :| Chosen(s, r, k, id);
    assert Suits(s, r, k, id) && !NoneSuits(s, r, k);
    forall i | SomeChoice(s, r, i) ensures i == id {
      var k': nat :| Chosen(s, r, k', i);
      assert Suits(s, r, k', i) && !NoneSuits(s, r, k');
      LessOneWay(i, id);
    }
    HybridsSuit(s, r, id);
  }

  lemma HybridsSuit(s: Book, r: Reservation, x: TunerId)
    ensures TwoHybrids(s, r) ==> NoneSuits(s, r, 0) && !NoneSuits(s, r, 1) && exists y :: y != x && Suits(s, r, 1, y)
  {
    hide Suits;
  }

  ghost predicate RightPlace(s: Book, r: Reservation, found: RecordSearch) {
    match found
    case Place(id) => SomeChoice(s, r, id)
    case Ambiguous => TwoHybrids(s, r)
    case Nowhere => NoneAtAll(s, r)
  }

  lemma SearchRight(s: Book, r: Reservation)
    requires AllWellKept(s) && r.locator != ""
    ensures RightPlace(s, r, SearchRecord(s, r))
  {
    hide *;
    SearchUnfolds(s, r);
    var first := BackToBackStage(s, r);
    BackToBackFinds(s, r);
    if first.Some? {
      ChosenFrom(s, r, 0, first.value);
      RightFrom(s, r, SearchRecord(s, r));
    } else {
      LaterRight(s, r);
    }
  }

  lemma SearchUnfolds(s: Book, r: Reservation)
    ensures var first := BackToBackStage(s, r);
      SearchRecord(s, r) == if first.Some? then RecordSearch.Place(first.value) else LaterStages(s, r)
  {
    hide BackToBackStage, LaterStages;
  }

  lemma RightFrom(s: Book, r: Reservation, found: RecordSearch)
    requires found.Place? ==> SomeChoice(s, r, found.id)
    requires found.Ambiguous? ==> TwoHybrids(s, r)
    requires found.Nowhere? ==> NoneAtAll(s, r)
    ensures RightPlace(s, r, found)
  {
  }

  lemma BackToBackFinds(s: Book, r: Reservation)
    requires r.locator != ""
    ensures var first := BackToBackStage(s, r);
      if first.Some? then Suits(s, r, 0, first.value) && forall i :: Suits(s, r, 0, i) && i != first.value ==> Less(i, first.value)
      else NoneSuits(s, r, 0)
  {
    var c := BackToBack(r.locator, r.start);
    SortedAscends(s.tuners.Keys);
    LastMeetingGreatest(s, TunerIds(s), c);
    assert forall i :: i in TunerIds(s) <==> i in s.tuners;
    forall i ensures Suits(s, r, 0, i) <==> i in s.tuners && Meets(s.tuners[i], c) {
      if i in s.tuners { BackToBackSuits(s, r, i); }
    }
    hide LastMeeting, Meets, Suits, TunerIds;
  }

  lemma LaterRight(s: Book, r: Reservation)
    requires AllWellKept(s) && r.locator != "" && NoneSuits(s, r, 0)
    ensures RightPlace(s, r, LaterStages(s, r))
  {
    hide *;
    LaterUnfolds(s, r);
    var hybrid := DoneOn(s, HybridState, r);
    forall i ensures i in hybrid <==> Suits(s, r, 1, i) { DoneSuits(s, r, i); }
    DoneAscends(s, HybridState, r);
    if |hybrid| > 1 {
      HybridsTwo(s, r, hybrid);
      RightFrom(s, r, Ambiguous);
    } else if |hybrid| == 1 {
      assert hybrid[0] in hybrid;
      assert forall i :: i in hybrid ==> i == hybrid[0];
      ChosenFrom(s, r, 1, hybrid[0]);
      RightFrom(s, r, RecordSearch.Place(hybrid[0]));
    } else {
      NoneFrom(s, r, 1);
      LiveFinds(s, r);
      if LiveOn(s, r).Some? {
        ChosenFrom(s, r, 2, LiveOn(s, r).value);
        RightFrom(s, r, RecordSearch.Place(LiveOn(s, r).value));
      } else {
        RestRight(s, r);
      }
    }
  }

  lemma LaterUnfolds(s: Book, r: Reservation)
    ensures var hybrid := DoneOn(s, HybridState, r);
      LaterStages(s, r) ==
        if |hybrid| > 1 then Ambiguous else if |hybrid| == 1 then RecordSearch.Place(hybrid[0])
        else if LiveOn(s, r).Some? then RecordSearch.Place(LiveOn(s, r).value) else RecordAndFreeStages(s, r)
  {
    hide DoneOn, LiveOn, RecordAndFreeStages;
  }

  lemma DoneAscends(s: Book, state: TunerState, r: Reservation)
    ensures Ascending(DoneOn(s, state, r)) && Ascending(DoneBy(s, state, r.start))
  {
    IdsAscend(s, state);
    KeptAscends(s, ByTunerEndBefore(r.start), IdsInState(s, state));
    KeptAscends(s, ByTunerLocator(r.locator), DoneBy(s, state, r.start));
  }

  lemma HybridsTwo(s: Book, r: Reservation, hybrid: seq<TunerId>)
    requires NoneSuits(s, r, 0) && |hybrid| > 1 && Ascending(hybrid) && forall i :: i in hybrid <==> Suits(s, r, 1, i)
    ensures TwoHybrids(s, r)
  {
    assert hybrid[0] in hybrid && hybrid[1] in hybrid;
    LessOneWay(hybrid[0], hybrid[1]);
    hide Suits;
  }

  lemma NoneFrom(s: Book, r: Reservation, k: nat)
    requires forall i :: !Suits(s, r, k, i)
    ensures NoneSuits(s, r, k)
  {
  }

  lemma LiveFinds(s: Book, r: Reservation)
    requires AllWellKept(s)
    ensures var live := LiveOn(s, r);
      if live.Some? then Suits(s, r, 2, live.value) && forall i :: Suits(s, r, 2, i) && i != live.value ==> Less(live.value, i)
      else NoneSuits(s, r, 2)
  {
    var ids := KeepTuners(s, ByTunerLocator(r.locator), IdsInState(s, LiveState));
    IdsAscend(s, LiveState);
    KeptAscends(s, ByTunerLocator(r.locator), IdsInState(s, LiveState));
    FirstMeetingLeast(s, ids, LoneLive(r.locator));
    forall i ensures Suits(s, r, 2, i) <==> i in ids && Meets(s.tuners[i], LoneLive(r.locator)) { LiveSuits(s, r, i); }
    hide FirstMeeting, Meets, Suits, KeepTuners;
  }

  lemma RestRight(s: Book, r: Reservation)
    requires AllWellKept(s) && NoneSuits(s, r, 0) && NoneSuits(s, r, 1) && NoneSuits(s, r, 2)
    ensures RightPlace(s, r, RecordAndFreeStages(s, r))
  {
    hide *;
    RestUnfolds(s, r);
    var same, any := DoneOn(s, RecordState, r), DoneBy(s, RecordState, r.start);
    forall i ensures (i in same <==> Suits(s, r, 3, i)) && (i in any <==> Suits(s, r, 4, i)) { DoneSuits(s, r, i); }
    DoneAscends(s, RecordState, r);
    if same != [] {
      FirstIsLeast(same);
      ChosenFrom(s, r, 3, same[0]);
      RightFrom(s, r, RecordSearch.Place(same[0]));
    } else {
      NoneFrom(s, r, 3);
      if any != [] {
        FirstIsLeast(any);
        ChosenFrom(s, r, 4, any[0]);
        RightFrom(s, r, RecordSearch.Place(any[0]));
      } else {
        NoneFrom(s, r, 4);
        FreeFinds(s, r);
        if FreeFor(s, r).Some? {
          ChosenFrom(s, r, 5, FreeFor(s, r).value);
          RightFrom(s, r, RecordSearch.Place(FreeFor(s, r).value));
        } else {
          AllNone(s, r);
          RightFrom(s, r, Nowhere);
        }
      }
    }
  }

  lemma AllNone(s: Book, r: Reservation)
    requires NoneSuits(s, r, 0) && NoneSuits(s, r, 1) && NoneSuits(s, r, 2)
    requires NoneSuits(s, r, 3) && NoneSuits(s, r, 4) && NoneSuits(s, r, 5)
    ensures NoneAtAll(s, r)
  {
    hide NoneSuits;
  }

  lemma RestUnfolds(s: Book, r: Reservation)
    ensures var same, any := DoneOn(s, RecordState, r), DoneBy(s, RecordState, r.start);
      RecordAndFreeStages(s, r) ==
        if same != [] then RecordSearch.Place(same[0]) else if any != [] then RecordSearch.Place(any[0])
        else if FreeFor(s, r).Some? then RecordSearch.Place(FreeFor(s, r).value) else Nowhere
  {
    hide DoneOn, DoneBy, FreeFor;
  }

  lemma FreeFinds(s: Book, r: Reservation)
    ensures var free := FreeFor(s, r);
      if free.Some? then Suits(s, r, 5, free.value) && forall i :: Suits(s, r, 5, i) && i != free.value ==> Less(free.value, i)
      else NoneSuits(s, r, 5)
  {
    var ids := IdsInState(s, FreeState);
    IdsAscend(s, FreeState);
    FirstMeetingLeast(s, ids, TakesRecording(r.locator, s.now));
    forall i ensures Suits(s, r, 5, i) <==> i in ids && Meets(s.tuners[i], TakesRecording(r.locator, s.now)) { FreeSuits(s, r, i); }
    hide FirstMeeting, Meets, Suits, IdsInState, InState;
  }

  // Exactly when a Record finds no tuner, when the search gives up between two Hybrid tuners, and
  // otherwise which tuner it finds.
  lemma RecordPlacedIff(s: Book, r: Reservation)
    requires AllWellKept(s) && r.locator != ""
    ensures SearchRecord(s, r) == Nowhere <==> forall k: nat, i :: k <= 5 ==> !Suits(s, r, k, i)
    ensures SearchRecord(s, r) == Ambiguous <==> TwoHybrids(s, r)
    ensures forall id :: SearchRecord(s, r) == RecordSearch.Place(id) <==> exists k: nat :: Chosen(s, r, k, id)
  {
    hide *;
    SearchRight(s, r);
    var found := SearchRecord(s, r);
    RightMeans(s, r, found);
    NoneAtAllMeans(s, r);
    NoneNotTwo(s, r);
    forall id ensures found == RecordSearch.Place(id) <==> exists k: nat :: Chosen(s, r, k, id) {
      SomeChoiceMeans(s, r, id);
      if SomeChoice(s, r, id) { Exclusive(s, r, id); }
    }
    if found.Place? { Exclusive(s, r, found.id); }
  }

  lemma RightMeans(s: Book, r: Reservation, found: RecordSearch)
    requires RightPlace(s, r, found)
    ensures found.Place? ==> SomeChoice(s, r, found.id)
    ensures found.Ambiguous? ==> TwoHybrids(s, r)
    ensures found.Nowhere? ==> NoneAtAll(s, r)
  {
  }

  lemma NoneAtAllMeans(s: Book, r: Reservation)
    ensures NoneAtAll(s, r) <==> forall k: nat, i :: k <= 5 ==> !Suits(s, r, k, i)
  {
    hide Suits;
    if NoneAtAll(s, r) {
      forall k: nat, i | k <= 5 ensures !Suits(s, r, k, i) { assert NoneSuits(s, r, k); }
    }
  }

  lemma NoneNotTwo(s: Book, r: Reservation)
    ensures NoneAtAll(s, r) ==> !TwoHybrids(s, r)
  {
    hide Suits;
    assert NoneAtAll(s, r) ==> NoneSuits(s, r, 1);
  }

  lemma SomeChoiceMeans(s: Book, r: Reservation, id: TunerId)
    ensures SomeChoice(s, r, id) <==> exists k: nat :: Chosen(s, r, k, id)
  {
    hide Chosen;
  }
}
