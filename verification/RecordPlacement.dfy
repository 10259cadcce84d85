// Where a Record reservation goes, and which Live it conflicts with when there is nowhere.
module RecordPlacement {
  import opened Domain
  import opened Ordering
  import opened Tuners
  import opened Registry
  import opened LivePlacement

  // ---------------------------------------------------------------- the search

  // Tuners in a state whose Records all end by the given time.
  ghost function DoneBy(s: Book, state: TunerState, end: nat): (ids: seq<TunerId>)
    ensures forall id :: id in ids ==> InState(s, id, state) && RecordsEndBy(s.tuners[id], end)
  {
    KeepTuners(s, ByTunerEndBefore(end), IdsInState(s, state))
  }

  predicate RecordsEndBy(h: Holdings, end: nat) {
    forall t :: t in h && h[t].activity == Record ==> h[t].End() <= end
  }

  datatype RecordSearch = Place(id: TunerId) | Ambiguous | Nowhere

  // The first stage: the last tuner already expecting the locator, judged by getEndTime.
  ghost function BackToBackStage(s: Book, r: Reservation): Option<TunerId> {
    LastMeeting(s, TunerIds(s), BackToBack(r.locator, r.start))
  }

  // Tuners in a state, on the locator, whose Records end before the new one starts.
  ghost function DoneOn(s: Book, state: TunerState, r: Reservation): seq<TunerId> {
    KeepTuners(s, ByTunerLocator(r.locator), DoneBy(s, state, r.start))
  }

  ghost function LiveOn(s: Book, r: Reservation): Option<TunerId> {
    FirstMeeting(s, KeepTuners(s, ByTunerLocator(r.locator), IdsInState(s, LiveState)), LoneLive(r.locator))
  }

  ghost function FreeFor(s: Book, r: Reservation): Option<TunerId> {
    FirstMeeting(s, IdsInState(s, FreeState), TakesRecording(r.locator, s.now))
  }

  // The later stages: Hybrid, Live, Record on the locator, any Record, Free.
  ghost function LaterStages(s: Book, r: Reservation): RecordSearch {
    var hybrid := DoneOn(s, HybridState, r);
    if |hybrid| > 1 then Ambiguous
    else if |hybrid| == 1 then Place(hybrid[0])
    else if LiveOn(s, r).Some? then Place(LiveOn(s, r).value)
    else RecordAndFreeStages(s, r)
  }

  ghost function RecordAndFreeStages(s: Book, r: Reservation): RecordSearch {
    var same, any := DoneOn(s, RecordState, r), DoneBy(s, RecordState, r.start);
    if same != [] then Place(same[0])
    else if any != [] then Place(any[0])
    else if FreeFor(s, r).Some? then Place(FreeFor(s, r).value)
    else Nowhere
  }

  ghost function SearchRecord(s: Book, r: Reservation): RecordSearch {
    var pending := BackToBackStage(s, r);
    if pending.Some? then Place(pending.value) else LaterStages(s, r)
  }

  // ---------------------------------------------------------------- windows of the chosen tuner

  predicate ClearOfRecords(h: Holdings, r: Reservation) {
    forall t :: t in h && h[t].activity == Record ==> !Overlaps(h[t], r)
  }

  lemma EndedIsClear(h: Holdings, r: Reservation)
    requires RecordsEndBy(h, r.start)
    ensures ClearOfRecords(h, r)
  {
  }

  lemma LoneLiveIsClear(s: Book, id: TunerId, r: Reservation)
    requires InState(s, id, LiveState) && |s.tuners[id]| == 1
    ensures ClearOfRecords(s.tuners[id], r)
  {
    var h := s.tuners[id];
    var live :| live in h && h[live].phase == ACTIVE && h[live].activity == Live;
    SingleKey(h, live);
  }

  lemma SingleKey(h: Holdings, t: Token)
    requires |h| == 1 && t in h
    ensures forall u :: u in h ==> u == t
  {
    forall u | u in h ensures u == t {
      if u != t {
        assert {t, u} <= h.Keys;
        SubsetSize({t, u}, h.Keys);
      }
    }
  }

  lemma TakesRecordingIsClear(h: Holdings, r: Reservation, now: nat)
    requires Meets(h, TakesRecording(r.locator, now))
    ensures ClearOfRecords(h, r)
  {
    if h != map[] {
      var live :| live in h && Overdue(h[live], r.locator, now);
      SingleKey(h, live);
    }
  }

  // A Record placed by any stage but the first never overlaps a Record already on its tuner.
  lemma LaterStagesClear(s: Book, r: Reservation)
    requires LaterStages(s, r).Place?
    ensures var id := LaterStages(s, r).id; id in s.tuners && ClearOfRecords(s.tuners[id], r)
  {
    var hybrid := DoneOn(s, HybridState, r);
    if |hybrid| == 1 {
      assert hybrid[0] in hybrid;
      EndedIsClear(s.tuners[hybrid[0]], r);
    } else {
      var live := LiveOn(s, r);
      if live.Some? {
        LoneLiveIsClear(s, live.value, r);
      } else {
        RecordAndFreeClear(s, r);
      }
    }
  }

  lemma RecordAndFreeClear(s: Book, r: Reservation)
    requires RecordAndFreeStages(s, r).Place?
    ensures var id := RecordAndFreeStages(s, r).id; id in s.tuners && ClearOfRecords(s.tuners[id], r)
  {
    var same := DoneOn(s, RecordState, r);
    var any := DoneBy(s, RecordState, r.start);
    if same != [] {
      assert same[0] in same;
      EndedIsClear(s.tuners[same[0]], r);
    } else if any != [] {
      assert any[0] in any;
      EndedIsClear(s.tuners[any[0]], r);
    } else {
      var free := FreeFor(s, r);
      TakesRecordingIsClear(s.tuners[free.value], r, s.now);
    }
  }

  lemma IdleSomewhere(h: Holdings, locator: Locator)
    ensures FindReservation(h, Record, IDLE, locator).Some? ==> FindReservation(h, Record, IDLE).Some?
  {
    var found := FindReservation(h, Record, IDLE, locator);
    if found.Some? { assert Fits(h[found.value], Record, IDLE, ""); }
  }

  // The first stage accepts a tuner that has an IDLE Record on the locator and whose Records have ended,
  // as far as getEndTime can tell: its scan stops at the first Live. Every request the stage accepts is
  // clear of the tuner's Records exactly when the tuner has no IDLE Record or the scan saw the last end.
  lemma BackToBackClearIff(h: Holdings)
    ensures (forall r: Reservation :: Meets(h, BackToBack(r.locator, r.start)) ==> ClearOfRecords(h, r)) <==>
            FindReservation(h, Record, IDLE).None? || RecordsEndBy(h, EndTime(h, Record))
  {
    var seen := EndTime(h, Record);
    if FindReservation(h, Record, IDLE).None? {
      forall r: Reservation ensures !Meets(h, BackToBack(r.locator, r.start)) {
        IdleSomewhere(h, r.locator);
      }
    } else if RecordsEndBy(h, seen) {
      forall r: Reservation | Meets(h, BackToBack(r.locator, r.start)) ensures ClearOfRecords(h, r) {
        EndedIsClear(h, r);
      }
    } else {
      var idle := FindReservation(h, Record, IDLE).value;
      var t :| t in h && h[t].activity == Record && h[t].End() > seen;
      var r := h[t].(locator := h[idle].locator, start := seen, duration := h[t].start + 1);
      assert Fits(h[idle], Record, IDLE, r.locator);
      assert Meets(h, BackToBack(r.locator, r.start)) && Overlaps(h[t], r);
    }
  }

  // The scan sees everything on a tuner that holds only Records, and nothing behind a Live.
  lemma {:induction false} ScanSeesRecords(h: Holdings, order: seq<Token>)
    requires forall t :: t in order ==> t in h && h[t].activity == Record
    ensures forall t :: t in order ==> h[t].End() <= ScanEnd(h, order, Record)
  {
    if order != [] {
      ScanSeesRecords(h, order[1..]);
      assert order == [order[0]] + order[1..];
    }
  }

  lemma OnlyRecordsAgree(h: Holdings)
    requires forall t :: t in h ==> h[t].activity == Record
    ensures RecordsEndBy(h, EndTime(h, Record))
  {
    ScanSeesRecords(h, Sorted(h.Keys));
  }

  lemma LiveFirstScansNothing(h: Holdings, live: Token)
    requires IsLeast(live, h.Keys) && h[live].activity != Record
    ensures EndTime(h, Record) == 0
  {
    LeastUnique(h.Keys, live, Least(h.Keys));
  }

  // A tuner whose Live sorts first lets the first stage accept a Record that overlaps another one.
  lemma BackToBackCanOverlap(h: Holdings, live: Token, t: Token, r: Reservation)
    requires IsLeast(live, h.Keys) && h[live].activity == Live
    requires t in h && Fits(h[t], Record, IDLE, r.locator) && Overlaps(h[t], r)
    ensures Meets(h, BackToBack(r.locator, r.start)) && !ClearOfRecords(h, r)
  {
    LiveFirstScansNothing(h, live);
  }
}
