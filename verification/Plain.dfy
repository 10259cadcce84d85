// A tuner read off its holdings, without the searches' own queries.
module Plain {
  import opened Domain
  import opened Ordering
  import opened Tuners
  import opened Registry
  import opened LivePlacement

  // ---------------------------------------------------------------- one tuner

  ghost predicate Running(h: Holdings, a: Activity) {
    exists t :: t in h && h[t].activity == a && h[t].phase == ACTIVE
  }

  ghost predicate IsFree(h: Holdings) {
    !Running(h, Live) && !Running(h, Record)
  }

  ghost predicate IsRecording(h: Holdings) {
    !Running(h, Live) && Running(h, Record)
  }

  ghost predicate IsWatched(h: Holdings) {
    Running(h, Live) && !Running(h, Record)
  }

  ghost predicate IsHybrid(h: Holdings) {
    Running(h, Live) && Running(h, Record)
  }

  predicate Is(r: Reservation, a: Activity, p: Phase) {
    r.activity == a && r.phase == p
  }

  // The first reservation of an activity and phase, in the order of tokens.
  ghost predicate Earliest(h: Holdings, a: Activity, p: Phase, t: Token) {
    t in h && Is(h[t], a, p) && forall u :: u in h && Is(h[u], a, p) ==> u == t || Less(t, u)
  }

  ghost predicate EarliestOn(h: Holdings, a: Activity, p: Phase, locator: Locator) {
    exists t :: Earliest(h, a, p, t) && h[t].locator == locator
  }

  // The first reservation that runs, whatever its activity.
  ghost predicate EarliestRunning(h: Holdings, t: Token) {
    t in h && h[t].phase == ACTIVE && forall u :: u in h && h[u].phase == ACTIVE ==> u == t || Less(t, u)
  }

  ghost predicate TunedTo(h: Holdings, locator: Locator) {
    exists t :: EarliestRunning(h, t) && h[t].locator == locator
  }

  lemma StateMeans(h: Holdings)
    ensures StateOf(h) == FreeState <==> IsFree(h)
    ensures StateOf(h) == RecordState <==> IsRecording(h)
    ensures StateOf(h) == LiveState <==> IsWatched(h)
    ensures StateOf(h) == HybridState <==> IsHybrid(h)
  {
    assert Running(h, Live) <==> HasActive(h, Live);
    assert Running(h, Record) <==> HasActive(h, Record);
    hide Running, HasActive;
  }

  // ---- first matches are least

  lemma {:induction false} FirstFitLeast(h: Holdings, order: seq<Token>, a: Activity, p: Phase)
    requires Ascending(order) && forall t :: t in order ==> t in h
    ensures var found := FirstFit(h, order, a, p, "");
      found.Some? ==> forall u :: u in order && Is(h[u], a, p) ==> u == found.value || Less(found.value, u)
  {
    if order != [] {
      TailAscends(order);
      FirstFitLeast(h, order[1..], a, p);
    }
  }

  lemma TailAscends(order: seq<string>)
    requires Ascending(order) && order != []
    ensures Ascending(order[1..])
    ensures forall u :: u in order ==> u == order[0] || (Less(order[0], u) && u in order[1..])
  {
    assert order == [order[0]] + order[1..];
  }

  lemma FirstOnMeans(h: Holdings, a: Activity, p: Phase, locator: Locator)
    ensures FirstOn(h, a, p, locator) <==> EarliestOn(h, a, p, locator)
    ensures FindReservation(h, a, p).Some? <==> exists t :: t in h && Is(h[t], a, p)
  {
    var order := Sorted(h.Keys);
    SortedAscends(h.Keys);
    FirstFitLeast(h, order, a, p);
    var found := FindReservation(h, a, p);
    assert forall t :: t in h ==> (Is(h[t], a, p) <==> Fits(h[t], a, p, ""));
    hide FirstFit, Sorted;
    if found.Some? {
      assert Earliest(h, a, p, found.value);
      forall t | Earliest(h, a, p, t) ensures t == found.value { LessOneWay(t, found.value); }
    }
  }

  lemma {:induction false} FirstActiveLeast(h: Holdings, order: seq<Token>)
    requires Ascending(order) && forall t :: t in order ==> t in h
    ensures var found := FirstActive(h, order);
      found.Some? ==> forall u :: u in order && h[u].phase == ACTIVE ==> u == found.value || Less(found.value, u)
  {
    if order != [] {
      TailAscends(order);
      FirstActiveLeast(h, order[1..]);
    }
  }

  // A tuner in use is on the locator of its first running reservation.
  lemma TunedMeans(h: Holdings, locator: Locator)
    requires (exists t :: t in h && h[t].phase == ACTIVE) && forall t :: t in h ==> h[t].locator != ""
    ensures ActiveLocator(h) != "" && (ActiveLocator(h) == locator <==> TunedTo(h, locator))
    ensures TunerPasses("", h, ByTunerLocator(locator)) <==> TunedTo(h, locator)
  {
    var order := Sorted(h.Keys);
    SortedAscends(h.Keys);
    FirstActiveLeast(h, order);
    var found := FirstActive(h, order);
    hide FirstActive, Sorted;
    assert EarliestRunning(h, found.value);
    forall t | EarliestRunning(h, t) ensures t == found.value { LessOneWay(t, found.value); }
  }

  // ---------------------------------------------------------------- several tuners

  lemma {:induction false} KeptAscends(s: Book, test: TunerTest, ids: seq<TunerId>)
    requires Ascending(ids)
    ensures Ascending(KeepTuners(s, test, ids))
  {
    if ids != [] {
      TailAscends(ids);
      KeptAscends(s, test, ids[1..]);
      var rest := KeepTuners(s, test, ids[1..]);
      assert forall i :: 0 <= i < |rest| ==> rest[i] in rest;
    }
  }

  lemma IdsAscend(s: Book, state: TunerState)
    ensures Ascending(IdsInState(s, state)) && Ascending(TunerIds(s))
  {
    SortedAscends(s.tuners.Keys);
    KeptAscends(s, ByTunerState(state), TunerIds(s));
  }

  lemma {:induction false} FirstMeetingLeast(s: Book, ids: seq<TunerId>, c: Criterion)
    requires Ascending(ids)
    ensures var found := FirstMeeting(s, ids, c);
      found.Some? ==> forall i :: i in ids && i in s.tuners && Meets(s.tuners[i], c) ==> i == found.value || Less(found.value, i)
  {
    hide Meets;
    if ids != [] {
      TailAscends(ids);
      FirstMeetingLeast(s, ids[1..], c);
    }
  }

  lemma {:induction false} LastMeetingGreatest(s: Book, ids: seq<TunerId>, c: Criterion)
    requires Ascending(ids)
    ensures var found := LastMeeting(s, ids, c);
      found.Some? ==> forall i :: i in ids && i in s.tuners && Meets(s.tuners[i], c) ==> i == found.value || Less(i, found.value)
  {
    hide Meets;
    if ids != [] {
      var n := |ids| - 1;
      assert ids == ids[..n] + [ids[n]];
      LastMeetingGreatest(s, ids[..n], c);
    }
  }

  lemma FirstIsLeast(ids: seq<TunerId>)
    requires Ascending(ids) && ids != []
    ensures ids[0] in ids && forall i :: i in ids ==> i == ids[0] || Less(ids[0], i)
  {
    TailAscends(ids);
  }
}
