// One tuner: its reservation map and the queries the searches are built on.
module Tuners {
  import opened Domain
  import opened Ordering

  // ---------------------------------------------------------------- state of a tuner

  // Adding an activity to a tuner state.
  function Join(state: TunerState, activity: Activity): TunerState {
    match (state, activity)
    case (FreeState, Live) => LiveState
    case (FreeState, Record) => RecordState
    case (FreeState, EAS) => EASState
    case (LiveState, Record) => HybridState
    case (RecordState, Live) => HybridState
    case _ => state
  }

  function JoinReservation(state: TunerState, r: Reservation): TunerState {
    if r.phase == ACTIVE && (r.activity == Live || r.activity == Record)
    then Join(state, r.activity) else state
  }

  // The fold over the reservations met in the given visiting order.
  function FoldState(h: Holdings, order: seq<Token>): TunerState
    requires forall t :: t in order ==> t in h
  {
    if order == [] then FreeState else
      var n := |order| - 1;
      assert order == order[..n] + [order[n]];
      JoinReservation(FoldState(h, order[..n]), h[order[n]])
  }

  predicate HasActive(h: Holdings, activity: Activity) {
    exists t :: t in h && h[t].phase == ACTIVE && h[t].activity == activity
  }

  // What the state of a tuner means: "has an ACTIVE Live" times "has an ACTIVE Record".
  function StateOf(h: Holdings): TunerState {
    if HasActive(h, Live)
    then if HasActive(h, Record) then HybridState else LiveState
    else if HasActive(h, Record) then RecordState else FreeState
  }

  // The fold does not depend on the visiting order.
  lemma {:induction false} FoldIsState(h: Holdings, order: seq<Token>)
    requires forall t :: t in order <==> t in h
    ensures FoldState(h, order) == StateOf(h)
  {
    FoldPrefix(h, order);
    assert forall t :: t in h ==> exists i :: 0 <= i < |order| && order[i] == t;
  }

  predicate Met(h: Holdings, order: seq<Token>, activity: Activity)
    requires forall t :: t in order ==> t in h
  {
    exists i :: 0 <= i < |order| && h[order[i]].phase == ACTIVE && h[order[i]].activity == activity
  }

  lemma {:induction false} FoldPrefix(h: Holdings, order: seq<Token>)
    requires forall t :: t in order ==> t in h
    ensures FoldState(h, order) ==
      if Met(h, order, Live)
      then if Met(h, order, Record) then HybridState else LiveState
      else if Met(h, order, Record) then RecordState else FreeState
  {
    if order != [] {
      var n := |order| - 1;
      var front, last := order[..n], h[order[n]];
      assert order == front + [order[n]];
      FoldPrefix(h, front);
      MetSplits(h, front, order[n], Live);
      MetSplits(h, front, order[n], Record);
      hide Met;
    }
  }

  lemma MetSplits(h: Holdings, front: seq<Token>, t: Token, a: Activity)
    requires t in h && forall u :: u in front ==> u in h
    ensures Met(h, front + [t], a) <==> Met(h, front, a) || (h[t].phase == ACTIVE && h[t].activity == a)
  {
    var order := front + [t];
    if Met(h, front, a) {
      var i :| 0 <= i < |front| && h[front[i]].phase == ACTIVE && h[front[i]].activity == a;
      assert order[i] == front[i];
    } else if h[t].phase == ACTIVE && h[t].activity == a {
      assert order[|front|] == t;
    }
  }

  // ---------------------------------------------------------------- first-match lookups

  predicate Fits(r: Reservation, activity: Activity, phase: Phase, locator: Locator) {
    r.phase == phase && r.activity == activity && (locator == "" || r.locator == locator)
  }

  // The first reservation, in visiting order, of an activity, phase and (unless empty) locator.
  function FirstFit(h: Holdings, order: seq<Token>, activity: Activity, phase: Phase, locator: Locator): (r: Option<Token>)
    requires forall t :: t in order ==> t in h
    ensures r.Some? ==> r.value in order && Fits(h[r.value], activity, phase, locator)
    ensures r.None? ==> forall t :: t in order ==> !Fits(h[t], activity, phase, locator)
  {
    if order == [] then None
    else if Fits(h[order[0]], activity, phase, locator) then Some(order[0])
    else FirstFit(h, order[1..], activity, phase, locator)
  }

  function FindReservation(h: Holdings, activity: Activity, phase: Phase, locator: Locator := ""): (r: Option<Token>)
    ensures r.Some? <==> exists t :: t in h && Fits(h[t], activity, phase, locator)
    ensures r.Some? ==> r.value in h && Fits(h[r.value], activity, phase, locator)
  {
    FirstFit(h, Sorted(h.Keys), activity, phase, locator)
  }

  // The state says which lookups succeed: a Record tuner always yields an ACTIVE Record and never an
  // ACTIVE Live, a Free tuner neither. The searches' defensive checks cannot fail.
  lemma StateDecidesLookups(h: Holdings)
    ensures FindReservation(h, Live, ACTIVE).Some? <==> StateOf(h) == LiveState || StateOf(h) == HybridState
    ensures FindReservation(h, Record, ACTIVE).Some? <==> StateOf(h) == RecordState || StateOf(h) == HybridState
  {
    forall a ensures FindReservation(h, a, ACTIVE).Some? <==> HasActive(h, a) {
      if HasActive(h, a) {
        var t :| t in h && h[t].phase == ACTIVE && h[t].activity == a;
        assert Fits(h[t], a, ACTIVE, "");
      }
    }
  }

  // The locator of the first reservation of an activity and phase equals the given one.
  predicate FirstOn(h: Holdings, activity: Activity, phase: Phase, locator: Locator) {
    var found := FindReservation(h, activity, phase);
    found.Some? && h[found.value].locator == locator
  }

  function FirstActive(h: Holdings, order: seq<Token>): (r: Option<Token>)
    requires forall t :: t in order ==> t in h
    ensures r.Some? ==> r.value in order && h[r.value].phase == ACTIVE
    ensures r.None? ==> forall t :: t in order ==> h[t].phase != ACTIVE
  {
    if order == [] then None
    else if h[order[0]].phase == ACTIVE then Some(order[0])
    else FirstActive(h, order[1..])
  }

  // The locator a tuner is on now: that of its first ACTIVE reservation, or empty.
  function ActiveLocator(h: Holdings): Locator {
    var found := FirstActive(h, Sorted(h.Keys));
    if found.Some? then h[found.value].locator else ""
  }

  // The reservation with the earliest start; the first one in visiting order among equals.
  // The accumulator starts at the largest 64-bit value, as the source's does.
  const LARGEST_START: nat := 0xFFFF_FFFF_FFFF_FFFF

  function Nearest(h: Holdings, order: seq<Token>): (r: (nat, Locator))
    requires forall t :: t in order ==> t in h
    ensures forall t :: t in order ==> r.0 <= h[t].start || LARGEST_START <= h[t].start
    ensures r == (LARGEST_START, "") || exists t :: t in order && r == (h[t].start, h[t].locator)
  {
    if order == [] then (LARGEST_START, "") else
      var n := |order| - 1;
      assert order == order[..n] + [order[n]];
      var best := Nearest(h, order[..n]);
      if h[order[n]].start < best.0 then (h[order[n]].start, h[order[n]].locator) else best
  }

  // The locator of a tuner when future reservations count as well.
  function ServiceLocator(h: Holdings): Locator {
    if ActiveLocator(h) != "" then ActiveLocator(h) else Nearest(h, Sorted(h.Keys)).1
  }

  // Position k starts soonest, and before it nothing starts as soon.
  ghost predicate Soonest(h: Holdings, order: seq<Token>, k: nat)
    requires forall t :: t in order ==> t in h
  {
    k < |order| && forall j: nat :: j < |order| ==> h[order[k]].start + (if j < k then 1 else 0) <= h[order[j]].start
  }

  lemma {:induction false} NearestIs(h: Holdings, order: seq<Token>, k: nat)
    requires forall t :: t in order ==> t in h
    requires Soonest(h, order, k) && h[order[k]].start < LARGEST_START
    ensures Nearest(h, order) == (h[order[k]].start, h[order[k]].locator)
  {
    var n := |order| - 1;
    var most := order[..n];
    assert order == most + [order[n]];
    if k < n {
      assert forall j: nat :: j < n ==> most[j] == order[j];
      NearestIs(h, most, k);
    } else {
      forall t | t in most ensures h[order[k]].start < h[t].start {
        var j: nat :| j < n && most[j] == t;
        assert order[j] == t;
      }
    }
  }

  // Of the reservations to come the one that starts soonest gives the locator, the first one among equals.
  lemma SoonestGives(h: Holdings, t: Token)
    requires ActiveLocator(h) == "" && t in h && h[t].start < LARGEST_START
    requires forall u :: u in h && u != t ==> h[t].start < h[u].start || (h[t].start == h[u].start && Less(t, u))
    ensures ServiceLocator(h) == h[t].locator
  {
    var order := Sorted(h.Keys);
    SortedAscends(h.Keys);
    var k: nat :| k < |order| && order[k] == t;
    forall j: nat | j < |order| ensures h[t].start + (if j < k then 1 else 0) <= h[order[j]].start {
      assert order[j] in order;
      if j < k { LessOneWay(order[j], t); }
    }
    NearestIs(h, order, k);
  }

  // The scan of getEndTime: it stops at the first reservation of another activity.
  function ScanEnd(h: Holdings, order: seq<Token>, activity: Activity): nat
    requires forall t :: t in order ==> t in h
  {
    if order == [] || h[order[0]].activity != activity then 0 else
      var rest := ScanEnd(h, order[1..], activity);
      if h[order[0]].End() > rest then h[order[0]].End() else rest
  }

  function EndTime(h: Holdings, activity: Activity): nat {
    ScanEnd(h, Sorted(h.Keys), activity)
  }

  // ---------------------------------------------------------------- windows

  // Half-open windows; the source's own test.
  predicate IsOverlap(start1: nat, dur1: nat, start2: nat, dur2: nat) {
    !(start1 + dur1 <= start2 || start2 + dur2 <= start1)
  }

  predicate Overlaps(a: Reservation, b: Reservation) {
    IsOverlap(a.start, a.duration, b.start, b.duration)
  }

  predicate Disagrees(a: Reservation, b: Reservation) {
    Overlaps(a, b) && a.activity == b.activity && a.locator != b.locator
  }

  // On a tuner in use, an overlapping reservation of the same activity must have the same locator.
  predicate Clashes(h: Holdings, r: Reservation) {
    StateOf(h) != FreeState &&
    exists t :: t in h && Disagrees(h[t], r)
  }

  function ActiveTokens(h: Holdings): set<Token> {
    set t | t in h && h[t].phase == ACTIVE
  }

  lemma {:induction false} SubsetSize(a: set<Token>, b: set<Token>)
    requires a <= b
    ensures |a| <= |b|
  {
    if a != {} {
      var x :| x in a;
      SubsetSize(a - {x}, b - {x});
    }
  }

  function ActiveAmong(h: Holdings, order: seq<Token>): set<Token> {
    set t | t in h && t in order && h[t].phase == ACTIVE
  }

  lemma ActiveAmongNext(h: Holdings, met: seq<Token>, t: Token)
    requires t in h && t !in met
    ensures |ActiveAmong(h, met + [t])| == |ActiveAmong(h, met)| + if h[t].phase == ACTIVE then 1 else 0
  {
    var before := ActiveAmong(h, met);
    assert ActiveAmong(h, met + [t]) == if h[t].phase == ACTIVE then before + {t} else before;
  }

  lemma NotMetYet(order: seq<Token>, i: nat)
    requires i < |order| && Distinct(order)
    ensures order[i] !in order[..i]
    ensures order[..i + 1] == order[..i] + [order[i]]
  {
  }

  // Added: done. Refused: raised before anything changed. Torn: raised after the insertion.
  datatype AddOutcome = Added | Refused | Torn

  function AddResult(h: Holdings, r: Reservation): (Holdings, AddOutcome) {
    if Clashes(h, r) then (h, Refused)
    else if |ActiveTokens(h[r.token := r])| <= 2 then (h[r.token := r], Added)
    else (h[r.token := r], Torn)
  }

  // ---- what the window test and the refusal mean

  predicate Lasts(r: Reservation, x: nat) {
    r.start <= x < r.End()
  }

  ghost predicate ShareMoment(a: Reservation, b: Reservation) {
    exists x: nat :: Lasts(a, x) && Lasts(b, x)
  }

  // A window without duration, strictly within another.
  predicate PointWithin(a: Reservation, b: Reservation) {
    a.duration == 0 && b.start < a.start < b.End()
  }

  // Two windows overlap exactly when they share a moment, or one is a point within the other.
  lemma OverlapIff(a: Reservation, b: Reservation)
    ensures Overlaps(a, b) <==> ShareMoment(a, b) || PointWithin(a, b) || PointWithin(b, a)
  {
    var later := if a.start >= b.start then a.start else b.start;
    assert Lasts(a, later) && Lasts(b, later) ==> ShareMoment(a, b);
  }

  lemma OverlapSymmetric(a: Reservation, b: Reservation)
    ensures Overlaps(a, b) <==> Overlaps(b, a)
    ensures a.duration > 0 && b.duration > 0 ==> (Overlaps(a, b) <==> ShareMoment(a, b))
  {
    OverlapIff(a, b);
    OverlapIff(b, a);
    assert ShareMoment(a, b) <==> ShareMoment(b, a);
  }

  // A reservation of the same activity on another locator at the same time.
  ghost predicate Rivals(a: Reservation, r: Reservation) {
    && a.activity == r.activity && a.locator != r.locator
    && (ShareMoment(a, r) || PointWithin(a, r) || PointWithin(r, a))
  }

  // What a tuner does with a new reservation. It refuses if and only if one of its reservations runs and
  // one is a rival; otherwise it takes it in, and complains if more than two run then.
  lemma AdmissionIff(h: Holdings, r: Reservation)
    ensures var (h', outcome) := AddResult(h, r);
      && (outcome == Refused <==>
            && (exists u :: u in h && h[u].phase == ACTIVE && (h[u].activity == Live || h[u].activity == Record))
            && (exists t :: t in h && Rivals(h[t], r)))
      && h' == (if outcome == Refused then h else h[r.token := r])
      && (outcome != Refused ==> (outcome == Added <==> |set t | t in h' && h'[t].phase == ACTIVE| <= 2))
  {
    assert StateOf(h) != FreeState <==>
      exists u :: u in h && h[u].phase == ACTIVE && (h[u].activity == Live || h[u].activity == Record);
    forall t | t in h ensures Disagrees(h[t], r) <==> Rivals(h[t], r) { OverlapIff(h[t], r); }
    hide Disagrees, Rivals, StateOf;
    assert (exists t :: t in h && Disagrees(h[t], r)) <==> (exists t :: t in h && Rivals(h[t], r));
  }

  // ---------------------------------------------------------------- the object

  class Tuner {
    const id: TunerId
    var reservations: Holdings

    constructor (id: TunerId)
      ensures this.id == id && reservations == map[]
    {
      this.id := id;
      reservations := map[];
    }

    // Appends this tuner's tokens to the caller's list.
    method GetReservationTokens(tokens: seq<Token>) returns (r: seq<Token>)
      ensures r == tokens + Sorted(reservations.Keys)
    {
      r := tokens;
      var order := Sorted(reservations.Keys);
      for i := 0 to |order|
        invariant r == tokens + order[..i]
      {
        r := r + [order[i]];
      }
    }

    method GetState() returns (state: TunerState)
      ensures state == StateOf(reservations)
    {
      state := FreeState;
      var order := Sorted(reservations.Keys);
      for i := 0 to |order|
        invariant state == FoldState(reservations, order[..i])
      {
        assert order[..i + 1][..i] == order[..i];
        var r := reservations[order[i]];
        if r.phase == ACTIVE {
          if r.activity == Live {
            state := Join(state, Live);
          } else if r.activity == Record {
            state := Join(state, Record);
          }
        }
      }
      assert order[..|order|] == order;
      FoldIsState(reservations, order);
    }

    method GetReservation(activity: Activity, phase: Phase, locator: Locator) returns (r: Option<Token>)
      ensures r == FindReservation(reservations, activity, phase, locator)
    {
      var order := Sorted(reservations.Keys);
      var i := 0;
      while i < |order|
        invariant 0 <= i <= |order|
        invariant FirstFit(reservations, order, activity, phase, locator) ==
                  FirstFit(reservations, order[i..], activity, phase, locator)
      {
        var x := reservations[order[i]];
        if x.phase == phase {
          if x.activity == activity {
            if locator == "" || x.locator == locator {
              return Some(order[i]);
            }
          }
        }
        i := i + 1;
      }
      r := None;
    }

    method GetServiceLocator(considerFutureToken: bool) returns (locator: Locator)
      ensures locator == if considerFutureToken then ServiceLocator(reservations) else ActiveLocator(reservations)
    {
      locator := GetActiveLocator();
      if locator == "" && considerFutureToken {
        locator := GetNearestLocator();
      }
    }

    // The first loop of getServiceLocator.
    method GetActiveLocator() returns (locator: Locator)
      ensures locator == ActiveLocator(reservations)
    {
      var order := Sorted(reservations.Keys);
      var i := 0;
      while i < |order|
        invariant 0 <= i <= |order|
        invariant FirstActive(reservations, order) == FirstActive(reservations, order[i..])
      {
        if reservations[order[i]].phase == ACTIVE {
          return reservations[order[i]].locator;
        }
        i := i + 1;
      }
      locator := "";
    }

    // The second loop of getServiceLocator.
    method GetNearestLocator() returns (locator: Locator)
      ensures locator == Nearest(reservations, Sorted(reservations.Keys)).1
    {
      locator := "";
      var order := Sorted(reservations.Keys);
      assert forall i :: 0 <= i < |order| ==> order[i] in order;
      hide Sorted;
      var startTime := LARGEST_START;
      for k := 0 to |order|
        invariant (startTime, locator) == Nearest(reservations, order[..k])
      {
        assert order[..k + 1][..k] == order[..k];
        if reservations[order[k]].start < startTime {
          startTime := reservations[order[k]].start;
          locator := reservations[order[k]].locator;
        }
      }
      assert order[..|order|] == order;
    }

    method GetEndTime(activity: Activity) returns (endTime: nat)
      ensures endTime == EndTime(reservations, activity)
    {
      endTime := 0;
      var order := Sorted(reservations.Keys);
      var i := 0;
      while i < |order| && reservations[order[i]].activity == activity
        invariant 0 <= i <= |order|
        invariant var rest := ScanEnd(reservations, order[i..], activity);
                  EndTime(reservations, activity) == if rest > endTime then rest else endTime
      {
        if reservations[order[i]].End() > endTime {
          endTime := reservations[order[i]].End();
        }
        i := i + 1;
      }
    }

    method AddReservation(r: Reservation) returns (outcome: AddOutcome)
      modifies this
      ensures (reservations, outcome) == AddResult(old(reservations), r)
    {
      var state := GetState();
      if state != FreeState {
        var disagrees := HasDisagreement(r);
        if disagrees {
          return Refused;
        }
      }
      reservations := reservations[r.token := r];
      var count := CountActive();
      outcome := if count <= 2 then Added else Torn;
    }

    // The overlap loop of addReservation.
    method HasDisagreement(r: Reservation) returns (found: bool)
      ensures found <==> exists t :: t in reservations && Disagrees(reservations[t], r)
    {
      var order := Sorted(reservations.Keys);
      for i := 0 to |order|
        invariant forall k :: 0 <= k < i ==> !Disagrees(reservations[order[k]], r)
      {
        var x := reservations[order[i]];
        if IsOverlap(x.start, x.duration, r.start, r.duration) {
          if x.activity == r.activity {
            if x.locator != r.locator {
              return true;
            }
          }
        }
      }
      found := false;
    }

    // The counting loop that closes addReservation.
    method CountActive() returns (count: nat)
      ensures count == |ActiveTokens(reservations)|
    {
      count := 0;
      var order := Sorted(reservations.Keys);
      SortedAscends(reservations.Keys);
      for i := 0 to |order|
        invariant count == |ActiveAmong(reservations, order[..i])|
      {
        NotMetYet(order, i);
        ActiveAmongNext(reservations, order[..i], order[i]);
        if reservations[order[i]].phase == ACTIVE {
          count := count + 1;
        }
      }
      assert order[..|order|] == order;
      assert ActiveAmong(reservations, order) == ActiveTokens(reservations);
    }

    method SetPhase(token: Token, phase: Phase)
      requires token in reservations
      modifies this
      ensures reservations == old(reservations)[token := old(reservations)[token].(phase := phase)]
    {
      reservations := reservations[token := reservations[token].(phase := phase)];
    }

    method SetServiceLocator(token: Token, locator: Locator)
      requires token in reservations
      modifies this
      ensures reservations == old(reservations)[token := old(reservations)[token].(locator := locator)]
    {
      reservations := reservations[token := reservations[token].(locator := locator)];
    }

    // A reservation stored under another name raises an assertion before anything is erased.
    method ReleaseReservation(token: Token) returns (raised: bool)
      modifies this
      ensures raised <==> token in old(reservations) && old(reservations)[token].token != token
      ensures reservations == if raised then old(reservations) else old(reservations) - {token}
    {
      raised := false;
      if token in reservations {
        if reservations[token].token != token {
          return true;
        }
        reservations := reservations - {token};
      }
    }
  }
}
