// Which tuner a Live gets, and which one is reserved for the host afterwards.
module LivePreference {
  import opened Domain
  import opened Ordering
  import opened Tuners
  import opened Registry
  import opened LivePlacement
  import opened Plain

  // ---------------------------------------------------------------- the order of preference

  ghost predicate OwnAt(s: Book, own: Option<Token>, id: TunerId) {
    own.Some? && Holds(s, id, own.value)
  }

  // What makes a tuner a candidate, the best reason first:
  // 0 the device watches the locator there, 1 it records the locator and nobody watches,
  // 2 the device watches there and the next recording is on the locator,
  // 3 nothing runs there and the next recording is on the locator, 4 it holds nothing,
  // 5 the device watches there and nothing is recorded, 6 nothing runs there and a recording is to come.
  ghost predicate Candidate(s: Book, locator: Locator, own: Option<Token>, k: nat, id: TunerId) {
    id in s.tuners &&
    var h := s.tuners[id];
    if k == 0 then OwnAt(s, own, id) && h[own.value].locator == locator
    else if k == 1 then IsRecording(h) && EarliestOn(h, Record, ACTIVE, locator)
    else if k == 2 then OwnAt(s, own, id) && IsWatched(h) && EarliestOn(h, Record, IDLE, locator)
    else if k == 3 then IsFree(h) && EarliestOn(h, Record, IDLE, locator)
    else if k == 4 then h == map[]
    else if k == 5 then OwnAt(s, own, id) && IsWatched(h)
    else k == 6 && IsFree(h) && exists t :: t in h && Is(h[t], Record, IDLE)
  }

  ghost predicate FirstAt(s: Book, locator: Locator, own: Option<Token>, k: nat, id: TunerId) {
    Candidate(s, locator, own, k, id) && forall i :: Candidate(s, locator, own, k, i) ==> i == id || Less(id, i)
  }

  ghost predicate AnotherFree(s: Book, id: TunerId) {
    exists i :: i in s.tuners && i != id && IsFree(s.tuners[i])
  }

  ghost predicate AnotherRecording(s: Book, id: TunerId) {
    exists i :: i in s.tuners && i != id && IsRecording(s.tuners[i])
  }

  // The host keeps the reserved tuner, or can be given another one.
  ghost predicate MayTake(s: Book, device: Device, id: TunerId) {
    device == s.deviceId || id != s.local || AnotherFree(s, id) || AnotherRecording(s, id)
  }

  // The reserved tuner is the last Free one, and the asking device is not the host.
  ghost predicate LastFree(s: Book, device: Device, id: TunerId) {
    device != s.deviceId && id == s.local && !AnotherFree(s, id)
  }

  // A device that watches does not take the last Free tuner from the host: it stays where it is.
  ghost predicate PickedAt(s: Book, device: Device, locator: Locator, own: Option<Token>, k: nat, id: TunerId) {
    && k <= 6 && FirstAt(s, locator, own, k, id) && MayTake(s, device, id)
    && (forall j: nat, i :: j < k && Candidate(s, locator, own, j, i) ==> k == 5 && 3 <= j && LastFree(s, device, i))
    && (3 <= k <= 4 && LastFree(s, device, id) ==> forall i :: !Candidate(s, locator, own, 5, i))
  }

  ghost predicate Picked(s: Book, device: Device, locator: Locator, own: Option<Token>, id: TunerId) {
    exists k: nat :: PickedAt(s, device, locator, own, k, id)
  }

  lemma FirstAtUnique(s: Book, locator: Locator, own: Option<Token>, k: nat, id: TunerId, id': TunerId)
    requires FirstAt(s, locator, own, k, id) && FirstAt(s, locator, own, k, id')
    ensures id == id'
  {
    LessOneWay(id, id');
    hide Candidate;
  }

  lemma PickedOnce(s: Book, device: Device, locator: Locator, own: Option<Token>, id: TunerId, id': TunerId)
    requires Picked(s, device, locator, own, id) && Picked(s, device, locator, own, id')
    ensures id == id'
  {
    hide Candidate, MayTake, LastFree;
    var k: nat :| PickedAt(s, device, locator, own, k, id);
    var k': nat :| PickedAt(s, device, locator, own, k', id');
    if k == k' {
      FirstAtUnique(s, locator, own, k, id, id');
    }
  }

  // ---------------------------------------------------------------- the stages find the candidates

  lemma InStateMeans(s: Book, id: TunerId)
    ensures InState(s, id, FreeState) <==> id in s.tuners && IsFree(s.tuners[id])
    ensures InState(s, id, RecordState) <==> id in s.tuners && IsRecording(s.tuners[id])
    ensures InState(s, id, LiveState) <==> id in s.tuners && IsWatched(s.tuners[id])
    ensures InState(s, id, HybridState) <==> id in s.tuners && IsHybrid(s.tuners[id])
  {
    if id in s.tuners { StateMeans(s.tuners[id]); }
    hide StateOf, IsFree, IsRecording, IsWatched, IsHybrid;
  }

  // A search among the tuners of a state, against a kind of candidate.
  ghost predicate Finds(s: Book, locator: Locator, own: Option<Token>, k: nat, found: Option<TunerId>) {
    if found.Some? then FirstAt(s, locator, own, k, found.value) else forall i :: !Candidate(s, locator, own, k, i)
  }

  lemma SearchFinds(s: Book, locator: Locator, own: Option<Token>, k: nat, state: TunerState, c: Criterion)
    requires forall i :: Candidate(s, locator, own, k, i) <==> InState(s, i, state) && Meets(s.tuners[i], c)
    ensures Finds(s, locator, own, k, FirstMeeting(s, IdsInState(s, state), c))
  {
    hide Candidate, Meets, FirstMeeting, StateOf;
    var ids := IdsInState(s, state);
    IdsAscend(s, state);
    FirstMeetingLeast(s, ids, c);
  }

  lemma SharingFound(s: Book, locator: Locator, own: Option<Token>)
    ensures Finds(s, locator, own, 1, FirstMeeting(s, IdsInState(s, RecordState), SharesRecording(locator)))
  {
    forall i ensures Candidate(s, locator, own, 1, i) <==> InState(s, i, RecordState) && Meets(s.tuners[i], SharesRecording(locator)) {
      InStateMeans(s, i);
      if i in s.tuners { FirstOnMeans(s.tuners[i], Record, ACTIVE, locator); }
    }
    hide *;
    SearchFinds(s, locator, own, 1, RecordState, SharesRecording(locator));
  }

  lemma AwaitingFound(s: Book, locator: Locator, own: Option<Token>)
    ensures Finds(s, locator, own, 3, FirstMeeting(s, IdsInState(s, FreeState), AwaitsRecording(locator)))
  {
    forall i ensures Candidate(s, locator, own, 3, i) <==> InState(s, i, FreeState) && Meets(s.tuners[i], AwaitsRecording(locator)) {
      InStateMeans(s, i);
      if i in s.tuners { FirstOnMeans(s.tuners[i], Record, IDLE, locator); }
    }
    hide *;
    SearchFinds(s, locator, own, 3, FreeState, AwaitsRecording(locator));
  }

  lemma UntouchedFound(s: Book, locator: Locator, own: Option<Token>)
    ensures Finds(s, locator, own, 4, FirstMeeting(s, IdsInState(s, FreeState), Untouched))
  {
    forall i ensures Candidate(s, locator, own, 4, i) <==> InState(s, i, FreeState) && Meets(s.tuners[i], Untouched) {
      InStateMeans(s, i);
    }
    hide *;
    SearchFinds(s, locator, own, 4, FreeState, Untouched);
  }

  lemma FutureFound(s: Book, locator: Locator, own: Option<Token>)
    ensures Finds(s, locator, own, 6, FirstMeeting(s, IdsInState(s, FreeState), AnyFuture))
  {
    forall i ensures Candidate(s, locator, own, 6, i) <==> InState(s, i, FreeState) && Meets(s.tuners[i], AnyFuture) {
      InStateMeans(s, i);
      if i in s.tuners { FirstOnMeans(s.tuners[i], Record, IDLE, locator); }
    }
    hide *;
    SearchFinds(s, locator, own, 6, FreeState, AnyFuture);
  }

  // The device's own tuner, and for what it is a candidate.
  lemma OwnCandidates(s: Book, device: Device, locator: Locator, own: Option<Token>)
    requires Ready(s) && IsOwn(s, device, own)
    ensures own.None? ==> forall i :: !OwnAt(s, own, i)
    ensures own.Some? ==>
      var home := HomeOf(s, own.value);
      && (forall i :: OwnAt(s, own, i) <==> i == home)
      && (Candidate(s, locator, own, 0, home) <==> OnLocator(s, locator, own))
      && (Candidate(s, locator, own, 5, home) <==> OnLiveTuner(s, own))
      && (Candidate(s, locator, own, 2, home) <==> OnLiveTuner(s, own) && Meets(s.tuners[home], AwaitsRecording(locator)))
      && (device != s.deviceId ==> home != s.local)
      && !IsFree(s.tuners[home]) && !IsRecording(s.tuners[home])
  {
    hide *;
    OwnNowhere(s, own);
    OwnHeld(s, device, own);
    if own.Some? {
      var home := HomeOf(s, own.value);
      OwnHome(s, device, own);
      OwnIsAt(s, own.value);
      InStateMeans(s, home);
      NotBoth(s.tuners[home]);
      FirstOnMeans(s.tuners[home], Record, IDLE, locator);
      CandidateMeans(s, locator, own, home);
    }
  }

  lemma OwnHeld(s: Book, device: Device, own: Option<Token>)
    requires Ready(s) && IsOwn(s, device, own)
    ensures OneHome(s) && (own.Some? ==> IsHeld(s, own.value))
  {
  }

  lemma OwnNowhere(s: Book, own: Option<Token>)
    ensures own.None? ==> forall i :: !OwnAt(s, own, i)
  {
  }

  lemma OwnIsAt(s: Book, t: Token)
    requires OneHome(s) && IsHeld(s, t)
    ensures forall i :: OwnAt(s, Some(t), i) <==> i == HomeOf(s, t)
  {
    hide HomeOf;
  }

  lemma NotBoth(h: Holdings)
    ensures IsWatched(h) || IsHybrid(h) ==> !IsFree(h) && !IsRecording(h)
  {
  }

  lemma CandidateMeans(s: Book, locator: Locator, own: Option<Token>, home: TunerId)
    requires own.Some? && IsHeld(s, own.value) && home == HomeOf(s, own.value) && OwnAt(s, own, home)
    requires InState(s, home, LiveState) <==> IsWatched(s.tuners[home])
    requires FirstOn(s.tuners[home], Record, IDLE, locator) <==> EarliestOn(s.tuners[home], Record, IDLE, locator)
    ensures Candidate(s, locator, own, 0, home) <==> OnLocator(s, locator, own)
    ensures Candidate(s, locator, own, 5, home) <==> OnLiveTuner(s, own)
    ensures Candidate(s, locator, own, 2, home) <==> OnLiveTuner(s, own) && Meets(s.tuners[home], AwaitsRecording(locator))
  {
    hide HomeOf, StateOf, EarliestOn, IsWatched, FirstOn, InState;
  }

  lemma OnlyOwn(s: Book, locator: Locator, own: Option<Token>, k: nat, i: TunerId)
    requires k == 0 || k == 2 || k == 5
    ensures Candidate(s, locator, own, k, i) ==> OwnAt(s, own, i)
  {
  }

  // ---- the guard and the relocation, on holdings

  lemma CountsMean(s: Book, id: TunerId)
    ensures id in s.tuners && IsFree(s.tuners[id]) ==> (|IdsInState(s, FreeState)| == 1 <==> !AnotherFree(s, id))
    ensures |IdsInState(s, RecordState)| >= 1 <==> exists i :: i in s.tuners && IsRecording(s.tuners[i])
    ensures Without(IdsInState(s, FreeState), id) != [] <==> AnotherFree(s, id)
    ensures Without(IdsInState(s, RecordState), id) != [] <==> AnotherRecording(s, id)
  {
    forall i ensures InState(s, i, FreeState) <==> i in s.tuners && IsFree(s.tuners[i]) { InStateMeans(s, i); }
    forall i ensures InState(s, i, RecordState) <==> i in s.tuners && IsRecording(s.tuners[i]) { InStateMeans(s, i); }
    hide IsFree, IsRecording, InState;
    var free, record := IdsInState(s, FreeState), IdsInState(s, RecordState);
    NonEmpty(record);
    NonEmpty(Without(free, id));
    NonEmpty(Without(record, id));
    if id in free {
      SortedAscends(s.tuners.Keys);
      KeptDistinct(s, ByTunerState(FreeState), TunerIds(s));
      OnlyOne(free, id);
    }
  }

  lemma NonEmpty(xs: seq<TunerId>)
    ensures xs != [] <==> exists x :: x in xs
  {
    if xs != [] { assert xs[0] in xs; }
  }

  lemma OnlyOne(xs: seq<TunerId>, x: TunerId)
    requires Distinct(xs) && x in xs
    ensures |xs| == 1 <==> forall y :: y in xs ==> y == x
  {
    if |xs| > 1 { assert xs[0] in xs && xs[1] in xs && xs[0] != xs[1]; }
  }

  // ---------------------------------------------------------------- the choice is the preferred one

  lemma StagesAre(s: Book, locator: Locator, own: Option<Token>)
    requires own.Some? ==> IsHeld(s, own.value)
    ensures var sharing := FirstMeeting(s, IdsInState(s, RecordState), SharesRecording(locator));
      LiveStages(s, locator, own) ==
        if OnLocator(s, locator, own) then Candidates(Some(HomeOf(s, own.value)), None)
        else if sharing.Some? then Candidates(sharing, None)
        else if OnLiveTuner(s, own) then
          if Meets(s.tuners[HomeOf(s, own.value)], AwaitsRecording(locator)) then Candidates(Some(HomeOf(s, own.value)), None)
          else Candidates(FreeStages(s, locator), Some(HomeOf(s, own.value)))
        else Candidates(FreeStages(s, locator), None)
  {
    hide FirstMeeting, Meets, StateOf, IdsInState, FreeStages, HomeOf;
  }

  lemma ChooseIs(s: Book, device: Device, locator: Locator, own: Option<Token>)
    requires own.Some? ==> IsHeld(s, own.value)
    ensures var found := LiveStages(s, locator, own);
      var g := GuardLastFree(s, device, found);
      ChooseLive(s, device, locator, own) ==
        SettleReserved(s, device, Choice(LastResort(s, g.target, found.fallback), g.local), found.fallback)
  {
    hide LiveStages, GuardLastFree, SettleReserved, LastResort;
  }

  lemma LastResortIs(s: Book, found: Option<TunerId>, fallback: Option<TunerId>)
    ensures LastResort(s, found, fallback) ==
      if found.Some? then found else if fallback.Some? then fallback
      else FirstMeeting(s, IdsInState(s, FreeState), AnyFuture)
  {
  }

  // What guard and relocation do to a tuner on which nobody watches.
  lemma GuardMeans(s: Book, device: Device, c: Candidates)
    requires c.target.Some? && c.target.value in s.tuners
    ensures var x, g := c.target.value, GuardLastFree(s, device, c);
      && (g.target == c.target || (g.target == None && g.local == s.local))
      && (IsFree(s.tuners[x]) ==>
            (g.target.None? <==> LastFree(s, device, x) && (c.fallback.Some? || !exists i :: i in s.tuners && IsRecording(s.tuners[i]))))
      && (IsRecording(s.tuners[x]) && c.fallback.None? ==> g.target == c.target)
      && (!LastFree(s, device, x) && IsFree(s.tuners[x]) ==> g == Choice(c.target, s.local))
      && (device == s.deviceId || x != s.local ==> g == Choice(c.target, s.local))
  {
    CountsMean(s, c.target.value);
    hide IsFree, IsRecording, IdsInState, AnotherFree;
  }

  lemma SettleMeans(s: Book, device: Device, c: Choice, fallback: Option<TunerId>)
    requires s.deviceId != "" && c.target.Some? && c.target.value in s.tuners
    ensures var x := c.target.value;
      SettleReserved(s, device, c, fallback).target ==
        if c.target == fallback || device == s.deviceId || x != c.local || AnotherFree(s, x) || AnotherRecording(s, x)
        then c.target else None
  {
    CountsMean(s, c.target.value);
    hide IdsInState, AnotherFree, AnotherRecording;
  }

  lemma SettleNone(s: Book, device: Device, local: TunerId, fallback: Option<TunerId>)
    ensures SettleReserved(s, device, Choice(None, local), fallback).target == None
  {
  }

  // One candidate settles the matter at its stage when no better one exists.
  lemma PickHere(s: Book, device: Device, locator: Locator, own: Option<Token>, k: nat, x: TunerId)
    requires k <= 6 && FirstAt(s, locator, own, k, x)
    requires forall j: nat, i :: j < k ==> !Candidate(s, locator, own, j, i)
    requires 3 <= k <= 4 && LastFree(s, device, x) ==> forall i :: !Candidate(s, locator, own, 5, i)
    ensures MayTake(s, device, x) ==> Picked(s, device, locator, own, x)
    ensures !MayTake(s, device, x) ==> forall i :: !Picked(s, device, locator, own, i)
  {
    hide Candidate, MayTake, LastFree;
    if MayTake(s, device, x) {
      assert PickedAt(s, device, locator, own, k, x);
    } else {
      forall i | Picked(s, device, locator, own, i) ensures false {
        var k': nat :| PickedAt(s, device, locator, own, k', i);
        assert Candidate(s, locator, own, k, x) && Candidate(s, locator, own, k', i);
        if k' == k { FirstAtUnique(s, locator, own, k, x, i); }
      }
    }
  }

  // The device stays where it is: nothing better, or only the last Free tuner.
  lemma PickOwn(s: Book, device: Device, locator: Locator, own: Option<Token>, x: TunerId)
    requires FirstAt(s, locator, own, 5, x) && MayTake(s, device, x)
    requires forall j: nat, i :: j < 5 && Candidate(s, locator, own, j, i) ==> 3 <= j && LastFree(s, device, i)
    ensures Picked(s, device, locator, own, x)
  {
    assert PickedAt(s, device, locator, own, 5, x);
  }

  lemma PickNone(s: Book, device: Device, locator: Locator, own: Option<Token>)
    requires forall j: nat, i :: j <= 6 ==> !Candidate(s, locator, own, j, i)
    ensures forall i :: !Picked(s, device, locator, own, i)
  {
    hide Candidate;
  }

  lemma FindsMeans(s: Book, locator: Locator, own: Option<Token>, k: nat, found: Option<TunerId>)
    requires Finds(s, locator, own, k, found)
    ensures found.Some? ==>
      FirstAt(s, locator, own, k, found.value) && Candidate(s, locator, own, k, found.value) && found.value in s.tuners
    ensures found.None? ==> forall i :: !Candidate(s, locator, own, k, i)
  {
  }

  lemma AloneFirst(s: Book, locator: Locator, own: Option<Token>, k: nat, x: TunerId)
    requires Candidate(s, locator, own, k, x) && forall i :: Candidate(s, locator, own, k, i) ==> i == x
    ensures FirstAt(s, locator, own, k, x)
  {
  }

  lemma QuietKinds(s: Book, locator: Locator, own: Option<Token>, k: nat, x: TunerId)
    requires Candidate(s, locator, own, k, x)
    ensures x in s.tuners
    ensures k == 1 ==> IsRecording(s.tuners[x])
    ensures k == 3 || k == 4 || k == 6 ==> IsFree(s.tuners[x])
  {
  }

  lemma MayMeans(s: Book, device: Device, x: TunerId)
    ensures MayTake(s, device, x) <==> device == s.deviceId || x != s.local || AnotherFree(s, x) || AnotherRecording(s, x)
    ensures LastFree(s, device, x) <==> device != s.deviceId && x == s.local && !AnotherFree(s, x)
  {
  }

  lemma SomeRecording(s: Book, x: TunerId)
    requires x in s.tuners
    ensures IsFree(s.tuners[x]) ==> ((exists i :: i in s.tuners && IsRecording(s.tuners[i])) <==> AnotherRecording(s, x))
  {
    assert IsFree(s.tuners[x]) ==> !IsRecording(s.tuners[x]);
    hide IsFree, IsRecording;
  }

  lemma FreeStagesAre(s: Book, locator: Locator)
    ensures var awaiting := FirstMeeting(s, IdsInState(s, FreeState), AwaitsRecording(locator));
      FreeStages(s, locator) == if awaiting.Some? then awaiting else FirstMeeting(s, IdsInState(s, FreeState), Untouched)
  {
    hide FirstMeeting, IdsInState;
  }

  lemma NoOwn(s: Book, locator: Locator, own: Option<Token>, k: nat)
    requires k == 0 || k == 2 || k == 5
    requires forall i :: OwnAt(s, own, i) ==> !Candidate(s, locator, own, k, i)
    ensures forall i :: !Candidate(s, locator, own, k, i)
  {
    forall i ensures !Candidate(s, locator, own, k, i) { OnlyOwn(s, locator, own, k, i); }
  }

  // What the choice must come to.
  ghost predicate Right(s: Book, device: Device, locator: Locator, own: Option<Token>, target: Option<TunerId>) {
    if target.Some? then Picked(s, device, locator, own, target.value) else forall i :: !Picked(s, device, locator, own, i)
  }

  lemma RightFrom(s: Book, device: Device, locator: Locator, own: Option<Token>, target: Option<TunerId>)
    requires target.Some? ==> Picked(s, device, locator, own, target.value)
    requires target.None? ==> forall i :: !Picked(s, device, locator, own, i)
    ensures Right(s, device, locator, own, target)
  {
  }

  lemma AtHomeRight(s: Book, device: Device, locator: Locator, own: Option<Token>, k: nat)
    requires Ready(s) && IsOwn(s, device, own) && own.Some? && (k == 0 || k == 2)
    requires Candidate(s, locator, own, k, HomeOf(s, own.value))
    requires forall j: nat, i :: j < k ==> !Candidate(s, locator, own, j, i)
    requires LiveStages(s, locator, own) == Candidates(Some(HomeOf(s, own.value)), None)
    ensures Right(s, device, locator, own, ChooseLive(s, device, locator, own).target)
  {
    hide *;
    OwnHeld(s, device, own);
    var home := HomeOf(s, own.value);
    OwnCandidates(s, device, locator, own);
    ReadyParts(s);
    GrantedAtHome(s, device, locator, own);
    forall i | Candidate(s, locator, own, k, i) ensures i == home { OnlyOwn(s, locator, own, k, i); }
    AloneFirst(s, locator, own, k, home);
    MayMeans(s, device, home);
    PickHere(s, device, locator, own, k, home);
    RightFrom(s, device, locator, own, Some(home));
  }

  lemma ReadyParts(s: Book)
    requires Ready(s)
    ensures s.deviceId != ""
  {
  }

  lemma SharingRight(s: Book, device: Device, locator: Locator, own: Option<Token>, x: TunerId)
    requires Ready(s) && IsOwn(s, device, own) && FirstAt(s, locator, own, 1, x) && Candidate(s, locator, own, 1, x)
    requires forall i :: !Candidate(s, locator, own, 0, i)
    requires LiveStages(s, locator, own) == Candidates(Some(x), None)
    ensures Right(s, device, locator, own, ChooseLive(s, device, locator, own).target)
  {
    hide *;
    ReadyParts(s);
    OwnHeld(s, device, own);
    ChooseIs(s, device, locator, own);
    QuietKinds(s, locator, own, 1, x);
    var found := Candidates(Some(x), None);
    GuardMeans(s, device, found);
    GuardedLocal(s, device, x);
    var g := GuardLastFree(s, device, found);
    LastResortIs(s, g.target, None);
    SettleMeans(s, device, g, None);
    MayMeans(s, device, x);
    PickHere(s, device, locator, own, 1, x);
    RightFrom(s, device, locator, own, ChooseLive(s, device, locator, own).target);
  }

  // Moving the reserved role away from a recording tuner changes nothing about whether it may be taken.
  lemma GuardedLocal(s: Book, device: Device, x: TunerId)
    requires x in s.tuners && IsRecording(s.tuners[x])
    ensures var g := GuardLastFree(s, device, Candidates(Some(x), None)); g.local == s.local || AnotherFree(s, x)
  {
    var free := IdsInState(s, FreeState);
    if |free| == 1 {
      CountsMean(s, x);
      InStateMeans(s, x);
      assert free[0] in free;
      assert free[0] in Without(free, x);
    }
    hide IdsInState, AnotherFree, StateOf;
  }

  // No better candidate than a Free tuner, and the device does not watch on a tuner it could keep.
  lemma FreeRight(s: Book, device: Device, locator: Locator, own: Option<Token>)
    requires Ready(s) && IsOwn(s, device, own)
    requires forall j: nat, i :: j <= 2 || j == 5 ==> !Candidate(s, locator, own, j, i)
    requires LiveStages(s, locator, own) == Candidates(FreeStages(s, locator), None)
    ensures Right(s, device, locator, own, ChooseLive(s, device, locator, own).target)
  {
    hide *;
    OwnHeld(s, device, own);
    ChooseIs(s, device, locator, own);
    FreeStagesAre(s, locator);
    AwaitingFound(s, locator, own);
    UntouchedFound(s, locator, own);
    var awaiting := FirstMeeting(s, IdsInState(s, FreeState), AwaitsRecording(locator));
    var empty := FirstMeeting(s, IdsInState(s, FreeState), Untouched);
    FindsMeans(s, locator, own, 3, awaiting);
    FindsMeans(s, locator, own, 4, empty);
    if awaiting.Some? {
      FreeTargetRight(s, device, locator, own, 3, awaiting.value);
    } else if empty.Some? {
      FreeTargetRight(s, device, locator, own, 4, empty.value);
    } else {
      FutureRight(s, device, locator, own);
    }
  }

  lemma FreeTargetRight(s: Book, device: Device, locator: Locator, own: Option<Token>, k: nat, x: TunerId)
    requires Ready(s) && IsOwn(s, device, own) && 3 <= k <= 4
    requires FirstAt(s, locator, own, k, x) && Candidate(s, locator, own, k, x)
    requires forall j: nat, i :: j < k || j == 5 ==> !Candidate(s, locator, own, j, i)
    requires LiveStages(s, locator, own) == Candidates(Some(x), None)
    ensures Right(s, device, locator, own, ChooseLive(s, device, locator, own).target)
  {
    hide *;
    ReadyParts(s);
    OwnHeld(s, device, own);
    ChooseIs(s, device, locator, own);
    QuietKinds(s, locator, own, k, x);
    var found := Candidates(Some(x), None);
    GuardMeans(s, device, found);
    var g := GuardLastFree(s, device, found);
    MayMeans(s, device, x);
    SomeRecording(s, x);
    PickHere(s, device, locator, own, k, x);
    LastResortIs(s, g.target, None);
    if g.target.Some? {
      SettleMeans(s, device, g, None);
    } else {
      FutureFound(s, locator, own);
      var future := FirstMeeting(s, IdsInState(s, FreeState), AnyFuture);
      FindsMeans(s, locator, own, 6, future);
      SettleNone(s, device, s.local, None);
      if future.Some? {
        QuietKinds(s, locator, own, 6, future.value);
        SameFree(s, x, future.value);
        SettleMeans(s, device, Choice(future, s.local), None);
      }
    }
    RightFrom(s, device, locator, own, ChooseLive(s, device, locator, own).target);
  }

  lemma SameFree(s: Book, x: TunerId, y: TunerId)
    requires x in s.tuners && y in s.tuners && IsFree(s.tuners[y])
    ensures !AnotherFree(s, x) ==> x == y
  {
  }

  lemma FutureRight(s: Book, device: Device, locator: Locator, own: Option<Token>)
    requires Ready(s) && IsOwn(s, device, own)
    requires forall j: nat, i :: j <= 5 ==> !Candidate(s, locator, own, j, i)
    requires LiveStages(s, locator, own) == Candidates(None, None)
    ensures Right(s, device, locator, own, ChooseLive(s, device, locator, own).target)
  {
    hide *;
    ReadyParts(s);
    OwnHeld(s, device, own);
    ChooseIs(s, device, locator, own);
    GuardOfNone(s, device, None);
    LastResortIs(s, None, None);
    FutureFound(s, locator, own);
    var future := FirstMeeting(s, IdsInState(s, FreeState), AnyFuture);
    FindsMeans(s, locator, own, 6, future);
    if future.Some? {
      SettleMeans(s, device, Choice(future, s.local), None);
      MayMeans(s, device, future.value);
      PickHere(s, device, locator, own, 6, future.value);
    } else {
      SettleNone(s, device, s.local, None);
      PickNone(s, device, locator, own);
    }
    RightFrom(s, device, locator, own, ChooseLive(s, device, locator, own).target);
  }

  lemma GuardOfNone(s: Book, device: Device, fallback: Option<TunerId>)
    ensures GuardLastFree(s, device, Candidates(None, fallback)) == Choice(None, s.local)
  {
  }

  // The device watches on a tuner it could keep, which does not await the locator.
  lemma WatchingRight(s: Book, device: Device, locator: Locator, own: Option<Token>)
    requires Ready(s) && IsOwn(s, device, own) && own.Some?
    requires forall j: nat, i :: j <= 2 ==> !Candidate(s, locator, own, j, i)
    requires Candidate(s, locator, own, 5, HomeOf(s, own.value))
    requires LiveStages(s, locator, own) == Candidates(FreeStages(s, locator), Some(HomeOf(s, own.value)))
    ensures Right(s, device, locator, own, ChooseLive(s, device, locator, own).target)
  {
    hide *;
    OwnHeld(s, device, own);
    FreeStagesAre(s, locator);
    AwaitingFound(s, locator, own);
    UntouchedFound(s, locator, own);
    var awaiting := FirstMeeting(s, IdsInState(s, FreeState), AwaitsRecording(locator));
    var empty := FirstMeeting(s, IdsInState(s, FreeState), Untouched);
    FindsMeans(s, locator, own, 3, awaiting);
    FindsMeans(s, locator, own, 4, empty);
    if awaiting.Some? {
      WatchingMoves(s, device, locator, own, 3, awaiting.value);
    } else if empty.Some? {
      WatchingMoves(s, device, locator, own, 4, empty.value);
    } else {
      WatchingStays(s, device, locator, own);
    }
  }

  lemma OwnFirst(s: Book, device: Device, locator: Locator, own: Option<Token>)
    requires Ready(s) && IsOwn(s, device, own) && own.Some?
    requires Candidate(s, locator, own, 5, HomeOf(s, own.value))
    ensures FirstAt(s, locator, own, 5, HomeOf(s, own.value)) && MayTake(s, device, HomeOf(s, own.value))
    ensures HomeOf(s, own.value) in s.tuners
  {
    hide *;
    OwnHeld(s, device, own);
    var home := HomeOf(s, own.value);
    OwnCandidates(s, device, locator, own);
    forall i | Candidate(s, locator, own, 5, i) ensures i == home { OnlyOwn(s, locator, own, 5, i); }
    AloneFirst(s, locator, own, 5, home);
    MayMeans(s, device, home);
    QuietKinds(s, locator, own, 5, home);
  }

  lemma WatchingStays(s: Book, device: Device, locator: Locator, own: Option<Token>)
    requires Ready(s) && IsOwn(s, device, own) && own.Some?
    requires forall j: nat, i :: j <= 4 ==> !Candidate(s, locator, own, j, i)
    requires Candidate(s, locator, own, 5, HomeOf(s, own.value))
    requires LiveStages(s, locator, own) == Candidates(None, Some(HomeOf(s, own.value)))
    ensures Right(s, device, locator, own, ChooseLive(s, device, locator, own).target)
  {
    hide *;
    ReadyParts(s);
    OwnHeld(s, device, own);
    var home := HomeOf(s, own.value);
    OwnFirst(s, device, locator, own);
    ChooseIs(s, device, locator, own);
    GuardOfNone(s, device, Some(home));
    LastResortIs(s, None, Some(home));
    SettleMeans(s, device, Choice(Some(home), s.local), Some(home));
    PickOwn(s, device, locator, own, home);
    RightFrom(s, device, locator, own, Some(home));
  }

  lemma WatchingMoves(s: Book, device: Device, locator: Locator, own: Option<Token>, k: nat, x: TunerId)
    requires Ready(s) && IsOwn(s, device, own) && own.Some? && 3 <= k <= 4
    requires FirstAt(s, locator, own, k, x) && Candidate(s, locator, own, k, x)
    requires forall j: nat, i :: j < k ==> !Candidate(s, locator, own, j, i)
    requires Candidate(s, locator, own, 5, HomeOf(s, own.value))
    requires LiveStages(s, locator, own) == Candidates(Some(x), Some(HomeOf(s, own.value)))
    ensures Right(s, device, locator, own, ChooseLive(s, device, locator, own).target)
  {
    hide *;
    ReadyParts(s);
    OwnHeld(s, device, own);
    var home := HomeOf(s, own.value);
    OwnFirst(s, device, locator, own);
    OwnCandidates(s, device, locator, own);
    ChooseIs(s, device, locator, own);
    QuietKinds(s, locator, own, k, x);
    var found := Candidates(Some(x), Some(home));
    GuardMeans(s, device, found);
    var g := GuardLastFree(s, device, found);
    LastResortIs(s, g.target, Some(home));
    MayMeans(s, device, x);
    SettleMeans(s, device, Choice(LastResort(s, g.target, Some(home)), g.local), Some(home));
    if g.target.Some? {
      PickHere(s, device, locator, own, k, x);
    } else {
      forall j: nat, i | j < 5 && Candidate(s, locator, own, j, i) ensures 3 <= j && LastFree(s, device, i) {
        QuietKinds(s, locator, own, j, i);
        SameFree(s, x, i);
      }
      PickOwn(s, device, locator, own, home);
    }
    RightFrom(s, device, locator, own, ChooseLive(s, device, locator, own).target);
  }

  lemma ChoiceRight(s: Book, device: Device, locator: Locator, own: Option<Token>)
    requires Ready(s) && IsOwn(s, device, own)
    ensures Right(s, device, locator, own, ChooseLive(s, device, locator, own).target)
  {
    hide *;
    OwnHeld(s, device, own);
    StagesAre(s, locator, own);
    OwnCandidates(s, device, locator, own);
    SharingFound(s, locator, own);
    OwnTests(s, locator, own);
    var sharing := FirstMeeting(s, IdsInState(s, RecordState), SharesRecording(locator));
    FindsMeans(s, locator, own, 1, sharing);
    if OnLocator(s, locator, own) {
      AtHomeRight(s, device, locator, own, 0);
    } else {
      NoOwn(s, locator, own, 0);
      if sharing.Some? {
        SharingRight(s, device, locator, own, sharing.value);
      } else if OnLiveTuner(s, own) && Meets(s.tuners[HomeOf(s, own.value)], AwaitsRecording(locator)) {
        AtHomeRight(s, device, locator, own, 2);
      } else {
        NoOwn(s, locator, own, 2);
        if OnLiveTuner(s, own) {
          WatchingRight(s, device, locator, own);
        } else {
          NoOwn(s, locator, own, 5);
          FreeRight(s, device, locator, own);
        }
      }
    }
  }

  lemma OwnTests(s: Book, locator: Locator, own: Option<Token>)
    requires own.Some? ==> IsHeld(s, own.value)
    ensures OnLocator(s, locator, own) || OnLiveTuner(s, own) ==> own.Some?
    ensures own.Some? ==> HomeOf(s, own.value) in s.tuners
  {
  }

  // The search takes a tuner if and only if it is the preferred one.
  lemma LivePreferenceIff(s: Book, device: Device, locator: Locator, own: Option<Token>, id: TunerId)
    requires Ready(s) && IsOwn(s, device, own)
    ensures ChooseLive(s, device, locator, own).target == Some(id) <==> Picked(s, device, locator, own, id)
  {
    hide *;
    OwnHeld(s, device, own);
    var target := ChooseLive(s, device, locator, own).target;
    ChoiceRight(s, device, locator, own);
    RightMeans(s, device, locator, own, target);
    if target.Some? && Picked(s, device, locator, own, id) {
      PickedOnce(s, device, locator, own, target.value, id);
    }
  }

  lemma RightMeans(s: Book, device: Device, locator: Locator, own: Option<Token>, target: Option<TunerId>)
    requires Right(s, device, locator, own, target)
    ensures target.Some? ==> Picked(s, device, locator, own, target.value)
    ensures target.None? ==> forall i :: !Picked(s, device, locator, own, i)
  {
  }

  // ---------------------------------------------------------------- the reserved tuner afterwards

  ghost predicate OneFree(s: Book) {
    exists f :: f in s.tuners && IsFree(s.tuners[f]) && !AnotherFree(s, f)
  }

  ghost predicate FirstFreeBut(s: Book, x: TunerId, y: TunerId) {
    && y in s.tuners && y != x && IsFree(s.tuners[y])
    && forall i :: i in s.tuners && i != x && IsFree(s.tuners[i]) ==> i == y || Less(y, i)
  }

  ghost predicate FirstRecordingBut(s: Book, x: TunerId, y: TunerId) {
    && y in s.tuners && y != x && IsRecording(s.tuners[y])
    && forall i :: i in s.tuners && i != x && IsRecording(s.tuners[i]) ==> i == y || Less(y, i)
  }

  ghost predicate FirstRecording(s: Book, y: TunerId) {
    && y in s.tuners && IsRecording(s.tuners[y])
    && forall i :: i in s.tuners && IsRecording(s.tuners[i]) ==> i == y || Less(y, i)
  }

  // Which tuner the host gets when the reserved one is given away: while exactly one is Free, the first
  // recording one if that is another; otherwise the first other Free one, then the first other recording one.
  ghost predicate StandIn(s: Book, x: TunerId, y: TunerId) {
    if OneFree(s) && exists m :: FirstRecording(s, m) && m != x then FirstRecording(s, y)
    else if AnotherFree(s, x) then FirstFreeBut(s, x, y)
    else FirstRecordingBut(s, x, y)
  }

  lemma {:induction false} WithoutAscends(xs: seq<TunerId>, x: TunerId)
    requires Ascending(xs)
    ensures Ascending(Without(xs, x))
  {
    if xs != [] {
      TailAscends(xs);
      WithoutAscends(xs[1..], x);
      var rest := Without(xs[1..], x);
      assert forall i :: 0 <= i < |rest| ==> rest[i] in rest;
    }
  }

  lemma ListHeads(s: Book, x: TunerId)
    ensures var free, record := IdsInState(s, FreeState), IdsInState(s, RecordState);
      && (|free| == 1 <==> OneFree(s))
      && (record != [] ==> FirstRecording(s, record[0]))
      && (Without(free, x) != [] ==> FirstFreeBut(s, x, Without(free, x)[0]))
      && (Without(record, x) != [] ==> FirstRecordingBut(s, x, Without(record, x)[0]))
  {
    var free, record := IdsInState(s, FreeState), IdsInState(s, RecordState);
    forall i ensures i in free <==> i in s.tuners && IsFree(s.tuners[i]) { InStateMeans(s, i); }
    forall i ensures i in record <==> i in s.tuners && IsRecording(s.tuners[i]) { InStateMeans(s, i); }
    IdsAscend(s, FreeState);
    IdsAscend(s, RecordState);
    WithoutAscends(free, x);
    WithoutAscends(record, x);
    hide IsFree, IsRecording, IdsInState, AnotherFree;
    if record != [] { FirstIsLeast(record); }
    if Without(free, x) != [] { FirstIsLeast(Without(free, x)); }
    if Without(record, x) != [] { FirstIsLeast(Without(record, x)); }
    if |free| == 1 {
      assert free[0] in free;
      CountsMean(s, free[0]);
    }
    forall f | f in s.tuners && IsFree(s.tuners[f]) && !AnotherFree(s, f) ensures |free| == 1 { CountsMean(s, f); }
  }

  lemma GuardLocalIs(s: Book, device: Device, c: Candidates)
    requires c.target.Some?
    ensures var g := GuardLastFree(s, device, c);
      if g.target.Some? && device != s.deviceId && c.target.value == s.local && OneFree(s) then FirstRecording(s, g.local)
      else g.local == s.local
  {
    ListHeads(s, s.local);
    hide IdsInState, OneFree, FirstRecording, FirstFreeBut, FirstRecordingBut;
  }

  lemma SettleLocalIs(s: Book, device: Device, c: Choice, fallback: Option<TunerId>)
    requires s.deviceId != "" && c.target.Some? && c.local != ""
    ensures var x, r := c.target.value, SettleReserved(s, device, c, fallback);
      r.target.Some? ==>
        if c.target == fallback then r.local == c.local
        else if device == s.deviceId then r.local == x
        else if x != c.local then r.local == c.local
        else if AnotherFree(s, x) then FirstFreeBut(s, x, r.local)
        else FirstRecordingBut(s, x, r.local)
  {
    CountsMean(s, c.target.value);
    ListHeads(s, c.target.value);
    hide IdsInState, OneFree, AnotherFree, AnotherRecording, FirstRecording, FirstFreeBut, FirstRecordingBut;
  }

  lemma StandInGuarded(s: Book, x: TunerId, m: TunerId)
    requires OneFree(s) && FirstRecording(s, m) && m != x
    ensures StandIn(s, x, m)
  {
  }

  lemma StandInSettled(s: Book, x: TunerId, y: TunerId)
    requires if AnotherFree(s, x) then FirstFreeBut(s, x, y) else FirstRecordingBut(s, x, y)
    requires OneFree(s) ==> FirstRecording(s, x) || (x in s.tuners && IsFree(s.tuners[x]))
    ensures StandIn(s, x, y)
  {
    if OneFree(s) && exists m :: FirstRecording(s, m) && m != x {
      var m :| FirstRecording(s, m) && m != x;
      if FirstRecording(s, x) {
        LessOneWay(x, m);
      } else {
        var f :| f in s.tuners && IsFree(s.tuners[f]) && !AnotherFree(s, f);
        assert x == f;
        assert !IsRecording(s.tuners[x]);
        assert FirstRecording(s, y);
      }
    }
  }

  ghost predicate Reserves(s: Book, device: Device, locator: Locator, own: Option<Token>, x: TunerId, local: TunerId) {
    if device == s.deviceId then local == if PickedAt(s, device, locator, own, 5, x) then s.local else x
    else if x == s.local then StandIn(s, s.local, local)
    else local == s.local
  }

  lemma ReservesFrom(s: Book, device: Device, locator: Locator, own: Option<Token>, x: TunerId, local: TunerId)
    requires device == s.deviceId ==> local == if PickedAt(s, device, locator, own, 5, x) then s.local else x
    requires device != s.deviceId ==> if x == s.local then StandIn(s, s.local, local) else local == s.local
    ensures Reserves(s, device, locator, own, x, local)
  {
  }

  // Which tuner is reserved after a choice. A refusal moves nothing. The host's own tuner becomes the reserved
  // one, unless the host stays where it is as a last resort. A remote device moves it only by taking it.
  lemma ReservedNext(s: Book, device: Device, locator: Locator, own: Option<Token>)
    requires Ready(s) && IsOwn(s, device, own)
    ensures var c := ChooseLive(s, device, locator, own);
      if c.target.Some? then Reserves(s, device, locator, own, c.target.value, c.local) else c.local == s.local
  {
    hide *;
    OwnHeld(s, device, own);
    var c := ChooseLive(s, device, locator, own);
    LiveChoiceSound(s, device, locator, own);
    if c.target.Some? {
      LivePreferenceIff(s, device, locator, own, c.target.value);
      if device == s.deviceId {
        HostReserved(s, locator, own);
      } else {
        RemoteReserved(s, device, locator, own);
      }
      ReservesFrom(s, device, locator, own, c.target.value, c.local);
    }
  }

  lemma ReadyLocal(s: Book)
    requires Ready(s)
    ensures s.local in s.tuners && s.local != "" && s.deviceId != ""
  {
  }

  // The fallback is the device's own tuner, and it is chosen as such exactly at the fifth stage.
  lemma FallbackIs(s: Book, device: Device, locator: Locator, own: Option<Token>, x: TunerId)
    requires Ready(s) && IsOwn(s, device, own) && Picked(s, device, locator, own, x)
    ensures LiveStages(s, locator, own).fallback == Some(x) <==> PickedAt(s, device, locator, own, 5, x)
  {
    hide *;
    OwnHeld(s, device, own);
    StagesAre(s, locator, own);
    OwnCandidates(s, device, locator, own);
    SharingFound(s, locator, own);
    OwnTests(s, locator, own);
    var sharing := FirstMeeting(s, IdsInState(s, RecordState), SharesRecording(locator));
    FindsMeans(s, locator, own, 1, sharing);
    if PickedAt(s, device, locator, own, 5, x) {
      FifthMeans(s, device, locator, own, x);
      OnlyOwn(s, locator, own, 5, x);
    } else if LiveStages(s, locator, own).fallback == Some(x) {
      NotFifth(s, device, locator, own, x);
    }
  }

  lemma FifthMeans(s: Book, device: Device, locator: Locator, own: Option<Token>, x: TunerId)
    requires PickedAt(s, device, locator, own, 5, x)
    ensures Candidate(s, locator, own, 5, x) && forall j: nat, i :: j <= 2 ==> !Candidate(s, locator, own, j, i)
  {
    hide Candidate;
  }

  // A tuner the device watches on can be picked only for that.
  lemma NotFifth(s: Book, device: Device, locator: Locator, own: Option<Token>, x: TunerId)
    requires Picked(s, device, locator, own, x) && !PickedAt(s, device, locator, own, 5, x)
    requires x in s.tuners && !IsFree(s.tuners[x]) && !IsRecording(s.tuners[x])
    ensures Candidate(s, locator, own, 0, x) || Candidate(s, locator, own, 2, x)
  {
    var k: nat :| PickedAt(s, device, locator, own, k, x);
    QuietKinds(s, locator, own, k, x);
    assert Candidate(s, locator, own, k, x);
    hide Candidate, IsFree, IsRecording;
    assert k == 0 || k == 2;
  }

  lemma HostReserved(s: Book, locator: Locator, own: Option<Token>)
    requires Ready(s) && IsOwn(s, s.deviceId, own) && ChooseLive(s, s.deviceId, locator, own).target.Some?
    requires Picked(s, s.deviceId, locator, own, ChooseLive(s, s.deviceId, locator, own).target.value)
    ensures var c := ChooseLive(s, s.deviceId, locator, own);
      c.local == if PickedAt(s, s.deviceId, locator, own, 5, c.target.value) then s.local else c.target.value
  {
    hide *;
    ReadyLocal(s);
    OwnHeld(s, s.deviceId, own);
    ChooseIs(s, s.deviceId, locator, own);
    var c, found := ChooseLive(s, s.deviceId, locator, own), LiveStages(s, locator, own);
    var g := GuardLastFree(s, s.deviceId, found);
    HostUnguarded(s, found);
    var target := LastResort(s, g.target, found.fallback);
    SettleTarget(s, s.deviceId, Choice(target, g.local), found.fallback);
    SettleLocalIs(s, s.deviceId, Choice(target, g.local), found.fallback);
    FallbackIs(s, s.deviceId, locator, own, c.target.value);
  }

  lemma HostUnguarded(s: Book, c: Candidates)
    ensures GuardLastFree(s, s.deviceId, c) == Choice(c.target, s.local)
  {
  }

  lemma RemoteReserved(s: Book, device: Device, locator: Locator, own: Option<Token>)
    requires Ready(s) && IsOwn(s, device, own) && device != s.deviceId && ChooseLive(s, device, locator, own).target.Some?
    requires Picked(s, device, locator, own, ChooseLive(s, device, locator, own).target.value)
    ensures var c := ChooseLive(s, device, locator, own);
      if c.target.value == s.local then StandIn(s, s.local, c.local) else c.local == s.local
  {
    hide *;
    ReadyLocal(s);
    OwnHeld(s, device, own);
    ChooseIs(s, device, locator, own);
    OwnCandidates(s, device, locator, own);
    var c, found := ChooseLive(s, device, locator, own), LiveStages(s, locator, own);
    var g := GuardLastFree(s, device, found);
    var target := LastResort(s, g.target, found.fallback);
    LastResortIs(s, g.target, found.fallback);
    SettleTarget(s, device, Choice(target, g.local), found.fallback);
    OwnTests(s, locator, own);
    StagesAre(s, locator, own);
    GuardShape(s, device, found);
    if found.target.Some? { GuardLocalIs(s, device, found); } else { GuardOfNone(s, device, found.fallback); }
    NamedTuner(s, g.local);
    SettleLocalIs(s, device, Choice(target, g.local), found.fallback);
    if c.target.value == s.local {
      if g.local != s.local {
        StandInGuarded(s, s.local, g.local);
      } else {
        if g.target.None? { FutureIsFree(s); }
        StandInSettled(s, s.local, c.local);
      }
    }
  }

  lemma NamedTuner(s: Book, y: TunerId)
    requires Ready(s)
    ensures FirstRecording(s, y) ==> y != ""
  {
  }

  lemma FutureIsFree(s: Book)
    ensures var future := FirstMeeting(s, IdsInState(s, FreeState), AnyFuture);
      future.Some? ==> future.value in s.tuners && IsFree(s.tuners[future.value])
  {
    var future := FirstMeeting(s, IdsInState(s, FreeState), AnyFuture);
    if future.Some? { InStateMeans(s, future.value); }
    hide FirstMeeting, IsFree;
  }
}
