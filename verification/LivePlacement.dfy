// Where a Live reservation goes: the staged search, the reserved tuner and what it is worth.
module LivePlacement {
  import opened Domain
  import opened Ordering
  import opened Tuners
  import opened Registry

  // ---------------------------------------------------------------- facts about a state

  ghost predicate HoldsLive(s: Book, id: TunerId, t: Token) {
    Holds(s, id, t) && s.tuners[id][t].activity == Live
  }

  // Every Live already granted has been started.
  ghost predicate LivesStarted(s: Book) {
    forall id, t :: HoldsLive(s, id, t) ==> s.tuners[id][t].phase == ACTIVE
  }

  // Held reservations are Live or Record, IDLE or ACTIVE, on a named locator.
  predicate WellKept(r: Reservation) {
    (r.activity == Live || r.activity == Record) && r.phase != EXPIRED && r.locator != ""
  }

  ghost predicate AllWellKept(s: Book) {
    forall id, t :: Holds(s, id, t) ==> WellKept(s.tuners[id][t])
  }

  // Neither a device nor a tuner has two Live reservations.
  ghost predicate OneLive(s: Book) {
    forall id, t, id', t' :: HoldsLive(s, id, t) && HoldsLive(s, id', t') ==>
      (id == id' || s.tuners[id][t].device == s.tuners[id'][t'].device) ==> t == t'
  }

  // A tuner that may be the reserved one: its Lives are the host's own.
  ghost predicate Reservable(s: Book, id: TunerId) {
    id in s.tuners && forall t :: HoldsLive(s, id, t) ==> s.tuners[id][t].device == s.deviceId
  }

  ghost predicate InState(s: Book, id: TunerId, state: TunerState) {
    id in s.tuners && StateOf(s.tuners[id]) == state
  }

  // ---------------------------------------------------------------- the search

  ghost function IdsInState(s: Book, state: TunerState): (ids: seq<TunerId>)
    ensures forall id :: id in ids <==> InState(s, id, state)
  {
    KeepTuners(s, ByTunerState(state), TunerIds(s))
  }

  // The stages up to an untouched Free tuner, with the requester's own tuner as fallback.
  datatype Candidates = Candidates(target: Option<TunerId>, fallback: Option<TunerId>)

  ghost function LiveStages(s: Book, locator: Locator, own: Option<Token>): Candidates
    requires own.Some? ==> IsHeld(s, own.value)
  {
    if own.Some? then StagesFrom(s, locator, Some(HomeOf(s, own.value)), Lookup(s, own.value).locator == locator)
    else StagesFrom(s, locator, None, false)
  }

  // The stages, given where the requester's Live is and whether it is on the wanted locator.
  ghost function StagesFrom(s: Book, locator: Locator, home: Option<TunerId>, same: bool): Candidates
    requires home.Some? ==> home.value in s.tuners
  {
    if home.Some? && same then Candidates(home, None)
    else
      var sharing := FirstMeeting(s, IdsInState(s, RecordState), SharesRecording(locator));
      if sharing.Some? then Candidates(sharing, None)
      else if home.Some? && StateOf(s.tuners[home.value]) == LiveState then
        if Meets(s.tuners[home.value], AwaitsRecording(locator)) then Candidates(home, None)
        else Candidates(FreeStages(s, locator), home)
      else Candidates(FreeStages(s, locator), None)
  }

  ghost function FreeStages(s: Book, locator: Locator): Option<TunerId> {
    var awaiting := FirstMeeting(s, IdsInState(s, FreeState), AwaitsRecording(locator));
    if awaiting.Some? then awaiting else FirstMeeting(s, IdsInState(s, FreeState), Untouched)
  }

  datatype Choice = Choice(target: Option<TunerId>, local: TunerId)

  // A remote requester about to take the last Free tuner, which is the reserved one.
  ghost function GuardLastFree(s: Book, device: Device, c: Candidates): Choice {
    if c.target.Some? && device != s.deviceId && |IdsInState(s, FreeState)| == 1 && c.target.value == s.local then
      if c.fallback.None? && |IdsInState(s, RecordState)| >= 1 then Choice(c.target, IdsInState(s, RecordState)[0])
      else Choice(None, s.local)
    else Choice(c.target, s.local)
  }

  // Settling which tuner is the reserved one after the grant.
  ghost function SettleReserved(s: Book, device: Device, c: Choice, fallback: Option<TunerId>): Choice {
    if c.target.None? then c
    else if c.target == fallback then
      if device == s.deviceId && c.local == "" then Choice(c.target, c.target.value) else c
    else if s.deviceId == "" then Choice(c.target, "")
    else if device == s.deviceId then Choice(c.target, c.target.value)
    else if c.target.value != c.local then c
    else
      var free := Without(IdsInState(s, FreeState), c.target.value);
      var record := Without(IdsInState(s, RecordState), c.target.value);
      if free != [] then Choice(c.target, free[0])
      else if record != [] then Choice(c.target, record[0])
      else Choice(None, c.local)
  }

  // The last resorts: the requester's own tuner, then a Free tuner that awaits another recording.
  ghost function LastResort(s: Book, found: Option<TunerId>, fallback: Option<TunerId>): Option<TunerId> {
    if found.Some? then found
    else if fallback.Some? then fallback
    else FirstMeeting(s, IdsInState(s, FreeState), AnyFuture)
  }

  ghost function ChooseLive(s: Book, device: Device, locator: Locator, own: Option<Token>): Choice
    requires own.Some? ==> IsHeld(s, own.value)
  {
    var found := LiveStages(s, locator, own);
    var guarded := GuardLastFree(s, device, found);
    var target := LastResort(s, guarded.target, found.fallback);
    SettleReserved(s, device, Choice(target, guarded.local), found.fallback)
  }

  // ---------------------------------------------------------------- what the search promises

  // What the engine relies on when a reserve request arrives.
  ghost predicate Ready(s: Book) {
    && Coherent(s)
    && AllWellKept(s)
    && LivesStarted(s)
    && OneLive(s)
    && Reservable(s, s.local)
    && s.deviceId != ""
  }

  // The requester's Live, if it has one.
  ghost predicate IsOwn(s: Book, device: Device, own: Option<Token>) {
    match own
    case Some(t) => IsHeld(s, t) && Lookup(s, t).activity == Live && Lookup(s, t).device == device
    case None => forall id, t :: HoldsLive(s, id, t) ==> s.tuners[id][t].device != device
  }

  lemma NoLiveUnlessActive(s: Book, id: TunerId)
    requires LivesStarted(s)
    requires InState(s, id, FreeState) || InState(s, id, RecordState)
    ensures forall t :: !HoldsLive(s, id, t)
  {
    forall t | HoldsLive(s, id, t) ensures false {
      assert HasActive(s.tuners[id], Live);
    }
  }

  // A Free tuner holds nothing, or an IDLE Record.
  lemma FreeIsUntouchedOrFuture(s: Book, id: TunerId)
    requires AllWellKept(s) && LivesStarted(s) && InState(s, id, FreeState)
    ensures Meets(s.tuners[id], Untouched) || Meets(s.tuners[id], AnyFuture)
  {
    var h := s.tuners[id];
    if h != map[] {
      var t :| t in h;
      NoLiveUnlessActive(s, id);
      assert Holds(s, id, t) && !HoldsLive(s, id, t);
      assert h[t].phase != ACTIVE;
      assert Fits(h[t], Record, IDLE, "");
    }
  }

  lemma OwnHome(s: Book, device: Device, own: Option<Token>)
    requires Ready(s) && IsOwn(s, device, own) && own.Some?
    ensures var home := HomeOf(s, own.value);
      && (InState(s, home, LiveState) || InState(s, home, HybridState))
      && (forall t :: HoldsLive(s, home, t) ==> t == own.value)
      && (device != s.deviceId ==> home != s.local)
  {
    var home := HomeOf(s, own.value);
    assert HoldsLive(s, home, own.value);
    assert HasActive(s.tuners[home], Live);
  }

  // ---- soundness: the chosen tuner has no other Live, and the reserved tuner stays the host's

  ghost predicate Quiet(s: Book, id: TunerId) {
    InState(s, id, FreeState) || InState(s, id, RecordState)
  }

  ghost predicate AtHome(s: Book, own: Option<Token>, id: TunerId)
    requires own.Some? ==> IsHeld(s, own.value)
  {
    own.Some? && id == HomeOf(s, own.value)
  }

  lemma StagesShape(s: Book, locator: Locator, own: Option<Token>)
    requires own.Some? ==> IsHeld(s, own.value)
    ensures var c := LiveStages(s, locator, own);
      && (c.target.Some? ==> Quiet(s, c.target.value) || AtHome(s, own, c.target.value))
      && (c.fallback.Some? ==> AtHome(s, own, c.fallback.value))
  {
    hide FirstMeeting, Meets, StateOf, IdsInState, HomeOf, Lookup, IsHeld;
  }

  lemma GuardShape(s: Book, device: Device, c: Candidates)
    ensures var g := GuardLastFree(s, device, c);
      && (g.target == c.target || g.target == None)
      && (g.local == s.local || (Quiet(s, g.local) && g.target.Some? && c.fallback.None?))
  {
    if |IdsInState(s, RecordState)| >= 1 { assert IdsInState(s, RecordState)[0] in IdsInState(s, RecordState); }
  }

  lemma SettleShape(s: Book, device: Device, c: Choice, fallback: Option<TunerId>)
    requires s.deviceId != ""
    requires device != s.deviceId && c.target.Some? && c.target == fallback ==> c.local != c.target.value
    requires c.target.None? ==> c.local == s.local
    requires c.local == s.local || fallback.None?
    ensures var r := SettleReserved(s, device, c, fallback);
      && (r.target == c.target || r.target == None)
      && (r.local == c.local || Quiet(s, r.local) || (device == s.deviceId && r.target == Some(r.local)))
      && (r.target.Some? && device != s.deviceId ==> r.local != r.target.value)
      && (r.target.None? ==> r.local == c.local)
  {
    if c.target.Some? {
      var free := Without(IdsInState(s, FreeState), c.target.value);
      var record := Without(IdsInState(s, RecordState), c.target.value);
      if free != [] { assert free[0] in free; }
      if record != [] { assert record[0] in record; }
    }
  }

  // A refusal after the reserved tuner moved cannot happen: moving it left the target grantable.
  lemma SettleAfterMove(s: Book, device: Device, c: Candidates)
    requires s.deviceId != ""
    ensures var g := GuardLastFree(s, device, c);
      g.local != s.local ==> SettleReserved(s, device, g, c.fallback).target.Some?
  {
    var g := GuardLastFree(s, device, c);
    if g.local != s.local {
      assert s.local != IdsInState(s, RecordState)[0] == g.local;
    }
  }

  // Which tuners the search can choose and which it can reserve, whatever the state.
  lemma ChoiceShape(s: Book, device: Device, locator: Locator, own: Option<Token>)
    requires own.Some? ==> IsHeld(s, own.value)
    requires s.deviceId != ""
    requires device != s.deviceId ==> !AtHome(s, own, s.local)
    ensures var c := ChooseLive(s, device, locator, own);
      && (c.target.Some? ==> Quiet(s, c.target.value) || AtHome(s, own, c.target.value))
      && (c.local == s.local || Quiet(s, c.local) || (device == s.deviceId && c.target == Some(c.local)))
      && (c.target.Some? && device != s.deviceId ==> c.local != c.target.value)
      && (c.target.None? ==> c.local == s.local)
  {
    StagesShape(s, locator, own);
    var found := LiveStages(s, locator, own);
    GuardShape(s, device, found);
    SettleAfterMove(s, device, found);
    var guarded := GuardLastFree(s, device, found);
    var target := LastResort(s, guarded.target, found.fallback);
    SettleShape(s, device, Choice(target, guarded.local), found.fallback);
  }

  lemma SettleTarget(s: Book, device: Device, c: Choice, fallback: Option<TunerId>)
    ensures var r := SettleReserved(s, device, c, fallback); r.target == c.target || r.target == None
  {
  }

  lemma ChoiceKnown(s: Book, device: Device, locator: Locator, own: Option<Token>)
    requires own.Some? ==> IsHeld(s, own.value)
    ensures var c := ChooseLive(s, device, locator, own);
      c.target.Some? ==> c.target.value in s.tuners
  {
    StagesShape(s, locator, own);
    var found := LiveStages(s, locator, own);
    GuardShape(s, device, found);
    var guarded := GuardLastFree(s, device, found);
    var target := LastResort(s, guarded.target, found.fallback);
    SettleTarget(s, device, Choice(target, guarded.local), found.fallback);
  }

  // A tuner without a Live other than the requester's own.
  ghost predicate FitForLive(s: Book, own: Option<Token>, id: TunerId) {
    id in s.tuners && forall t :: HoldsLive(s, id, t) ==> own == Some(t)
  }

  lemma QuietFits(s: Book, own: Option<Token>, id: TunerId)
    requires LivesStarted(s) && Quiet(s, id)
    ensures FitForLive(s, own, id) && Reservable(s, id)
  {
    NoLiveUnlessActive(s, id);
  }

  // Whatever the search chooses has no other Live; the tuner it reserves carries no Live of
  // another device; and a remote requester never gets the reserved tuner.
  lemma LiveChoiceSound(s: Book, device: Device, locator: Locator, own: Option<Token>)
    requires Ready(s) && IsOwn(s, device, own)
    ensures var c := ChooseLive(s, device, locator, own);
      && (c.target.Some? ==> FitForLive(s, own, c.target.value))
      && (Reservable(s, c.local) || (device == s.deviceId && c.target == Some(c.local)))
      && (c.target.Some? && device != s.deviceId ==> c.local != c.target.value)
      && (c.target.None? ==> c.local == s.local)
  {
    if own.Some? { OwnHome(s, device, own); }
    ChoiceShape(s, device, locator, own);
    var c := ChooseLive(s, device, locator, own);
    if c.target.Some? && Quiet(s, c.target.value) { QuietFits(s, own, c.target.value); }
    if Quiet(s, c.local) { QuietFits(s, own, c.local); }
  }

  // ---- completeness: exactly when a Live is granted

  ghost predicate OnLocator(s: Book, locator: Locator, own: Option<Token>)
    requires own.Some? ==> IsHeld(s, own.value)
  {
    own.Some? && Lookup(s, own.value).locator == locator
  }

  ghost predicate OnLiveTuner(s: Book, own: Option<Token>)
    requires own.Some? ==> IsHeld(s, own.value)
  {
    own.Some? && InState(s, HomeOf(s, own.value), LiveState)
  }

  ghost predicate Sharing(s: Book, locator: Locator, id: TunerId) {
    InState(s, id, RecordState) && Meets(s.tuners[id], SharesRecording(locator))
  }

  ghost predicate AnySharing(s: Book, locator: Locator) {
    exists id :: Sharing(s, locator, id)
  }

  ghost predicate AnotherQuiet(s: Book, id: TunerId) {
    exists id' :: Quiet(s, id') && id' != id
  }

  // A Free tuner or one recording the locator, which a remote device may take
  // only if the host keeps, or can be given, another Free or Record tuner.
  ghost predicate Takeable(s: Book, device: Device, locator: Locator, id: TunerId) {
    (InState(s, id, FreeState) || Sharing(s, locator, id)) &&
    (device == s.deviceId || id != s.local || AnotherQuiet(s, id))
  }

  ghost predicate CanTake(s: Book, device: Device, locator: Locator) {
    exists id :: Takeable(s, device, locator, id)
  }

  ghost predicate LiveGrantable(s: Book, device: Device, locator: Locator, own: Option<Token>)
    requires own.Some? ==> IsHeld(s, own.value)
  {
    || OnLocator(s, locator, own)
    || CanTake(s, device, locator)
    || (OnLiveTuner(s, own) && !AnySharing(s, locator))
  }

  // The two facts about a ready state that the completeness argument uses.
  ghost predicate FreeTunersKnown(s: Book) {
    forall id :: InState(s, id, FreeState) ==>
      Meets(s.tuners[id], Untouched) || Meets(s.tuners[id], AnyFuture)
  }

  lemma SettleGrants(s: Book, device: Device, c: Choice, fallback: Option<TunerId>)
    requires s.deviceId != "" && c.target.Some?
    ensures SettleReserved(s, device, c, fallback).target.Some? <==>
      || c.target == fallback
      || device == s.deviceId
      || c.target.value != c.local
      || AnotherQuiet(s, c.target.value)
  {
    var x := c.target.value;
    var free, record := Without(IdsInState(s, FreeState), x), Without(IdsInState(s, RecordState), x);
    if free != [] {
      assert free[0] in free;
      assert Quiet(s, free[0]) && free[0] != x;
    }
    if record != [] {
      assert record[0] in record;
      assert Quiet(s, record[0]) && record[0] != x;
    }
    if AnotherQuiet(s, x) {
      var y :| Quiet(s, y) && y != x;
      assert y in free || y in record;
    }
  }

  lemma {:induction false} KeptDistinct(s: Book, test: TunerTest, ids: seq<TunerId>)
    requires Distinct(ids)
    ensures Distinct(KeepTuners(s, test, ids))
  {
    if ids != [] {
      KeptDistinct(s, test, ids[1..]);
      var rest := KeepTuners(s, test, ids[1..]);
      assert forall i :: 0 <= i < |rest| ==> rest[i] in rest;
    }
  }

  lemma SeveralFree(s: Book, id: TunerId)
    requires InState(s, id, FreeState) && |IdsInState(s, FreeState)| != 1
    ensures AnotherQuiet(s, id)
  {
    SortedAscends(s.tuners.Keys);
    KeptDistinct(s, ByTunerState(FreeState), TunerIds(s));
    var ids := IdsInState(s, FreeState);
    assert id in ids;
    assert ids[0] in ids && ids[1] in ids && ids[0] != ids[1];
    var other := if ids[0] == id then ids[1] else ids[0];
    assert Quiet(s, other) && other != id;
  }

  // The guard takes the target away exactly when the host would be left with no tuner to reserve.
  lemma GuardGrants(s: Book, device: Device, c: Candidates)
    requires s.deviceId != "" && c.target.Some? && c.fallback.None? && Quiet(s, c.target.value)
    ensures var g := GuardLastFree(s, device, c);
      (device == s.deviceId || c.target.value != s.local || AnotherQuiet(s, c.target.value)) <==>
      (g.target.Some? && SettleReserved(s, device, g, None).target.Some?)
  {
    hide StateOf, KeepTuners, SettleReserved;
    var g := GuardLastFree(s, device, c);
    var x := c.target.value;
    if g.target.Some? {
      SettleGrants(s, device, g, None);
    }
    if device != s.deviceId && x == s.local && |IdsInState(s, FreeState)| == 1 {
      var f := IdsInState(s, FreeState)[0];
      assert f in IdsInState(s, FreeState);
      if |IdsInState(s, RecordState)| >= 1 {
        assert IdsInState(s, RecordState)[0] in IdsInState(s, RecordState);
        if x == f {
          assert Quiet(s, IdsInState(s, RecordState)[0]) && IdsInState(s, RecordState)[0] != x;
        } else {
          assert Quiet(s, f);
        }
      } else {
        assert forall y :: Quiet(s, y) ==> y in IdsInState(s, FreeState);
        assert forall y :: y in IdsInState(s, FreeState) ==> y == f;
      }
    }
  }

  // The four ways through the search.

  lemma GrantedAtHome(s: Book, device: Device, locator: Locator, own: Option<Token>)
    requires own.Some? && IsHeld(s, own.value) && s.deviceId != ""
    requires device != s.deviceId ==> HomeOf(s, own.value) != s.local
    requires LiveStages(s, locator, own) == Candidates(Some(HomeOf(s, own.value)), None)
    ensures ChooseLive(s, device, locator, own).target == Some(HomeOf(s, own.value))
  {
  }

  lemma GrantedBySharing(s: Book, device: Device, locator: Locator, own: Option<Token>)
    requires own.Some? ==> IsHeld(s, own.value)
    requires s.deviceId != "" && !OnLocator(s, locator, own) && AnySharing(s, locator)
    ensures ChooseLive(s, device, locator, own).target.Some? <==> CanTake(s, device, locator)
  {
    var found := LiveStages(s, locator, own);
    assert found.target.Some? by {
      var id :| Sharing(s, locator, id);
      assert id in IdsInState(s, RecordState);
    }
    var x := found.target.value;
    assert Sharing(s, locator, x) && found.fallback == None;
    hide StateOf, KeepTuners, Meets, LiveStages, SettleReserved;
    GuardGrants(s, device, found);
    var g := GuardLastFree(s, device, found);
    assert g.target.Some?;
    if CanTake(s, device, locator) {
      var id :| Takeable(s, device, locator, id);
      assert id != x ==> Quiet(s, id);
      assert id == x || AnotherQuiet(s, x);
    }
    assert CanTake(s, device, locator) <==> Takeable(s, device, locator, x);
  }

  lemma GrantedByFree(s: Book, device: Device, locator: Locator, own: Option<Token>)
    requires own.Some? ==> IsHeld(s, own.value)
    requires s.deviceId != "" && FreeTunersKnown(s)
    requires !OnLocator(s, locator, own) && !AnySharing(s, locator) && !OnLiveTuner(s, own)
    ensures ChooseLive(s, device, locator, own).target.Some? <==> CanTake(s, device, locator)
  {
    StagesWithout(s, locator, own);
    FreeChoice(s, device, locator);
    hide FirstMeeting, Meets, StateOf, IdsInState, LiveStages, FreeStages, GuardLastFree, SettleReserved, LastResort, CanTake;
  }

  lemma StagesWithout(s: Book, locator: Locator, own: Option<Token>)
    requires own.Some? ==> IsHeld(s, own.value)
    requires !OnLocator(s, locator, own) && !AnySharing(s, locator) && !OnLiveTuner(s, own)
    ensures LiveStages(s, locator, own) == Candidates(FreeStages(s, locator), None)
  {
    NotSharingSkips(s, locator);
    hide FirstMeeting, Meets, StateOf, IdsInState, FreeStages, IsHeld, AnySharing;
  }

  lemma FreeChoice(s: Book, device: Device, locator: Locator)
    requires s.deviceId != "" && FreeTunersKnown(s) && !AnySharing(s, locator)
    ensures var found := Candidates(FreeStages(s, locator), None);
      var g := GuardLastFree(s, device, found);
      SettleReserved(s, device, Choice(LastResort(s, g.target, None), g.local), None).target.Some? <==> CanTake(s, device, locator)
  {
    hide FirstMeeting, Meets, StateOf, IdsInState, FreeStages, GuardLastFree, SettleReserved, AnySharing, AnotherQuiet;
    var found := Candidates(FreeStages(s, locator), None);
    var future := FirstMeeting(s, IdsInState(s, FreeState), AnyFuture);
    var g := GuardLastFree(s, device, found);
    FreeStagesFree(s, locator);
    GuardShape(s, device, found);
    SettleTarget(s, device, Choice(None, s.local), None);
    if found.target.Some? {
      TakeableFree(s, device, locator, found.target.value);
      GuardGrants(s, device, found);
    }
    if g.target.None? && future.Some? {
      TakeableFree(s, device, locator, future.value);
      SettleGrants(s, device, Choice(future, s.local), None);
    }
    if found.target.None? && future.None? {
      NothingToTake(s, device, locator);
    }
  }

  lemma NothingToTake(s: Book, device: Device, locator: Locator)
    requires !AnySharing(s, locator) && FreeTunersKnown(s) && FirstMeeting(s, IdsInState(s, FreeState), AnyFuture).None?
    requires forall id :: InState(s, id, FreeState) ==> !Meets(s.tuners[id], Untouched)
    ensures !CanTake(s, device, locator)
  {
    hide Meets, StateOf;
    assert forall id :: InState(s, id, FreeState) ==> id in IdsInState(s, FreeState);
  }

  lemma NotSharingSkips(s: Book, locator: Locator)
    requires !AnySharing(s, locator)
    ensures FirstMeeting(s, IdsInState(s, RecordState), SharesRecording(locator)).None?
  {
    var sharing := FirstMeeting(s, IdsInState(s, RecordState), SharesRecording(locator));
    assert sharing.Some? ==> Sharing(s, locator, sharing.value);
  }

  lemma FreeStagesFree(s: Book, locator: Locator)
    ensures var x := FreeStages(s, locator);
      && (x.Some? ==> InState(s, x.value, FreeState))
      && (x.None? ==> forall id :: InState(s, id, FreeState) ==> !Meets(s.tuners[id], Untouched))
  {
  }

  lemma TakeableFree(s: Book, device: Device, locator: Locator, x: TunerId)
    requires InState(s, x, FreeState) && !AnySharing(s, locator)
    ensures CanTake(s, device, locator) <==> (device == s.deviceId || x != s.local || AnotherQuiet(s, x))
  {
    if CanTake(s, device, locator) {
      var id :| Takeable(s, device, locator, id);
      assert id != x ==> Quiet(s, id);
    } else {
      assert !Takeable(s, device, locator, x);
    }
  }

  lemma GrantedByFallback(s: Book, device: Device, locator: Locator, own: Option<Token>)
    requires own.Some? && IsHeld(s, own.value) && s.deviceId != ""
    requires device != s.deviceId ==> HomeOf(s, own.value) != s.local
    requires !OnLocator(s, locator, own) && !AnySharing(s, locator) && OnLiveTuner(s, own)
    ensures ChooseLive(s, device, locator, own).target.Some?
  {
    NotSharingSkips(s, locator);
    FreeStagesFree(s, locator);
    var found := LiveStages(s, locator, own);
    if found.fallback.None? {
      GrantedAtHome(s, device, locator, own);
    } else {
      var g := GuardLastFree(s, device, found);
      if g.target.Some? {
        SettleGrants(s, device, g, found.fallback);
        if g.target.value == s.local && device != s.deviceId {
          SeveralFree(s, s.local);
        }
      }
    }
  }

  // Exactly when a well-formed Live request is granted.
  lemma LiveGrantedIff(s: Book, device: Device, locator: Locator, own: Option<Token>)
    requires Ready(s) && IsOwn(s, device, own)
    ensures ChooseLive(s, device, locator, own).target.Some? <==> LiveGrantable(s, device, locator, own)
  {
    if own.Some? { OwnHome(s, device, own); }
    if OnLocator(s, locator, own) {
      GrantedAtHome(s, device, locator, own);
    } else if AnySharing(s, locator) {
      GrantedBySharing(s, device, locator, own);
    } else if OnLiveTuner(s, own) {
      GrantedByFallback(s, device, locator, own);
    } else {
      assert FreeTunersKnown(s) by {
        forall id | InState(s, id, FreeState)
          ensures Meets(s.tuners[id], Untouched) || Meets(s.tuners[id], AnyFuture)
        {
          FreeIsUntouchedOrFuture(s, id);
        }
      }
      GrantedByFree(s, device, locator, own);
    }
  }

  // For the host: refused exactly when nothing is Free, nothing records the locator, and
  // its own Live is absent or on a Hybrid tuner with another locator.
  lemma HostRefusedIff(s: Book, locator: Locator, own: Option<Token>)
    requires Ready(s) && IsOwn(s, s.deviceId, own)
    ensures ChooseLive(s, s.deviceId, locator, own).target.None? <==>
      && (forall id :: !InState(s, id, FreeState))
      && (forall id :: !Sharing(s, locator, id))
      && (own.Some? ==> InState(s, HomeOf(s, own.value), HybridState) && !OnLocator(s, locator, own))
  {
    LiveGrantedIff(s, s.deviceId, locator, own);
    if own.Some? { OwnHome(s, s.deviceId, own); }
    HostCanTake(s, locator);
  }

  lemma HostCanTake(s: Book, locator: Locator)
    ensures CanTake(s, s.deviceId, locator) <==>
      !((forall id :: !InState(s, id, FreeState)) && (forall id :: !Sharing(s, locator, id)))
    ensures AnySharing(s, locator) ==> CanTake(s, s.deviceId, locator)
  {
    if id :| InState(s, id, FreeState) || Sharing(s, locator, id) {
      assert Takeable(s, s.deviceId, locator, id);
    }
  }

  // A remote device is always served by an untouched Free tuner other than the reserved one.
  lemma RemoteGrantedByFree(s: Book, device: Device, locator: Locator, own: Option<Token>, id: TunerId)
    requires Ready(s) && IsOwn(s, device, own)
    requires id != s.local && InState(s, id, FreeState)
    ensures ChooseLive(s, device, locator, own).target.Some?
  {
    LiveGrantedIff(s, device, locator, own);
    assert Takeable(s, device, locator, id);
  }

  // The one case in which a remote device already watching on a Live tuner of its own is refused a
  // channel change: the reserved tuner records the new channel and no other tuner could be reserved.
  lemma RemoteChannelChangeRefusedIff(s: Book, device: Device, locator: Locator, own: Option<Token>)
    requires Ready(s) && IsOwn(s, device, own) && device != s.deviceId
    requires OnLiveTuner(s, own) && !OnLocator(s, locator, own)
    ensures ChooseLive(s, device, locator, own).target.None? <==>
      Sharing(s, locator, s.local) && !AnotherQuiet(s, s.local)
  {
    LiveGrantedIff(s, device, locator, own);
    if Sharing(s, locator, s.local) {
      if CanTake(s, device, locator) {
        var id :| Takeable(s, device, locator, id);
        assert id != s.local ==> Quiet(s, id);
      } else {
        assert !Takeable(s, device, locator, s.local);
      }
    } else if AnySharing(s, locator) {
      var id :| Sharing(s, locator, id);
      assert Takeable(s, device, locator, id);
    }
  }
}
