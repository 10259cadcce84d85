// Serving a Record request step by step on the manager.
module RecordExecutor {
  import opened Domain
  import opened Ordering
  import opened Tuners
  import opened Registry
  import opened LivePlacement
  import opened RecordPlacement
  import opened RecordRequests
  import opened Protocol
  import opened Management

  // ---------------------------------------------------------------- the search

  method DoneTuners(m: Manager, state: TunerState, end: nat) returns (ids: seq<TunerId>)
    requires m.Valid()
    ensures ids == DoneBy(m.View(), state, end)
    ensures forall id :: id in ids ==> id in m.tuners
  {
    hide KeepTuners, IdsInState, Manager.Valid, Manager.View;
    ids := m.TunersInState(state);
    ids := m.FilterTuners(ByTunerEndBefore(end), ids);
  }

  method SearchTuner(m: Manager, r: Reservation) returns (found: RecordSearch)
    requires m.Valid()
    ensures found == SearchRecord(m.View(), r)
  {
    SearchIs(m.View(), r);
    hide *;
    var ids := m.GetTunerIds();
    m.KnowsIds(ids);
    var pending := m.LastTuner(ids, BackToBack(r.locator, r.start));
    if pending.Some? {
      return Place(pending.value);
    }
    found := SearchLater(m, r);
  }

  lemma SearchIs(s: Book, r: Reservation)
    ensures var pending := LastMeeting(s, TunerIds(s), BackToBack(r.locator, r.start));
      SearchRecord(s, r) == if pending.Some? then Place(pending.value) else LaterStages(s, r)
  {
    hide LastMeeting, LaterStages;
  }

  method FindDoneOn(m: Manager, state: TunerState, r: Reservation) returns (ids: seq<TunerId>)
    requires m.Valid()
    ensures ids == DoneOn(m.View(), state, r)
  {
    hide KeepTuners, DoneBy, Manager.Valid, Manager.View;
    ids := DoneTuners(m, state, r.start);
    ids := m.FilterTuners(ByTunerLocator(r.locator), ids);
  }

  method FindDone(m: Manager, state: TunerState, r: Reservation) returns (ids: seq<TunerId>)
    requires m.Valid()
    ensures ids == DoneBy(m.View(), state, r.start)
  {
    hide KeepTuners, DoneBy, Manager.Valid, Manager.View;
    ids := DoneTuners(m, state, r.start);
  }

  method FindLiveOn(m: Manager, r: Reservation) returns (live: Option<TunerId>)
    requires m.Valid()
    ensures live == LiveOn(m.View(), r)
  {
    hide KeepTuners, IdsInState, FirstMeeting, Manager.Valid, Manager.View;
    var ids := m.TunersInState(LiveState);
    ids := m.FilterTuners(ByTunerLocator(r.locator), ids);
    live := m.FirstTuner(ids, LoneLive(r.locator));
  }

  method FindFreeFor(m: Manager, r: Reservation) returns (free: Option<TunerId>)
    requires m.Valid()
    ensures free == FreeFor(m.View(), r)
  {
    m.ViewIs();
    hide IdsInState, FirstMeeting, Manager.Valid, Manager.View;
    free := m.FirstInState(FreeState, TakesRecording(r.locator, m.now));
  }

  // Hybrid tuners, then Live tuners, then the rest.
  method SearchLater(m: Manager, r: Reservation) returns (found: RecordSearch)
    requires m.Valid()
    ensures found == LaterStages(m.View(), r)
  {
    ghost var s := m.View();
    LaterIs(s, r);
    hide *;
    var ids := FindDoneOn(m, HybridState, r);
    assert m.View() == s && m.Valid();
    if |ids| != 0 {
      if |ids| > 1 {
        return Ambiguous;
      }
      return Place(ids[0]);
    }
    var live := FindLiveOn(m, r);
    assert m.View() == s && m.Valid();
    if live.Some? {
      return Place(live.value);
    }
    found := SearchRecordAndFree(m, r);
    assert m.View() == s;
  }

  lemma LaterIs(s: Book, r: Reservation)
    ensures var hybrid := DoneOn(s, HybridState, r);
      LaterStages(s, r) ==
        if |hybrid| > 1 then Ambiguous else if |hybrid| == 1 then Place(hybrid[0])
        else if LiveOn(s, r).Some? then Place(LiveOn(s, r).value) else RecordAndFreeStages(s, r)
  {
    hide KeepTuners, FirstMeeting, DoneBy, IdsInState, RecordAndFreeStages;
  }

  method SearchRecordAndFree(m: Manager, r: Reservation) returns (found: RecordSearch)
    requires m.Valid()
    ensures found == RecordAndFreeStages(m.View(), r)
  {
    ghost var s := m.View();
    RestIs(s, r);
    hide *;
    var ids := FindDoneOn(m, RecordState, r);
    assert m.View() == s && m.Valid();
    if |ids| != 0 {
      return Place(ids[0]);
    }
    ids := FindDone(m, RecordState, r);
    assert m.View() == s && m.Valid();
    if |ids| != 0 {
      return Place(ids[0]);
    }
    var free := FindFreeFor(m, r);
    assert m.View() == s;
    found := if free.Some? then Place(free.value) else Nowhere;
  }

  lemma RestIs(s: Book, r: Reservation)
    ensures var same, any := DoneOn(s, RecordState, r), DoneBy(s, RecordState, r.start);
      RecordAndFreeStages(s, r) ==
        if |same| != 0 then Place(same[0]) else if |any| != 0 then Place(any[0])
        else if FreeFor(s, r).Some? then Place(FreeFor(s, r).value) else Nowhere
  {
    hide KeepTuners, FirstMeeting, DoneBy, IdsInState;
  }

  // ---------------------------------------------------------------- the grant

  method FindOtherFree(m: Manager, id: TunerId) returns (ids: seq<TunerId>)
    requires m.Valid()
    ensures ids == OtherFree(m.View(), id)
  {
    hide IdsInState, Manager.Valid, Manager.View;
    ids := m.TunersInState(FreeState);
    ids := Without(ids, id);
  }

  method MoveLocal(m: Manager, target: TunerId)
    requires m.Valid() && target in m.tuners && target in m.View().tuners
    modifies m`localTuner
    ensures m.View() == old(m.View()).(local := LocalAfterRecord(old(m.View()), target))
  {
    ghost var s := m.View();
    LocalAfterIs(s, target);
    m.ViewIs();
    m.ViewAt(target);
    hide *;
    var state := m.tuners[target].GetState();
    assert m.View() == s && m.Valid();
    if state == FreeState && target == m.localTuner {
      var ids := FindOtherFree(m, target);
      assert m.View() == s && m.Valid();
      if |ids| != 0 {
        m.SetLocalTuner(ids[0]);
      }
    }
  }

  lemma LocalAfterIs(s: Book, id: TunerId)
    requires id in s.tuners
    ensures var others := OtherFree(s, id);
      LocalAfterRecord(s, id) ==
        if StateOf(s.tuners[id]) == FreeState && id == s.local && |others| != 0 then others[0] else s.local
  {
    hide KeepTuners, Without, StateOf, IdsInState;
  }

  method Grant(m: Manager, q: ReserveTuner, client: ClientId, minted: Token, target: TunerId) returns (reply: RecordReply)
    requires m.Valid() && target in m.tuners && target in m.View().tuners
    modifies m`localTuner, m`preStartTimers, m`startTimers, m`expireTimers, m`attrs, m`activations, m.tuners.Values
    ensures (m.View(), reply) == PlaceRecord(old(m.View()), q, client, minted, target)
  {
    PlaceIs(m.View(), q, client, minted, target);
    ghost var s := m.View();
    var r := q.reservation.(token := minted);
    assert m.Apart();
    hide *;
    MoveLocal(m, target);
    var outcome := m.AddReservation(r, target, client);
    reply := if outcome == Added then RecordGranted(r) else RecordRaised;
  }

  lemma PlaceIs(s: Book, q: ReserveTuner, client: ClientId, minted: Token, id: TunerId)
    requires id in s.tuners
    ensures var r := q.reservation.(token := minted);
      var s' := s.(local := LocalAfterRecord(s, id));
      && id in s'.tuners
      && PlaceRecord(s, q, client, minted, id) ==
           (Insert(s', r, id, client).0, if Insert(s', r, id, client).1 == Added then RecordGranted(r) else RecordRaised)
  {
    hide Insert, LocalAfterRecord;
  }

  // ---------------------------------------------------------------- renewals

  method RenewableTokens(m: Manager, r: Reservation) returns (tokens: seq<Token>)
    requires m.Valid()
    ensures tokens == Renewable(m.View(), r)
  {
    hide KeepTokens, TokensOn, Manager.Valid, Manager.View;
    var ids := m.GetTunerIds();
    m.KnowsIds(ids);
    tokens := m.GetReservationTokens(ids);
    tokens := m.FilterTokens(ByDevice(r.device), tokens);
    tokens := m.FilterTokens(ByReservationLocator(r.locator), tokens);
    tokens := m.FilterTokens(ByActivity(Record), tokens);
  }

  // Releases the old reservation, then inserts the new one: the second half can fail.
  method Renew(m: Manager, r: Reservation, client: ClientId) returns (reply: RecordReply)
    requires m.Valid()
    modifies m`preStartTimers, m`startTimers, m`expireTimers, m`attrs, m`activations, m.tuners.Values
    ensures (m.View(), reply) == RenewFirst(old(m.View()), r, client, FirstRenewable(old(m.View()), r))
  {
    hide *;
    var tokens := RenewableTokens(m, r);
    FirstRenewableIs(m.View(), r);
    if |tokens| == 0 {
      RenewFirstNone(m.View(), r, client);
      return RecordUnknown;
    }
    RenewFirstIs(m.View(), r, client, tokens[0]);
    if tokens[0] != r.token {
      return RecordRaised;
    }
    var parent := m.GetParent(tokens[0]);
    var found := m.ReleaseReservation(tokens[0]);
    m.IsApart();
    var outcome := m.AddReservation(r, parent.value, client);
    reply := match outcome case Added => RecordRenewed(r) case Refused => RecordLost case Torn => RecordRaised;
  }

  lemma FirstRenewableIs(s: Book, r: Reservation)
    ensures FirstRenewable(s, r) == if |Renewable(s, r)| == 0 then None else Some(Renewable(s, r)[0])
  {
  }

  lemma RenewFirstNone(s: Book, r: Reservation, client: ClientId)
    ensures RenewFirst(s, r, client, None) == (s, RecordUnknown)
  {
  }

  lemma RenewFirstIs(s: Book, r: Reservation, client: ClientId, t: Token)
    requires IsHeld(s, t)
    ensures t != r.token ==> RenewFirst(s, r, client, Some(t)) == (s, RecordRaised)
    ensures t == r.token ==>
      var home := HomeOf(s, t);
      && home in Drop(s, t).tuners
      && var added := Insert(Drop(s, t), r, home, client);
         RenewFirst(s, r, client, Some(t)) ==
           (added.0, match added.1 case Added => RecordRenewed(r) case Refused => RecordLost case Torn => RecordRaised)
  {
    hide Insert, IsHeld;
  }

  // ---------------------------------------------------------------- the conflicting Live

  lemma UnconflictedStep(temps: set<Token>, tokens: seq<Token>, i: nat)
    requires i < |tokens|
    ensures Unconflicted(temps, tokens[i..]) ==
      (if tokens[i] !in temps then [tokens[i]] else []) + Unconflicted(temps, tokens[i + 1..])
  {
    assert tokens[i..][1..] == tokens[i + 1..];
  }

  lemma UnconflictedNone(temps: set<Token>)
    ensures Unconflicted(temps, []) == []
  {
  }

  // Erases the tokens that stand for a pending conflict.
  method FilterInConflict(m: Manager, tokens: seq<Token>) returns (list: seq<Token>)
    ensures list == Unconflicted(Temps(m.pendingRequests), tokens)
  {
    hide Unconflicted, Temps;
    list := tokens;
    var it := 0;
    ghost var temps := Temps(m.pendingRequests);
    assert list[0..] == list;
    while it < |list|
      invariant 0 <= it <= |list|
      invariant Unconflicted(temps, tokens) == list[..it] + Unconflicted(temps, list[it..])
      decreases |list| - it
    {
      var pending := m.IsPendingConflict(list[it]);
      UnconflictedStep(temps, list, it);
      if pending {
        list := Erase(list, it);
      } else {
        assert list[..it + 1] == list[..it] + [list[it]];
        it := it + 1;
      }
    }
    assert list[it..] == [] && list[..it] == list;
    UnconflictedNone(temps);
  }

  // A Live whose tuner holds no Record.
  ghost predicate Unrecorded(s: Book, t: Token) {
    IsHeld(s, t) && !AnyRecord(s.tuners[HomeOf(s, t)])
  }

  method HasNoRecord(m: Manager, t: Token) returns (clear: bool)
    requires m.Valid()
    ensures clear <==> Unrecorded(m.View(), t)
  {
    hide Manager.View, Manager.Valid, IsHeld, AnyRecord;
    var parent := m.GetParent(t);
    if parent.None? {
      return false;
    }
    m.ViewAt(parent.value);
    var found := RecordsOn(m.tuners[parent.value]);
    clear := !found;
  }

  method RecordsOn(tuner: Tuner) returns (found: bool)
    ensures found <==> AnyRecord(tuner.reservations)
  {
    var tokens := tuner.GetReservationTokens([]);
    var h := tuner.reservations;
    assert forall u :: u in h <==> u in tokens;
    hide Sorted;
    found := false;
    for i := 0 to |tokens|
      invariant found <==> exists k :: 0 <= k < i && h[tokens[k]].activity == Record
    {
      assert tokens[i] in tokens;
      if h[tokens[i]].activity == Record {
        found := true;
      }
    }
  }

  lemma SkipStep(s: Book, tokens: seq<Token>, i: nat)
    requires i < |tokens|
    ensures SkipRecorded(s, tokens[i..]) ==
      (if Unrecorded(s, tokens[i]) then [tokens[i]] else []) + SkipRecorded(s, tokens[i + 1..])
  {
    assert tokens[i..][1..] == tokens[i + 1..];
  }

  lemma SkipNone(s: Book)
    ensures SkipRecorded(s, []) == []
  {
  }

  // Skips the Lives whose tuner already has a Record.
  method SkipTokens(m: Manager, tokens: seq<Token>) returns (list: seq<Token>)
    requires m.Valid()
    ensures list == SkipRecorded(m.View(), tokens)
  {
    hide *;
    list := tokens;
    var it := 0;
    ghost var s := m.View();
    assert list[0..] == list;
    while it < |list|
      invariant 0 <= it <= |list|
      invariant m.View() == s && m.Valid()
      invariant SkipRecorded(s, tokens) == list[..it] + SkipRecorded(s, list[it..])
      decreases |list| - it
    {
      var clear := HasNoRecord(m, list[it]);
      SkipStep(s, list, it);
      if !clear {
        list := Erase(list, it);
      } else {
        assert list[..it + 1] == list[..it] + [list[it]];
        it := it + 1;
      }
    }
    assert list[it..] == [] && list[..it] == list;
    SkipNone(s);
  }

  method FindLives(m: Manager) returns (tokens: seq<Token>)
    requires m.Valid()
    ensures tokens == LivesOnLiveTuners(m.View(), Temps(m.pendingRequests))
  {
    hide KeepTokens, TokensOn, Unconflicted, IdsInState, Temps, Manager.Valid, Manager.View;
    var ids := m.TunersInState(LiveState);
    m.AllViewed(ids);
    tokens := m.GetReservationTokens(ids);
    tokens := m.FilterTokens(ByActivity(Live), tokens);
    tokens := FilterInConflict(m, tokens);
  }

  // Lives that could give way at once: those of one device, or all.
  ghost function MyYielding(s: Book, temps: set<Token>, device: Device): seq<Token> {
    SkipRecorded(s, KeepTokens(s, ByDevice(device), LivesOnLiveTuners(s, temps)))
  }

  ghost function AllYielding(s: Book, temps: set<Token>): seq<Token> {
    SkipRecorded(s, LivesOnLiveTuners(s, temps))
  }

  method FindMyYielding(m: Manager, device: Device) returns (tokens: seq<Token>)
    requires m.Valid()
    ensures tokens == MyYielding(m.View(), Temps(m.pendingRequests), device)
  {
    hide SkipRecorded, KeepTokens, LivesOnLiveTuners, Temps, Manager.View, Manager.Valid;
    tokens := FindLives(m);
    tokens := m.FilterTokens(ByDevice(device), tokens);
    tokens := SkipTokens(m, tokens);
  }

  method FindAllYielding(m: Manager) returns (tokens: seq<Token>)
    requires m.Valid()
    ensures tokens == AllYielding(m.View(), Temps(m.pendingRequests))
  {
    hide SkipRecorded, LivesOnLiveTuners, Temps, Manager.View, Manager.Valid;
    tokens := FindLives(m);
    tokens := SkipTokens(m, tokens);
  }

  method FindYielding(m: Manager, device: Device) returns (tokens: seq<Token>)
    requires m.Valid()
    ensures tokens == YieldingLives(m.View(), Temps(m.pendingRequests), device)
  {
    ghost var s, temps := m.View(), Temps(m.pendingRequests);
    hide *;
    tokens := [];
    if device != "" {
      tokens := FindMyYielding(m, device);
      assert m.View() == s && m.Valid() && Temps(m.pendingRequests) == temps;
    }
    if |tokens| == 0 {
      tokens := FindAllYielding(m);
      assert m.View() == s && Temps(m.pendingRequests) == temps;
    }
    YieldingAre(s, temps, device);
  }

  lemma YieldingAre(s: Book, temps: set<Token>, device: Device)
    ensures YieldingLives(s, temps, device) ==
      if device != "" && |MyYielding(s, temps, device)| != 0 then MyYielding(s, temps, device) else AllYielding(s, temps)
  {
    hide SkipRecorded, KeepTokens, LivesOnLiveTuners;
  }

  method FindEnding(m: Manager, start: nat) returns (tokens: seq<Token>)
    requires m.Valid()
    ensures tokens == EndingOnHybrids(m.View(), start)
  {
    hide KeepTokens, TokensOn, IdsInState, Manager.Valid, Manager.View;
    var ids := m.TunersInState(HybridState);
    m.AllViewed(ids);
    tokens := m.GetReservationTokens(ids);
    tokens := m.FilterTokens(ByActivity(Record), tokens);
    tokens := m.FilterTokens(ByReservationEndBefore(start), tokens);
  }

  // The Lives on one tuner.
  ghost function LivesWith(s: Book, t: Token): seq<Token>
    requires IsHeld(s, t)
  {
    KeepTokens(s, ByActivity(Live), TokensOn(s, [HomeOf(s, t)]))
  }

  method FindLivesWith(m: Manager, t: Token) returns (tokens: seq<Token>)
    requires m.Valid() && IsHeld(m.View(), t)
    ensures tokens == LivesWith(m.View(), t)
  {
    hide KeepTokens, TokensOn, IsHeld, Manager.Valid, Manager.View;
    var parent := m.GetParent(t);
    m.AllViewed([parent.value]);
    tokens := m.GetReservationTokens([parent.value]);
    tokens := m.FilterTokens(ByActivity(Live), tokens);
  }

  method FindHybridConflict(m: Manager, start: nat) returns (live: Option<Token>)
    requires m.Valid()
    ensures live == HybridConflict(m.View(), start)
  {
    ghost var s := m.View();
    hide *;
    var ending := FindEnding(m, start);
    assert m.View() == s && m.Valid();
    live := LiveOfFirst(m, start, ending);
    assert m.View() == s;
  }

  method LiveOfFirst(m: Manager, ghost start: nat, ending: seq<Token>) returns (live: Option<Token>)
    requires m.Valid() && ending == EndingOnHybrids(m.View(), start)
    ensures live == HybridConflict(m.View(), start)
  {
    hide *;
    HybridIs(m.View(), start, ending);
    if |ending| == 0 {
      return None;
    }
    live := OnlyLiveWith(m, ending[0]);
  }

  method OnlyLiveWith(m: Manager, t: Token) returns (live: Option<Token>)
    requires m.Valid() && IsHeld(m.View(), t)
    ensures live == OnlyLive(m.View(), t)
  {
    hide LivesWith, IsHeld, Manager.Valid, Manager.View;
    var lives := FindLivesWith(m, t);
    live := if |lives| == 1 then Some(lives[0]) else None;
  }

  ghost function OnlyLive(s: Book, t: Token): Option<Token>
    requires IsHeld(s, t)
  {
    if |LivesWith(s, t)| == 1 then Some(LivesWith(s, t)[0]) else None
  }

  lemma HybridIs(s: Book, start: nat, ending: seq<Token>)
    requires ending == EndingOnHybrids(s, start)
    ensures |ending| == 0 ==> HybridConflict(s, start) == None
    ensures |ending| != 0 ==> IsHeld(s, ending[0]) && HybridConflict(s, start) == OnlyLive(s, ending[0])
  {
    if |ending| != 0 {
      KeptTokens(s, ByReservationEndBefore(start), KeepTokens(s, ByActivity(Record), TokensOn(s, IdsInState(s, HybridState))));
      assert ending[0] in ending;
    }
    hide KeepTokens, TokensOn, EndingOnHybrids, IsHeld;
  }

  method FindConflict(m: Manager, r: Reservation) returns (live: Option<Token>)
    requires m.Valid()
    ensures live == RecordConflict(m.View(), Temps(m.pendingRequests), r)
  {
    ghost var s, temps := m.View(), Temps(m.pendingRequests);
    hide *;
    var yielding := FindYielding(m, r.device);
    assert m.View() == s && m.Valid() && Temps(m.pendingRequests) == temps;
    ConflictIs(s, temps, r);
    if |yielding| != 0 {
      return Some(yielding[0]);
    }
    live := FindHybridConflict(m, r.start);
    assert m.View() == s && Temps(m.pendingRequests) == temps;
  }

  lemma ConflictIs(s: Book, temps: set<Token>, r: Reservation)
    ensures var yielding := YieldingLives(s, temps, r.device);
      RecordConflict(s, temps, r) == if |yielding| != 0 then Some(yielding[0]) else HybridConflict(s, r.start)
  {
    hide YieldingLives, HybridConflict;
  }

  // ---------------------------------------------------------------- the request

  method Reserve(m: Manager, q: ReserveTuner, client: ClientId, minted: Token) returns (reply: RecordReply)
    requires m.Valid()
    modifies m`localTuner, m`preStartTimers, m`startTimers, m`expireTimers, m`attrs, m`activations, m.tuners.Values
    ensures (m.View(), reply) == ReserveRecord(old(m.View()), Temps(old(m.pendingRequests)), q, client, minted)
  {
    hide *;
    if q.reservation.token != "" {
      RenewalIs(m.View(), Temps(m.pendingRequests), q, client, minted);
      reply := Renew(m, q.reservation, client);
    } else {
      reply := ReserveNew(m, q, client, minted);
    }
  }

  method ReserveNew(m: Manager, q: ReserveTuner, client: ClientId, minted: Token) returns (reply: RecordReply)
    requires m.Valid() && q.reservation.token == ""
    modifies m`localTuner, m`preStartTimers, m`startTimers, m`expireTimers, m`attrs, m`activations, m.tuners.Values
    ensures (m.View(), reply) == ReserveRecord(old(m.View()), Temps(old(m.pendingRequests)), q, client, minted)
  {
    ghost var s, temps := m.View(), Temps(m.pendingRequests);
    hide *;
    var found := SearchTuner(m, q.reservation);
    assert m.View() == s && m.Valid() && Temps(m.pendingRequests) == temps;
    RequestIs(s, temps, q, client, minted, found);
    match found {
      case Ambiguous =>
        reply := RecordRaised;
      case Place(id) =>
        m.ViewAt(id);
        reply := Grant(m, q, client, minted, id);
      case Nowhere =>
        reply := Contend(m, q.reservation);
        assert m.View() == s;
    }
  }

  method Contend(m: Manager, r: Reservation) returns (reply: RecordReply)
    requires m.Valid()
    ensures reply == Contended(m.View(), Temps(m.pendingRequests), r)
  {
    ghost var s, temps := m.View(), Temps(m.pendingRequests);
    hide *;
    var live := FindConflict(m, r);
    assert m.View() == s && m.Valid() && Temps(m.pendingRequests) == temps;
    ContendedIs(s, temps, r);
    if live.None? {
      return RecordRaised;
    }
    reply := NameConflict(m, live.value);
    assert m.View() == s && Temps(m.pendingRequests) == temps;
  }

  // The reply that names the Live and its tuner.
  ghost function Named(s: Book, t: Token): RecordReply {
    if IsHeld(s, t) then RecordInConflict(Lookup(s, t), HomeOf(s, t)) else RecordRaised
  }

  method NameConflict(m: Manager, t: Token) returns (reply: RecordReply)
    requires m.Valid()
    ensures reply == Named(m.View(), t)
  {
    hide IsHeld, Lookup, Manager.Valid, Manager.View;
    var held := m.GetReservation(t);
    if held.None? {
      return RecordRaised;
    }
    var parent := m.GetParent(t);
    reply := RecordInConflict(held.value, parent.value);
  }

  lemma ContendedIs(s: Book, temps: set<Token>, r: Reservation)
    ensures var live := RecordConflict(s, temps, r);
      Contended(s, temps, r) == if live.None? then RecordRaised else Named(s, live.value)
  {
    hide RecordConflict, IsHeld, Lookup;
  }

  lemma RequestIs(s: Book, temps: set<Token>, q: ReserveTuner, client: ClientId, minted: Token, found: RecordSearch)
    requires q.reservation.token == "" && found == SearchRecord(s, q.reservation)
    ensures found.Place? ==> found.id in s.tuners
    ensures ReserveRecord(s, temps, q, client, minted) ==
      match found
      case Ambiguous => (s, RecordRaised)
      case Place(id) => PlaceRecord(s, q, client, minted, id)
      case Nowhere => (s, Contended(s, temps, q.reservation))
  {
    SearchKnown(s, q.reservation);
    hide SearchRecord, RenewFirst, FirstRenewable, PlaceRecord, RecordConflict, IsHeld;
  }
}
