// Serving a Live request step by step on the manager.
module LiveExecutor {
  import opened Domain
  import opened Tuners
  import opened Registry
  import opened LivePlacement
  import opened Invariants
  import opened LiveRequests
  import opened Times
  import opened Management

  // ---------------------------------------------------------------- the searches see only the tuners

  lemma {:induction false} KeepSameTuners(s: Book, s': Book, test: TunerTest, ids: seq<TunerId>)
    requires s.tuners == s'.tuners
    ensures KeepTuners(s, test, ids) == KeepTuners(s', test, ids)
  {
    if ids != [] { KeepSameTuners(s, s', test, ids[1..]); }
  }

  lemma {:induction false} MeetSameTuners(s: Book, s': Book, ids: seq<TunerId>, c: Criterion)
    requires s.tuners == s'.tuners
    ensures FirstMeeting(s, ids, c) == FirstMeeting(s', ids, c)
  {
    if ids != [] { MeetSameTuners(s, s', ids[1..], c); }
  }

  lemma StatesSameTuners(s: Book, s': Book)
    requires s.tuners == s'.tuners
    ensures IdsInState(s, FreeState) == IdsInState(s', FreeState)
    ensures IdsInState(s, RecordState) == IdsInState(s', RecordState)
  {
    KeepSameTuners(s, s', ByTunerState(FreeState), TunerIds(s));
    KeepSameTuners(s, s', ByTunerState(RecordState), TunerIds(s));
  }

  // ---------------------------------------------------------------- the requester's Live

  method OwnLiveTokens(m: Manager, device: Device) returns (tokens: seq<Token>)
    requires m.Valid()
    ensures tokens == OwnLives(m.View(), device)
  {
    hide KeepTokens, TokensOn, Coherent;
    var ids := m.GetTunerIds();
    tokens := m.GetReservationTokens(ids);
    tokens := m.FilterTokens(ByActivity(Live), tokens);
    tokens := m.FilterTokens(ByDevice(device), tokens);
  }

  // ---------------------------------------------------------------- the search

  lemma StagesOfOwn(s: Book, locator: Locator, t: Token)
    requires IsHeld(s, t)
    ensures LiveStages(s, locator, Some(t)) == StagesFrom(s, locator, Some(HomeOf(s, t)), Lookup(s, t).locator == locator)
  {
    hide FirstMeeting, KeepTuners, Meets, StateOf, FreeStages;
  }

  lemma StagesOfNone(s: Book, locator: Locator)
    ensures LiveStages(s, locator, None) == StagesFrom(s, locator, None, false)
  {
    hide FirstMeeting, KeepTuners, Meets, StateOf, FreeStages;
  }

  method SearchLive(m: Manager, locator: Locator, own: Option<Token>) returns (target: Option<TunerId>, fallback: Option<TunerId>)
    requires m.Valid() && (own.Some? ==> IsHeld(m.View(), own.value))
    ensures Candidates(target, fallback) == LiveStages(m.View(), locator, own)
  {
    hide *;
    if own.Some? {
      StagesOfOwn(m.View(), locator, own.value);
      var home := m.GetParent(own.value);
      m.ViewAt(home.value);
      var r := m.GetReservation(own.value);
      target, fallback := SearchFrom(m, locator, home, r.value.locator == locator);
    } else {
      StagesOfNone(m.View(), locator);
      target, fallback := SearchFrom(m, locator, None, false);
    }
  }

  // The stages in order, each tried while no tuner has been found.
  method SearchFrom(m: Manager, locator: Locator, home: Option<TunerId>, same: bool)
    returns (target: Option<TunerId>, fallback: Option<TunerId>)
    requires m.Valid() && (home.Some? ==> home.value in m.tuners && home.value in m.View().tuners)
    ensures Candidates(target, fallback) == StagesFrom(m.View(), locator, home, same)
  {
    hide KeepTuners, FirstMeeting, Meets, StateOf, IdsInState, FreeStages, Manager.Valid, Manager.View;
    target, fallback := None, None;
    if home.Some? {
      m.ViewAt(home.value);
      if same {
        target := home;
      }
    }
    if target.None? {
      target := m.FirstInState(RecordState, SharesRecording(locator));
    }
    if target.None? && home.Some? {
      var state := m.tuners[home.value].GetState();
      if state == LiveState {
        var awaits := m.TunerMeets(home.value, AwaitsRecording(locator));
        if awaits {
          target := home;
        } else {
          fallback := home;
        }
      }
    }
    if target.None? {
      target := SearchFree(m, locator);
    }
  }

  method SearchFree(m: Manager, locator: Locator) returns (target: Option<TunerId>)
    requires m.Valid()
    ensures target == FreeStages(m.View(), locator)
  {
    FreeStagesAre(m.View(), locator);
    hide *;
    target := m.FirstInState(FreeState, AwaitsRecording(locator));
    if target.None? {
      target := m.FirstInState(FreeState, Untouched);
    }
  }

  lemma FreeStagesAre(s: Book, locator: Locator)
    ensures var ids := IdsInState(s, FreeState);
      var awaiting := FirstMeeting(s, ids, AwaitsRecording(locator));
      FreeStages(s, locator) == if awaiting.Some? then awaiting else FirstMeeting(s, ids, Untouched)
  {
    hide FirstMeeting, KeepTuners;
  }

  // A remote requester about to take the last Free tuner while it is the reserved one.
  method GuardReserved(m: Manager, device: Device, found: Option<TunerId>, fallback: Option<TunerId>) returns (target: Option<TunerId>)
    requires m.Valid()
    modifies m`localTuner
    ensures Choice(target, m.localTuner) == GuardLastFree(old(m.View()), device, Candidates(found, fallback))
    ensures m.View() == old(m.View()).(local := m.localTuner)
    ensures m.Valid()
  {
    target := found;
    ghost var s := m.View();
    GuardIs(s, device, found, fallback);
    m.ViewIs();
    hide *;
    if target.Some? && device != m.deviceId {
      var ids := m.TunersInState(FreeState);
      assert m.View() == s && m.Valid();
      if |ids| == 1 && target.value == m.localTuner {
        if fallback.None? {
          ids := m.TunersInState(RecordState);
          assert m.View() == s && m.Valid();
          if |ids| >= 1 {
            m.SetLocalTuner(ids[0]);
          } else {
            target := None;
          }
        } else {
          target := None;
        }
      }
    }
  }

  lemma GuardIs(s: Book, device: Device, found: Option<TunerId>, fallback: Option<TunerId>)
    ensures var record := IdsInState(s, RecordState);
      GuardLastFree(s, device, Candidates(found, fallback)) ==
        if found.Some? && device != s.deviceId && |IdsInState(s, FreeState)| == 1 && found.value == s.local then
          if fallback.None? && |record| >= 1 then Choice(found, record[0]) else Choice(None, s.local)
        else Choice(found, s.local)
  {
    hide KeepTuners;
  }

  // The reserved tuner after the grant, or no grant when the reserved tuner has nowhere to go.
  method SettleLocal(m: Manager, device: Device, found: Option<TunerId>, fallback: Option<TunerId>) returns (target: Option<TunerId>)
    requires m.Valid()
    modifies m`localTuner
    ensures Choice(target, m.localTuner) ==
      SettleReserved(old(m.View()), device, Choice(found, old(m.localTuner)), fallback)
    ensures m.View() == old(m.View()).(local := m.localTuner)
    ensures m.Valid()
  {
    target := found;
    SettleIs(m.View(), device, found, fallback);
    m.ViewIs();
    hide *;
    if target.Some? {
      if target == fallback {
        if device == m.deviceId && m.localTuner == "" {
          m.SetLocalTuner(target.value);
        }
      } else if m.deviceId != "" {
        if device == m.deviceId {
          m.SetLocalTuner(target.value);
        } else if target.value == m.localTuner {
          var foundReserved := MoveReserved(m, target.value);
          if !foundReserved {
            target := None;
          }
        }
      } else {
        m.SetLocalTuner("");
      }
    }
  }

  // Moves the reserved tuner off the one about to be granted: to a Free tuner, else to a Record one.
  method MoveReserved(m: Manager, target: TunerId) returns (foundReserved: bool)
    requires m.Valid()
    modifies m`localTuner
    ensures m.Valid() && m.View() == old(m.View()).(local := m.localTuner)
    ensures foundReserved <==> Spares(old(m.View()), target) != []
    ensures m.localTuner == if foundReserved then Spares(old(m.View()), target)[0] else old(m.localTuner)
  {
    ghost var s := m.View();
    m.ViewIs();
    hide *;
    foundReserved := false;
    var free := m.TunersInState(FreeState);
    free := Without(free, target);
    SparesAre(s, target, free);
    if |free| != 0 {
      m.SetLocalTuner(free[0]);
      foundReserved := true;
    }
    if !foundReserved {
      var record := m.TunersInState(RecordState);
      record := Without(record, target);
      if |record| != 0 {
        m.SetLocalTuner(record[0]);
        foundReserved := true;
      }
    }
  }

  // The other Free tuners, then the other Record tuners.
  ghost function Spares(s: Book, target: TunerId): seq<TunerId> {
    Without(IdsInState(s, FreeState), target) + Without(IdsInState(s, RecordState), target)
  }

  lemma SparesAre(s: Book, target: TunerId, free: seq<TunerId>)
    requires free == Without(IdsInState(s, FreeState), target)
    ensures var record := Without(IdsInState(s, RecordState), target);
      && (Spares(s, target) == [] <==> free == [] && record == [])
      && (free != [] ==> Spares(s, target)[0] == free[0])
      && (free == [] && record != [] ==> Spares(s, target)[0] == record[0])
  {
    hide Without, IdsInState;
  }

  lemma SettleIs(s: Book, device: Device, found: Option<TunerId>, fallback: Option<TunerId>)
    ensures SettleReserved(s, device, Choice(found, s.local), fallback) ==
      if found.None? then Choice(found, s.local)
      else if found == fallback then Choice(found, if device == s.deviceId && s.local == "" then found.value else s.local)
      else if s.deviceId == "" then Choice(found, "")
      else if device == s.deviceId then Choice(found, found.value)
      else if found.value != s.local then Choice(found, s.local)
      else if Spares(s, found.value) == [] then Choice(None, s.local)
      else Choice(found, Spares(s, found.value)[0])
  {
    hide KeepTuners, Without;
    if found.Some? {
      SparesAre(s, found.value, Without(IdsInState(s, FreeState), found.value));
    }
  }

  // ---------------------------------------------------------------- the grant

  // Releases the requester's old reservation, if any, and inserts the new one under its token.
  method Grant(m: Manager, q: ReserveTuner, client: ClientId, own: Option<Token>, minted: Token, target: TunerId) returns (reply: LiveReply)
    requires m.Valid() && target in m.tuners && target in m.View().tuners
    requires own.Some? ==> IsHeld(m.View(), own.value)
    modifies m`preStartTimers, m`startTimers, m`expireTimers, m`attrs, m`activations, m.tuners.Values
    ensures (m.View(), reply) == GrantLive(old(m.View()), q, client, own, minted, target, old(m.localTuner))
  {
    GrantIs(m.View(), q, client, own, minted, target, m.localTuner);
    m.ViewIs();
    hide *;
    ghost var s := m.View();
    var token := minted;
    if own.Some? {
      token := own.value;
      var found := m.ReleaseReservation(own.value);
    } else if q.resurrect && q.reservation.token != "" {
      token := q.reservation.token;
    }
    TokenIs(q, own, minted);
    VacatedIs(s, own, m.localTuner);
    reply := AddLive(m, q, client, token, target);
  }

  lemma TokenIs(q: ReserveTuner, own: Option<Token>, minted: Token)
    ensures LiveToken(q, own, minted) ==
      if own.Some? then own.value else if q.resurrect && q.reservation.token != "" then q.reservation.token else minted
  {
  }

  lemma VacatedIs(s: Book, own: Option<Token>, local: TunerId)
    requires local == s.local
    ensures Vacated(s, own, local) == if own.Some? then Drop(s, own.value) else s
  {
  }

  lemma GrantIs(s: Book, q: ReserveTuner, client: ClientId, own: Option<Token>, minted: Token, target: TunerId, local: TunerId)
    requires target in s.tuners
    ensures target in Vacated(s, own, local).tuners
    ensures GrantLive(s, q, client, own, minted, target, local) ==
      Granted(Vacated(s, own, local), q, client, LiveToken(q, own, minted), target)
  {
    hide Insert, LiveReservation, LiveToken;
  }

  method AddLive(m: Manager, q: ReserveTuner, client: ClientId, token: Token, target: TunerId) returns (reply: LiveReply)
    requires m.Apart() && target in m.tuners && target in m.View().tuners
    modifies m`preStartTimers, m`startTimers, m`expireTimers, m`attrs, m`activations, m.tuners[target]
    ensures (m.View(), reply) == Granted(old(m.View()), q, client, token, target)
  {
    ghost var s := m.View();
    hide *;
    var r := FillIn(m, q, token, target);
    assert m.View() == s;
    GrantedIs(s, q, client, token, target);
    var outcome := m.AddReservation(r, target, client);
    reply := if outcome == Added then LiveGranted(r) else LiveRaised;
  }

  // The token, the start and the locator of the new reservation.
  method FillIn(m: Manager, q: ReserveTuner, token: Token, target: TunerId) returns (r: Reservation)
    requires target in m.tuners && target in m.View().tuners
    ensures r == LiveReservation(m.View(), q, token, target)
  {
    r := q.reservation.(token := token);
    if r.start > m.now {
      r := r.(start := JustBefore(m.now));
    }
    var on := m.tuners[target].GetServiceLocator(false);
    if on != "" && r.locator != on {
      r := r.(locator := on);
    }
    m.ViewAt(target);
    m.ViewIs();
    hide ActiveLocator, Manager.View;
  }

  lemma GrantedIs(s: Book, q: ReserveTuner, client: ClientId, token: Token, target: TunerId)
    requires target in s.tuners
    ensures var r := LiveReservation(s, q, token, target);
      var added := Insert(s, r, target, client);
      Granted(s, q, client, token, target) == (added.0, if added.1 == Added then LiveGranted(r) else LiveRaised)
  {
    hide Insert, LiveReservation;
  }

  // ---------------------------------------------------------------- the choice

  lemma SettleSame(s: Book, local: TunerId, device: Device, found: Option<TunerId>, fallback: Option<TunerId>)
    ensures SettleReserved(s.(local := local), device, Choice(found, local), fallback) ==
      SettleReserved(s, device, Choice(found, local), fallback)
  {
    StatesSameTuners(s, s.(local := local));
    hide IdsInState, Without;
  }

  lemma ChooseIs(s: Book, device: Device, locator: Locator, own: Option<Token>)
    requires own.Some? ==> IsHeld(s, own.value)
    ensures var found := LiveStages(s, locator, own);
      var guarded := GuardLastFree(s, device, found);
      && ChooseLive(s, device, locator, own) ==
           SettleReserved(s, device, Choice(LastResort(s, guarded.target, found.fallback), guarded.local), found.fallback)
      && (guarded.target.None? ==> guarded.local == s.local)
      && Candidates(found.target, found.fallback) == found
  {
    hide FirstMeeting, KeepTuners, SettleReserved, LiveStages;
  }

  method ChooseTuner(m: Manager, device: Device, locator: Locator, own: Option<Token>) returns (target: Option<TunerId>)
    requires m.Valid() && (own.Some? ==> IsHeld(m.View(), own.value))
    modifies m`localTuner
    ensures Choice(target, m.localTuner) == ChooseLive(old(m.View()), device, locator, own)
    ensures m.View() == old(m.View()).(local := m.localTuner)
    ensures m.Valid()
  {
    ghost var s := m.View();
    hide *;
    ChooseIs(s, device, locator, own);
    var fallback;
    target, fallback := FindCandidate(m, device, locator, own);
    SettleSame(s, m.localTuner, device, target, fallback);
    target := SettleLocal(m, device, target, fallback);
    Relocated(s, m.localTuner);
  }

  // The search, its guard and the last resorts.
  method FindCandidate(m: Manager, device: Device, locator: Locator, own: Option<Token>)
    returns (target: Option<TunerId>, fallback: Option<TunerId>)
    requires m.Valid() && (own.Some? ==> IsHeld(m.View(), own.value))
    modifies m`localTuner
    ensures var found := LiveStages(old(m.View()), locator, own);
      var guarded := GuardLastFree(old(m.View()), device, found);
      && fallback == found.fallback && m.localTuner == guarded.local
      && target == LastResort(old(m.View()), guarded.target, fallback)
    ensures m.View() == old(m.View()).(local := m.localTuner)
    ensures m.Valid()
  {
    ghost var s := m.View();
    hide *;
    target, fallback := SearchLive(m, locator, own);
    target := GuardReserved(m, device, target, fallback);
    LastSame(s, m.localTuner, target, fallback);
    target := ResortTo(m, target, fallback);
  }

  lemma Relocated(s: Book, local: TunerId)
    ensures forall other: TunerId {:trigger s.(local := other)} :: s.(local := other).(local := local) == s.(local := local)
  {
  }

  method ResortTo(m: Manager, found: Option<TunerId>, fallback: Option<TunerId>) returns (target: Option<TunerId>)
    requires m.Valid()
    ensures target == LastResort(m.View(), found, fallback)
  {
    ghost var s := m.View();
    hide FirstMeeting, IdsInState, Manager.Valid, Manager.View;
    target := found;
    if target.None? {
      target := fallback;
    }
    if target.None? {
      target := m.FirstInState(FreeState, AnyFuture);
    }
  }

  lemma LastSame(s: Book, local: TunerId, found: Option<TunerId>, fallback: Option<TunerId>)
    ensures LastResort(s.(local := local), found, fallback) == LastResort(s, found, fallback)
  {
    var s' := s.(local := local);
    StatesSameTuners(s, s');
    MeetSameTuners(s, s', IdsInState(s, FreeState), AnyFuture);
    hide FirstMeeting, IdsInState;
  }

  // ---------------------------------------------------------------- refusals

  method ActiveRecords(m: Manager, ids: seq<TunerId>) returns (tokens: seq<Token>)
    requires m.Valid()
    requires forall id :: id in ids ==> id in m.tuners && id in m.View().tuners
    ensures tokens == ActiveRecordsOn(m.View(), ids)
  {
    hide KeepTokens, TokensOn, Manager.Valid, Manager.View;
    tokens := m.GetReservationTokens(ids);
    tokens := m.FilterTokens(ByActivity(Record), tokens);
    tokens := m.FilterTokens(ByReservationState(ACTIVE), tokens);
  }

  method AppendReservations(m: Manager, conflicts: seq<Reservation>, tokens: seq<Token>) returns (list: seq<Reservation>)
    requires m.Valid() && forall t :: t in tokens ==> IsHeld(m.View(), t)
    ensures list == conflicts + Resolve(m.View(), tokens)
  {
    hide IsHeld, Lookup, Manager.Valid, Manager.View;
    list := conflicts;
    for i := 0 to |tokens|
      invariant |list| == |conflicts| + i
      invariant list[..|conflicts|] == conflicts
      invariant forall k :: 0 <= k < i ==> IsHeld(m.View(), tokens[k]) && list[|conflicts| + k] == Lookup(m.View(), tokens[k])
    {
      assert tokens[i] in tokens;
      var r := m.GetReservation(tokens[i]);
      list := list + [r.value];
    }
  }

  method ActiveRecordsInState(m: Manager, state: TunerState) returns (tokens: seq<Token>)
    requires m.Valid()
    ensures tokens == ActiveRecordsOn(m.View(), IdsInState(m.View(), state))
  {
    hide *;
    var ids := m.TunersInState(state);
    m.AllViewed(ids);
    tokens := ActiveRecords(m, ids);
  }

  method ActiveRecordsWith(m: Manager, own: Token) returns (tokens: seq<Token>)
    requires m.Valid() && IsHeld(m.View(), own)
    ensures tokens == ActiveRecordsOn(m.View(), [HomeOf(m.View(), own)])
  {
    hide *;
    var parent := m.GetParent(own);
    m.AllViewed([parent.value]);
    tokens := ActiveRecords(m, [parent.value]);
  }

  // The ACTIVE Records that stand in the way of a Live.
  method FindConflicts(m: Manager, own: Option<Token>) returns (conflicts: seq<Reservation>)
    requires m.Valid() && (own.Some? ==> IsHeld(m.View(), own.value))
    ensures conflicts == LiveConflicts(m.View(), own)
  {
    hide *;
    var tokens := ConflictTokens(m, own);
    ConflictsAre(m.View(), own);
    conflicts := AppendReservations(m, [], tokens);
  }

  method ConflictTokens(m: Manager, own: Option<Token>) returns (tokens: seq<Token>)
    requires m.Valid() && (own.Some? ==> IsHeld(m.View(), own.value))
    ensures tokens == LiveConflictTokens(m.View(), own)
  {
    hide *;
    var recording := ActiveRecordsInState(m, RecordState);
    var free := ActiveRecordsInState(m, FreeState);
    var self := [];
    if own.Some? {
      self := ActiveRecordsWith(m, own.value);
    }
    ConflictTokensAre(m.View(), own, recording, free, self);
    tokens := recording + free + self;
  }

  lemma ConflictTokensAre(s: Book, own: Option<Token>, recording: seq<Token>, free: seq<Token>, self: seq<Token>)
    requires own.Some? ==> IsHeld(s, own.value)
    requires recording == ActiveRecordsOn(s, IdsInState(s, RecordState)) && free == ActiveRecordsOn(s, IdsInState(s, FreeState))
    requires self == if own.Some? then ActiveRecordsOn(s, [HomeOf(s, own.value)]) else []
    ensures LiveConflictTokens(s, own) == recording + free + self
  {
    hide KeepTuners, ActiveRecordsOn;
  }

  lemma ConflictsAre(s: Book, own: Option<Token>)
    requires own.Some? ==> IsHeld(s, own.value)
    ensures forall t :: t in LiveConflictTokens(s, own) ==> IsHeld(s, t)
    ensures LiveConflicts(s, own) == [] + Resolve(s, LiveConflictTokens(s, own))
  {
    ConflictTokensHeld(s, own);
    hide LiveConflictTokens, Resolve, IsHeld;
  }

  // ---------------------------------------------------------------- the request

  method Reserve(m: Manager, q: ReserveTuner, client: ClientId, minted: Token) returns (reply: LiveReply)
    requires m.Valid()
    modifies m`localTuner, m`preStartTimers, m`startTimers, m`expireTimers, m`attrs, m`activations, m.tuners.Values
    ensures (m.View(), reply) == ReserveLive(old(m.View()), q, client, minted)
  {
    hide *;
    var tokens := OwnLiveTokens(m, q.device);
    RequestIs(m.View(), q, client, minted, tokens);
    if |tokens| > 1 {
      return LiveRaised;
    }
    var own := if |tokens| == 1 then Some(tokens[0]) else None;
    if own.Some? {
      var r := m.GetReservation(own.value);
      if r.value.phase == IDLE {
        return LiveInvalidState;
      }
    }
    var asked := q.reservation.token;
    var resurrects := own.None? && q.resurrect && asked != "";
    if asked != "" && !resurrects && own != Some(asked) {
      return LiveInvalidToken;
    }
    reply := Place(m, q, client, own, minted);
  }

  lemma RequestIs(s: Book, q: ReserveTuner, client: ClientId, minted: Token, tokens: seq<Token>)
    requires tokens == OwnLives(s, q.device)
    ensures var own := if |tokens| == 1 then Some(tokens[0]) else None;
      && (own.Some? ==> IsHeld(s, own.value))
      && ReserveLive(s, q, client, minted) ==
           if |tokens| > 1 then (s, LiveRaised)
           else if own.Some? && Lookup(s, own.value).phase == IDLE then (s, LiveInvalidState)
           else if q.reservation.token != "" && !(own.None? && q.resurrect) && own != Some(q.reservation.token) then (s, LiveInvalidToken)
           else Placed(s, q, client, own, minted)
  {
    var own := if |tokens| == 1 then Some(tokens[0]) else None;
    if |tokens| <= 1 {
      assert OwnLive(s, q.device) == own;
    }
    hide OwnLives, ChooseLive, GrantLive, LiveConflicts, IsHeld;
  }

  method Place(m: Manager, q: ReserveTuner, client: ClientId, own: Option<Token>, minted: Token) returns (reply: LiveReply)
    requires m.Valid() && (own.Some? ==> IsHeld(m.View(), own.value))
    modifies m`localTuner, m`preStartTimers, m`startTimers, m`expireTimers, m`attrs, m`activations, m.tuners.Values
    ensures (m.View(), reply) == Placed(old(m.View()), q, client, own, minted)
  {
    ghost var s := m.View();
    hide *;
    var target := ChooseTuner(m, q.device, q.reservation.locator, own);
    ChoiceFollowed(s, q, client, own, minted);
    m.KnowsAll();
    reply := Answer(m, q, client, own, minted, target);
  }

  // What follows the choice, in the state it leaves.
  ghost function Answered(s: Book, q: ReserveTuner, client: ClientId, own: Option<Token>, minted: Token, target: Option<TunerId>): (Book, LiveReply)
    requires own.Some? ==> IsHeld(s, own.value)
    requires target.Some? ==> target.value in s.tuners
  {
    if target.Some? then GrantLive(s, q, client, own, minted, target.value, s.local)
    else (s, LiveRefused(LiveConflicts(s, own)))
  }

  method Answer(m: Manager, q: ReserveTuner, client: ClientId, own: Option<Token>, minted: Token, target: Option<TunerId>) returns (reply: LiveReply)
    requires m.Valid() && (own.Some? ==> IsHeld(m.View(), own.value))
    requires target.Some? ==> target.value in m.tuners && target.value in m.View().tuners
    modifies m`preStartTimers, m`startTimers, m`expireTimers, m`attrs, m`activations, m.tuners.Values
    ensures (m.View(), reply) == Answered(old(m.View()), q, client, own, minted, target)
  {
    ghost var s := m.View();
    m.ViewIs();
    AnsweredIs(s, q, client, own, minted, target);
    hide *;
    if target.Some? {
      reply := Grant(m, q, client, own, minted, target.value);
    } else {
      var conflicts := FindConflicts(m, own);
      assert m.View() == s;
      reply := LiveRefused(conflicts);
    }
  }

  lemma ChoiceFollowed(s: Book, q: ReserveTuner, client: ClientId, own: Option<Token>, minted: Token)
    requires own.Some? ==> IsHeld(s, own.value)
    ensures var c := ChooseLive(s, q.device, q.reservation.locator, own);
      var s' := s.(local := c.local);
      && (own.Some? ==> IsHeld(s', own.value))
      && (c.target.Some? ==> c.target.value in s'.tuners)
      && Placed(s, q, client, own, minted) == Answered(s', q, client, own, minted, c.target)
  {
    PlacedIs(s, q, client, own, minted);
    var c := ChooseLive(s, q.device, q.reservation.locator, own);
    hide *;
    MovedHolds(s, c.local, own);
    if c.target.Some? {
      GrantSame(s, q, client, own, minted, c.target.value, c.local);
    } else {
      RefusalKeepsLocal(s, q.device, q.reservation.locator, own);
      LocalKept(s);
    }
    AnsweredIs(s.(local := c.local), q, client, own, minted, c.target);
  }

  lemma AnsweredIs(s: Book, q: ReserveTuner, client: ClientId, own: Option<Token>, minted: Token, target: Option<TunerId>)
    requires own.Some? ==> IsHeld(s, own.value)
    requires target.Some? ==> target.value in s.tuners
    ensures Answered(s, q, client, own, minted, target) ==
      if target.Some? then GrantLive(s, q, client, own, minted, target.value, s.local)
      else (s, LiveRefused(LiveConflicts(s, own)))
  {
  }

  lemma LocalKept(s: Book)
    ensures s.(local := s.local) == s
  {
  }

  lemma MovedHolds(s: Book, local: TunerId, own: Option<Token>)
    ensures own.Some? ==> (IsHeld(s, own.value) <==> IsHeld(s.(local := local), own.value))
    ensures s.(local := local).tuners == s.tuners
  {
    LocalSame(s, local);
  }

  lemma PlacedIs(s: Book, q: ReserveTuner, client: ClientId, own: Option<Token>, minted: Token)
    requires own.Some? ==> IsHeld(s, own.value)
    ensures var c := ChooseLive(s, q.device, q.reservation.locator, own);
      && (c.target.Some? ==> c.target.value in s.tuners)
      && Placed(s, q, client, own, minted) ==
           if c.target.Some? then GrantLive(s, q, client, own, minted, c.target.value, c.local)
           else (s.(local := c.local), LiveRefused(LiveConflicts(s, own)))
  {
    ChoiceKnown(s, q.device, q.reservation.locator, own);
    hide ChooseLive, GrantLive, LiveConflicts, IsHeld;
  }

  lemma GrantSame(s: Book, q: ReserveTuner, client: ClientId, own: Option<Token>, minted: Token, id: TunerId, local: TunerId)
    requires id in s.tuners
    ensures GrantLive(s.(local := local), q, client, own, minted, id, local) == GrantLive(s, q, client, own, minted, id, local)
  {
    assert Vacated(s.(local := local), own, local) == Vacated(s, own, local);
    hide Insert, LiveReservation, LiveToken;
  }

  // A refused request leaves the reserved tuner where it was.
  lemma RefusalKeepsLocal(s: Book, device: Device, locator: Locator, own: Option<Token>)
    requires own.Some? ==> IsHeld(s, own.value)
    ensures var c := ChooseLive(s, device, locator, own);
      c.target.None? ==> c.local == s.local
  {
    hide FirstMeeting, IdsInState, LiveStages, Without;
  }
}
