// Start and expiration of a reservation, and keeping a Hybrid tuner on one locator.
module Lifecycle {
  import opened Domain
  import opened Tuners
  import opened Registry
  import opened LivePlacement
  import opened Invariants
  import Timers

  // ---------------------------------------------------------------- synchronisation

  // The locator a Hybrid tuner must be on: that of its first ACTIVE Record.
  function RecordLocator(h: Holdings): Locator {
    var found := FindReservation(h, Record, ACTIVE);
    if found.Some? then h[found.value].locator else ""
  }

  function Retuned(r: Reservation, locator: Locator): Reservation {
    if Fits(r, Live, ACTIVE, "") then r.(locator := locator) else r
  }

  // ACTIVE Lives of a Hybrid tuner follow its Record. An empty Record locator raises an assertion.
  function Synced(h: Holdings): Holdings {
    if StateOf(h) == HybridState && RecordLocator(h) != ""
    then AllRetuned(h, RecordLocator(h))
    else h
  }

  function AllRetuned(h: Holdings, locator: Locator): Holdings {
    map t | t in h :: Retuned(h[t], locator)
  }

  predicate SyncRaises(h: Holdings) {
    StateOf(h) == HybridState && RecordLocator(h) == ""
  }

  // On a tuned tuner every ACTIVE reservation gives the same answer to "what are you on?",
  // in whatever order the reservations are visited.
  lemma LocatorIsOrderFree(h: Holdings, order: seq<Token>, t: Token)
    requires Tuned(h) && t in h && h[t].phase == ACTIVE
    requires forall u :: u in order <==> u in h
    ensures FirstActive(h, order).Some? && h[FirstActive(h, order).value].locator == h[t].locator
    ensures ActiveLocator(h) == h[t].locator
  {
    assert t in order;
  }

  lemma SyncedTuned(h: Holdings)
    requires forall t, u :: t in h && u in h && Fits(h[t], Record, ACTIVE, "") && Fits(h[u], Record, ACTIVE, "") ==> h[t].locator == h[u].locator
    requires forall t, u :: t in h && u in h && Fits(h[t], Live, ACTIVE, "") && Fits(h[u], Live, ACTIVE, "") ==> t == u
    requires forall t :: t in h ==> WellKept(h[t])
    ensures Tuned(Synced(h))
  {
    var h' := Synced(h);
    forall t, u | t in h' && u in h' && h'[t].phase == ACTIVE && h'[u].phase == ACTIVE ensures h'[t].locator == h'[u].locator {
      assert h[t].phase == ACTIVE && h[u].phase == ACTIVE;
      assert WellKept(h[t]) && WellKept(h[u]);
      if StateOf(h) == HybridState {
        var first := FindReservation(h, Record, ACTIVE).value;
        assert WellKept(h[first]);
      } else {
        assert h[t].activity == h[u].activity by {
          assert HasActive(h, h[t].activity) && HasActive(h, h[u].activity);
        }
      }
    }
  }

  // ---------------------------------------------------------------- start

  // The tuner right after the reservation became ACTIVE.
  function Activated(h: Holdings, t: Token): Holdings
    requires t in h
  {
    h[t := h[t].(phase := ACTIVE)]
  }

  ghost function Start(s: Book, t: Token): Book {
    if !IsHeld(s, t) || Lookup(s, t).phase != IDLE then s
    else
      var id := HomeOf(s, t);
      var h := Activated(s.tuners[id], t);
      var s' := Recast(s, id, Synced(h)).(activations := s.activations[t := Started(s, t) + 1]);
      if SyncRaises(h) || t !in s.expireTimers then s'
      else s'.(expireTimers := s.expireTimers[t := Timers.SetIn(t, Remaining(s.now, Lookup(s, t)), s.now)])
  }

  ghost function Started(s: Book, t: Token): nat {
    if t in s.activations then s.activations[t] else 0
  }

  // The ACTIVE Records of the tuner are on the locator of the one about to start.
  ghost predicate SameChannel(h: Holdings, t: Token)
    requires t in h
  {
    h[t].activity == Record ==>
      forall u :: u in h && Fits(h[u], Record, ACTIVE, "") ==> h[u].locator == h[t].locator
  }

  lemma ActivatedFits(h: Holdings, t: Token, u: Token, a: Activity)
    requires t in h && u in h
    ensures Fits(Activated(h, t)[u], a, ACTIVE, "") <==> Fits(h[u], a, ACTIVE, "") || (u == t && h[t].activity == a)
  {
  }

  // Starting a reservation leaves its tuner on one locator exactly when a starting Record finds the tuner's
  // ACTIVE Records on its own locator. A starting Live always adapts.
  lemma StartTunedIff(h: Holdings, t: Token)
    requires Tuned(h) && t in h && h[t].phase == IDLE
    requires forall u :: u in h ==> WellKept(h[u])
    requires forall u, v :: u in h && v in h && h[u].activity == Live && h[v].activity == Live ==> u == v
    ensures Tuned(Synced(Activated(h, t))) <==> SameChannel(h, t)
  {
    var h' := Activated(h, t);
    if SameChannel(h, t) {
      StartTuned(h, t);
    } else {
      var u :| u in h && Fits(h[u], Record, ACTIVE, "") && h[u].locator != h[t].locator;
      assert Synced(h')[u] == h[u] && Synced(h')[t] == h'[t];
    }
  }

  lemma StartTuned(h: Holdings, t: Token)
    requires Tuned(h) && t in h && h[t].phase == IDLE && SameChannel(h, t)
    requires forall u :: u in h ==> WellKept(h[u])
    requires forall u, v :: u in h && v in h && h[u].activity == Live && h[v].activity == Live ==> u == v
    ensures Tuned(Synced(Activated(h, t)))
  {
    var h' := Activated(h, t);
    forall u, v | u in h' && v in h' && Fits(h'[u], Record, ACTIVE, "") && Fits(h'[v], Record, ACTIVE, "")
      ensures h'[u].locator == h'[v].locator
    {
      ActivatedFits(h, t, u, Record);
      ActivatedFits(h, t, v, Record);
    }
    SyncedTuned(h');
  }

  lemma StartedWindows(h: Holdings, t: Token)
    requires t in h
    ensures Synced(Activated(h, t)).Keys == h.Keys && SameWindows(h, Synced(Activated(h, t)))
    ensures forall u :: u in h ==> (Synced(Activated(h, t))[u].phase == if u == t then ACTIVE else h[u].phase)
  {
    hide *;
    var h' := Synced(Activated(h, t));
    SyncedKeeps(Activated(h, t));
    ActivatedIs(h, t);
    KeepsWindows(h, t, h');
  }

  lemma ActivatedIs(h: Holdings, t: Token)
    requires t in h
    ensures Activated(h, t) == h[t := h[t].(phase := ACTIVE)]
  {
  }

  lemma KeepsWindows(h: Holdings, t: Token, h': Holdings)
    requires t in h && h'.Keys == h.Keys
    requires forall u :: u in h ==> h'[u] == h[t := h[t].(phase := ACTIVE)][u].(locator := h'[u].locator)
    ensures SameWindows(h, h')
    ensures forall u :: u in h ==> (h'[u].phase == if u == t then ACTIVE else h[u].phase)
  {
  }

  lemma SyncedKeeps(h: Holdings)
    ensures Synced(h).Keys == h.Keys
    ensures forall u :: u in h ==> Synced(h)[u] == h[u].(locator := Synced(h)[u].locator)
  {
    hide StateOf, RecordLocator;
  }

  lemma StartedWellKept(h: Holdings, t: Token)
    requires t in h && forall u :: u in h ==> WellKept(h[u])
    ensures forall u :: u in h ==> WellKept(Synced(Activated(h, t))[u])
  {
  }

  // ---- the book after a start

  lemma RecastLives(s: Book, id: TunerId, h: Holdings)
    requires id in s.tuners && SameWindows(s.tuners[id], h)
    ensures var s' := Recast(s, id, h);
      && (forall i, u :: HoldsLive(s', i, u) <==> HoldsLive(s, i, u))
      && (forall i, u :: HoldsLive(s, i, u) ==> s'.tuners[i][u].device == s.tuners[i][u].device)
  {
  }

  lemma RecastOneLive(s: Book, id: TunerId, h: Holdings)
    requires id in s.tuners && SameWindows(s.tuners[id], h) && OneLive(s) && Reservable(s, s.local)
    ensures OneLive(Recast(s, id, h)) && Reservable(Recast(s, id, h), s.local)
  {
    RecastLives(s, id, h);
  }

  // The same book but for two of its maps.
  ghost function WithTimers(s: Book, activations: map<Token, nat>, expireTimers: map<Token, Timers.Clockwork>): Book {
    s.(activations := activations, expireTimers := expireTimers)
  }

  lemma TimersCoherent(s: Book, activations: map<Token, nat>, expireTimers: map<Token, Timers.Clockwork>)
    requires Coherent(s) && activations.Keys == s.activations.Keys && expireTimers.Keys == s.expireTimers.Keys
    ensures Coherent(WithTimers(s, activations, expireTimers))
  {
    var s' := WithTimers(s, activations, expireTimers);
    forall t ensures IsHeld(s', t) <==> IsHeld(s, t) {
      HeldAlike(s, s', t);
    }
    assert forall i, t :: Holds(s', i, t) <==> Holds(s, i, t);
  }

  lemma TimersLives(s: Book, activations: map<Token, nat>, expireTimers: map<Token, Timers.Clockwork>)
    requires OneLive(s) && Reservable(s, s.local)
    ensures var s' := WithTimers(s, activations, expireTimers);
      OneLive(s') && Reservable(s', s'.local) && s'.deviceId == s.deviceId
  {
    var s' := WithTimers(s, activations, expireTimers);
    assert forall i, t :: HoldsLive(s', i, t) <==> HoldsLive(s, i, t);
  }

  ghost predicate Startable(s: Book, t: Token) {
    && IsHeld(s, t)
    && Lookup(s, t).phase == IDLE
    && Lookup(s, t).start <= s.now
    && SameChannel(s.tuners[HomeOf(s, t)], t)
  }

  // The started tuner in a sound book.
  ghost function StartedTuner(s: Book, t: Token): Holdings
    requires IsHeld(s, t)
  {
    Synced(Activated(s.tuners[HomeOf(s, t)], t))
  }

  lemma NeverRaises(h: Holdings, t: Token)
    requires t in h && forall u :: u in h ==> WellKept(h[u])
    ensures !SyncRaises(Activated(h, t))
  {
    var h' := Activated(h, t);
    if StateOf(h') == HybridState {
      var first := FindReservation(h', Record, ACTIVE).value;
      assert WellKept(h[first]);
    }
  }

  lemma KeptOn(s: Book, id: TunerId)
    requires AllWellKept(s) && id in s.tuners
    ensures forall u :: u in s.tuners[id] ==> WellKept(s.tuners[id][u])
  {
    forall u | u in s.tuners[id] ensures WellKept(s.tuners[id][u]) { assert Holds(s, id, u); }
  }

  lemma StartKeys(s: Book, t: Token)
    requires KeysAgree(s) && IsHeld(s, t)
    ensures t in s.activations && t in s.expireTimers
  {
    assert t in s.attrs;
  }

  lemma StartIs(s: Book, t: Token)
    requires IsHeld(s, t) && Lookup(s, t).phase == IDLE
    requires t in s.activations && t in s.expireTimers && !SyncRaises(Activated(s.tuners[HomeOf(s, t)], t))
    ensures Start(s, t) == WithTimers(Recast(s, HomeOf(s, t), StartedTuner(s, t)),
                                      s.activations[t := s.activations[t] + 1],
                                      s.expireTimers[t := Timers.SetIn(t, Remaining(s.now, Lookup(s, t)), s.now)])
  {
    hide SyncRaises, Synced, Activated;
  }

  lemma StartedTunerParts(s: Book, t: Token)
    requires AllWellKept(s) && AllTuned(s) && OneLive(s) && Startable(s, t)
    ensures var h, h' := s.tuners[HomeOf(s, t)], StartedTuner(s, t);
      && h'.Keys == h.Keys && SameWindows(h, h') && Tuned(h')
      && (forall u :: u in h' ==> WellKept(h'[u]))
      && (forall u :: u in h ==> (h'[u].phase == if u == t then ACTIVE else h[u].phase))
  {
    var h := s.tuners[HomeOf(s, t)];
    TunerParts(s, HomeOf(s, t));
    assert StartedTuner(s, t) == Synced(Activated(h, t)) && t in h && h[t].phase == IDLE && SameChannel(h, t);
    hide *;
    StartTuned(h, t);
    StartedWindows(h, t);
    StartedWellKept(h, t);
  }

  lemma TunerParts(s: Book, id: TunerId)
    requires AllWellKept(s) && AllTuned(s) && OneLive(s) && id in s.tuners
    ensures var h := s.tuners[id];
      && Tuned(h)
      && (forall u :: u in h ==> WellKept(h[u]))
      && (forall u, v :: u in h && v in h && h[u].activity == Live && h[v].activity == Live ==> u == v)
  {
    var h := s.tuners[id];
    forall u | u in h ensures WellKept(h[u]) { assert Holds(s, id, u); }
    forall u, v | u in h && v in h && h[u].activity == Live && h[v].activity == Live ensures u == v {
      assert HoldsLive(s, id, u) && HoldsLive(s, id, v);
    }
  }

  lemma StartTimely(s: Book, t: Token)
    requires Timely(s) && OneHome(s) && Startable(s, t) && t in s.activations
    requires var h, h' := s.tuners[HomeOf(s, t)], StartedTuner(s, t);
      SameWindows(h, h') && forall u :: u in h ==> (h'[u].phase == if u == t then ACTIVE else h[u].phase)
    ensures Timely(WithTimers(Recast(s, HomeOf(s, t), StartedTuner(s, t)),
                              s.activations[t := s.activations[t] + 1],
                              s.expireTimers[t := Timers.SetIn(t, Remaining(s.now, Lookup(s, t)), s.now)]))
  {
    hide StartedTuner;
    var id := HomeOf(s, t);
    var s' := WithTimers(Recast(s, id, StartedTuner(s, t)), s.activations[t := s.activations[t] + 1],
                         s.expireTimers[t := Timers.SetIn(t, Remaining(s.now, Lookup(s, t)), s.now)]);
    forall i, u | Holds(s', i, u) ensures TimelyFor(s', i, u) {
      assert Holds(s, i, u) && TimelyFor(s, i, u);
      assert u == t ==> i == id;
    }
  }

  lemma RecastRest(s: Book, id: TunerId, h: Holdings, activations: map<Token, nat>, expireTimers: map<Token, Timers.Clockwork>)
    requires AllWellKept(s) && AllTuned(s) && id in s.tuners && SameWindows(s.tuners[id], h)
    requires Tuned(h) && forall u :: u in h ==> WellKept(h[u])
    ensures var s' := WithTimers(Recast(s, id, h), activations, expireTimers);
      AllWellKept(s') && AllTuned(s')
  {
    var s' := WithTimers(Recast(s, id, h), activations, expireTimers);
    forall i, u | Holds(s', i, u) ensures WellKept(s'.tuners[i][u]) {
      assert Holds(s, i, u);
    }
  }

  // Starting a due reservation keeps the book sound.
  lemma StartSound(s: Book, t: Token)
    requires Sound(s) && Startable(s, t)
    ensures Sound(Start(s, t))
  {
    hide *;
    SoundParts(s);
    StartableParts(s, t);
    StartKeys(s, t);
    KeptOn(s, HomeOf(s, t));
    NeverRaises(s.tuners[HomeOf(s, t)], t);
    StartIs(s, t);
    StartedTunerParts(s, t);
    var id, h := HomeOf(s, t), StartedTuner(s, t);
    var activations := s.activations[t := s.activations[t] + 1];
    var expireTimers := s.expireTimers[t := Timers.SetIn(t, Remaining(s.now, Lookup(s, t)), s.now)];
    StartTimely(s, t);
    RecastCoherent(s, id, h);
    RecastOneLive(s, id, h);
    RecastRest(s, id, h, activations, expireTimers);
    RecastKeeps(s, id, h);
    TimersCoherent(Recast(s, id, h), activations, expireTimers);
    TimersLives(Recast(s, id, h), activations, expireTimers);
    SoundFrom(Start(s, t));
  }

  lemma StartableParts(s: Book, t: Token)
    requires Startable(s, t)
    ensures IsHeld(s, t) && Lookup(s, t).phase == IDLE && HomeOf(s, t) in s.tuners && t in s.tuners[HomeOf(s, t)]
  {
  }

  lemma RecastKeeps(s: Book, id: TunerId, h: Holdings)
    requires id in s.tuners && SameWindows(s.tuners[id], h)
    ensures var s' := Recast(s, id, h);
      && s'.local == s.local && s'.deviceId == s.deviceId
      && s'.activations == s.activations && s'.expireTimers == s.expireTimers
      && forall u :: u in h <==> u in s.tuners[id]
  {
  }

  lemma SoundFrom(s: Book)
    requires Coherent(s) && AllWellKept(s) && OneLive(s) && AllTuned(s) && Timely(s)
    requires Reservable(s, s.local) && s.deviceId != ""
    ensures Sound(s)
  {
  }

  lemma StartBook(s: Book, t: Token)
    requires IsHeld(s, t) && Lookup(s, t).phase == IDLE
    ensures Start(s, t) == WithTimers(Recast(s, HomeOf(s, t), StartedTuner(s, t)), StartedCounts(s, t), StartedTimers(s, t))
  {
    hide Synced, SyncRaises, Activated;
  }

  ghost function StartedCounts(s: Book, t: Token): map<Token, nat> {
    s.activations[t := Started(s, t) + 1]
  }

  ghost function StartedTimers(s: Book, t: Token): map<Token, Timers.Clockwork>
    requires IsHeld(s, t)
  {
    if SyncRaises(Activated(s.tuners[HomeOf(s, t)], t)) || t !in s.expireTimers then s.expireTimers
    else s.expireTimers[t := Timers.SetIn(t, Remaining(s.now, Lookup(s, t)), s.now)]
  }

  // The last step of a start: counting it, and the expiration timer set again.
  ghost function Restarted(s: Book, t: Token, r: Reservation, raised: bool): Book {
    WithTimers(s, s.activations[t := Started(s, t) + 1],
      if raised || t !in s.expireTimers then s.expireTimers
      else s.expireTimers[t := Timers.SetIn(t, Remaining(s.now, r), s.now)])
  }

  lemma HeldStarts(s: Book, t: Token, id: TunerId)
    ensures Holds(s, id, t) && IsHeld(s, t) && id == HomeOf(s, t) ==>
      var h := Activated(s.tuners[id], t);
      Restarted(Recast(s, id, Synced(h)), t, s.tuners[id][t], SyncRaises(h)) ==
        WithTimers(Recast(s, id, StartedTuner(s, t)), StartedCounts(s, t), StartedTimers(s, t))
  {
    hide Synced, SyncRaises, Activated, HomeOf, IsHeld;
  }

  lemma StartedKeys(s: Book, t: Token)
    requires KeysAgree(s) && IsHeld(s, t)
    ensures StartedCounts(s, t).Keys == s.activations.Keys && StartedTimers(s, t).Keys == s.expireTimers.Keys
  {
    StartKeys(s, t);
    hide SyncRaises;
  }

  lemma StartCoherent(s: Book, t: Token)
    requires Coherent(s)
    ensures Coherent(Start(s, t))
  {
    if IsHeld(s, t) && Lookup(s, t).phase == IDLE {
      var id := HomeOf(s, t);
      StartedKeys(s, t);
      StartedWindows(s.tuners[id], t);
      assert SameWindows(s.tuners[id], StartedTuner(s, t));
      hide *;
      StartBook(s, t);
      RecastCoherent(s, id, StartedTuner(s, t));
      RecastKeeps(s, id, StartedTuner(s, t));
      TimersCoherent(Recast(s, id, StartedTuner(s, t)), StartedCounts(s, t), StartedTimers(s, t));
    } else {
      assert Start(s, t) == s;
    }
  }

  // ---------------------------------------------------------------- the timers go off

  // A clock that went off: it has run its task, or is set again.
  ghost function StartMarked(s: Book, t: Token): Book
    requires t in s.startTimers
  {
    s.(startTimers := s.startTimers[t := Timers.Fired(s.startTimers[t], s.now)])
  }

  ghost function ExpireMarked(s: Book, t: Token): Book
    requires t in s.expireTimers
  {
    s.(expireTimers := s.expireTimers[t := Timers.Fired(s.expireTimers[t], s.now)])
  }

  // The clock of a start timer goes off, early or late; the task runs if the timer lets it.
  ghost function StartClock(s: Book, t: Token): Book {
    if t !in s.startTimers then s
    else
      var ran := Timers.RunBy(s.startTimers[t], Timers.Fire(s.now));
      if ran.Some? then Start(StartMarked(s, t), ran.value) else StartMarked(s, t)
  }

  // Releasing, as the expiration task and a release request do it.
  ghost function Expire(s: Book, t: Token): Book {
    if IsHeld(s, t) then Drop(s, t) else s
  }

  ghost function ExpireClock(s: Book, t: Token): Book {
    if t !in s.expireTimers then s
    else
      var ran := Timers.RunBy(s.expireTimers[t], Timers.Fire(s.now));
      if ran.Some? then Expire(ExpireMarked(s, t), ran.value) else ExpireMarked(s, t)
  }

  // The same book but for its clocks: nothing else notices.
  ghost predicate SameButClocks(s: Book, s': Book) {
    s' == s.(preStartTimers := s'.preStartTimers, startTimers := s'.startTimers, expireTimers := s'.expireTimers)
  }

  lemma ClocksHold(s: Book, s': Book)
    requires SameButClocks(s, s')
    ensures forall i, u :: Holds(s', i, u) <==> Holds(s, i, u)
    ensures forall u :: IsHeld(s', u) <==> IsHeld(s, u)
    ensures forall u :: IsHeld(s, u) ==> HomeOf(s', u) == HomeOf(s, u) && Lookup(s', u) == Lookup(s, u)
  {
    forall u ensures IsHeld(s', u) <==> IsHeld(s, u) { HeldAlike(s, s', u); }
    forall u | IsHeld(s, u) ensures HomeOf(s', u) == HomeOf(s, u) {
      SameFirst(s, s', TunerIds(s), u);
    }
  }

  lemma {:induction false} SameFirst(s: Book, s': Book, ids: seq<TunerId>, t: Token)
    requires s'.tuners == s.tuners
    ensures FirstHolder(s', ids, t) == FirstHolder(s, ids, t)
  {
    if ids != [] { SameFirst(s, s', ids[1..], t); }
  }

  ghost predicate SameClockKeys(s: Book, s': Book) {
    && s'.preStartTimers.Keys == s.preStartTimers.Keys
    && s'.startTimers.Keys == s.startTimers.Keys
    && s'.expireTimers.Keys == s.expireTimers.Keys
  }

  lemma ClocksCoherent(s: Book, s': Book)
    requires Coherent(s) && SameButClocks(s, s') && SameClockKeys(s, s')
    ensures Coherent(s')
  {
    ClocksHold(s, s');
  }

  lemma MarkedSame(s: Book, t: Token)
    ensures t in s.startTimers ==>
      var s' := StartMarked(s, t); SameButClocks(s, s') && SameClockKeys(s, s') && s'.tuners == s.tuners && s'.now == s.now
    ensures t in s.expireTimers ==>
      var s' := ExpireMarked(s, t); SameButClocks(s, s') && SameClockKeys(s, s') && s'.tuners == s.tuners && s'.now == s.now
  {
  }

  lemma ClocksSound(s: Book, s': Book)
    requires Sound(s) && SameButClocks(s, s') && SameClockKeys(s, s') && Timely(s')
    ensures Sound(s')
  {
    SoundParts(s);
    hide *;
    ClocksCoherent(s, s');
    ClocksRest(s, s');
    SoundFrom(s');
  }

  lemma ClocksRest(s: Book, s': Book)
    requires SameButClocks(s, s') && AllWellKept(s) && AllTuned(s) && OneLive(s) && Reservable(s, s.local)
    ensures AllWellKept(s') && AllTuned(s') && OneLive(s') && Reservable(s', s'.local) && s'.deviceId == s.deviceId
  {
    ClocksHold(s, s');
    assert forall i, u :: HoldsLive(s', i, u) <==> HoldsLive(s, i, u);
  }

  // A clock that goes off early keeps its task and its deadline; one that runs its task stands still.
  lemma StartFiredSound(s: Book, t: Token)
    requires Sound(s) && t in s.startTimers && s.startTimers[t].armed
    ensures Sound(StartMarked(s, t))
  {
    assert Timely(s);
    StartFiredTimely(s, t);
    MarkedSame(s, t);
    hide Sound, Timely, StartMarked;
    ClocksSound(s, StartMarked(s, t));
  }

  lemma StartFiredTimely(s: Book, t: Token)
    requires Timely(s) && t in s.startTimers && s.startTimers[t].armed
    ensures Timely(StartMarked(s, t))
  {
    var s' := StartMarked(s, t);
    forall i, u | Holds(s', i, u) ensures TimelyFor(s', i, u) {
      assert Holds(s, i, u) && TimelyFor(s, i, u);
    }
  }

  lemma ExpireFiredSound(s: Book, t: Token)
    requires Sound(s) && t in s.expireTimers && s.expireTimers[t].armed
    ensures Sound(ExpireMarked(s, t))
  {
    assert Timely(s);
    ExpireFiredTimely(s, t);
    MarkedSame(s, t);
    hide Sound, Timely, ExpireMarked;
    ClocksSound(s, ExpireMarked(s, t));
  }

  lemma ExpireFiredTimely(s: Book, t: Token)
    requires Timely(s) && t in s.expireTimers && s.expireTimers[t].armed
    ensures Timely(ExpireMarked(s, t))
  {
    var s' := ExpireMarked(s, t);
    forall i, u | Holds(s', i, u) ensures TimelyFor(s', i, u) {
      assert Holds(s, i, u) && TimelyFor(s, i, u);
    }
  }
}
