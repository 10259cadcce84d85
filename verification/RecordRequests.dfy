// Serving a Record request: renewal, the grant, and the one Live a refusal reports.
module RecordRequests {
  import opened Domain
  import opened Tuners
  import opened Registry
  import opened LivePlacement
  import opened Invariants
  import opened LiveRequests
  import opened RecordPlacement

  // ---------------------------------------------------------------- the conflicting Live

  // The filter "not in conflict": it compares with the temporary Record tokens of pending conflicts.
  function Unconflicted(temps: set<Token>, tokens: seq<Token>): (kept: seq<Token>)
    ensures forall t :: t in kept <==> t in tokens && t !in temps
  {
    if tokens == [] then []
    else if tokens[0] !in temps then [tokens[0]] + Unconflicted(temps, tokens[1..])
    else Unconflicted(temps, tokens[1..])
  }

  // The loop that skips Lives whose tuner already has a Record.
  ghost function SkipRecorded(s: Book, tokens: seq<Token>): (kept: seq<Token>)
    ensures forall t :: t in kept <==> t in tokens && IsHeld(s, t) && !AnyRecord(s.tuners[HomeOf(s, t)])
  {
    if tokens == [] then []
    else if IsHeld(s, tokens[0]) && !AnyRecord(s.tuners[HomeOf(s, tokens[0])])
    then [tokens[0]] + SkipRecorded(s, tokens[1..])
    else SkipRecorded(s, tokens[1..])
  }

  predicate AnyRecord(h: Holdings) {
    exists t :: t in h && h[t].activity == Record
  }

  ghost function LivesOnLiveTuners(s: Book, temps: set<Token>): seq<Token> {
    Unconflicted(temps, KeepTokens(s, ByActivity(Live), TokensOn(s, IdsInState(s, LiveState))))
  }

  // Lives that could give way at once, those of the asking device first.
  ghost function YieldingLives(s: Book, temps: set<Token>, device: Device): seq<Token> {
    var mine := if device == "" then [] else
      SkipRecorded(s, KeepTokens(s, ByDevice(device), LivesOnLiveTuners(s, temps)));
    if mine != [] then mine else SkipRecorded(s, LivesOnLiveTuners(s, temps))
  }

  ghost function EndingOnHybrids(s: Book, start: nat): seq<Token> {
    KeepTokens(s, ByReservationEndBefore(start), KeepTokens(s, ByActivity(Record), TokensOn(s, IdsInState(s, HybridState))))
  }

  // The Live on the tuner of the first Record that ends in time; None when an assertion fails.
  ghost function HybridConflict(s: Book, start: nat): Option<Token> {
    var ending := EndingOnHybrids(s, start);
    if ending == [] || !IsHeld(s, ending[0]) then None else
      var lives := KeepTokens(s, ByActivity(Live), TokensOn(s, [HomeOf(s, ending[0])]));
      if |lives| == 1 then Some(lives[0]) else None
  }

  ghost function RecordConflict(s: Book, temps: set<Token>, r: Reservation): Option<Token> {
    var yielding := YieldingLives(s, temps, r.device);
    if yielding != [] then Some(yielding[0]) else HybridConflict(s, r.start)
  }

  // ---- exactness

  // A Live that shares its tuner with no Record, pending or running.
  ghost predicate GivesWay(s: Book, temps: set<Token>, t: Token) {
    && IsHeld(s, t) && t !in temps
    && Lookup(s, t).activity == Live
    && InState(s, HomeOf(s, t), LiveState)
    && !AnyRecord(s.tuners[HomeOf(s, t)])
  }

  // A Hybrid tuner one of whose Records ends in time.
  ghost predicate EndsInTime(s: Book, start: nat, id: TunerId) {
    InState(s, id, HybridState) &&
    exists t :: t in s.tuners[id] && s.tuners[id][t].activity == Record && s.tuners[id][t].End() <= start
  }

  lemma LivesOnLiveTunersAre(s: Book, temps: set<Token>)
    requires OneHome(s)
    ensures forall t :: t in LivesOnLiveTuners(s, temps) <==>
      IsHeld(s, t) && t !in temps && Lookup(s, t).activity == Live && InState(s, HomeOf(s, t), LiveState)
  {
    var ids := IdsInState(s, LiveState);
    TokensOnAre(s, ids);
    KeptTokens(s, ByActivity(Live), TokensOn(s, ids));
    forall t ensures HeldAmong(s, ids, t) <==> IsHeld(s, t) && InState(s, HomeOf(s, t), LiveState) {
      HeldAmongHome(s, ids, t);
    }
  }

  lemma HeldAmongHome(s: Book, ids: seq<TunerId>, t: Token)
    requires OneHome(s)
    ensures HeldAmong(s, ids, t) <==> IsHeld(s, t) && HomeOf(s, t) in ids
  {
    if HeldAmong(s, ids, t) {
      var id :| id in ids && Holds(s, id, t);
      HeldOn(s, id, t);
    }
  }

  lemma YieldingAre(s: Book, temps: set<Token>, device: Device)
    requires OneHome(s)
    ensures var yielding := YieldingLives(s, temps, device);
      && (forall t :: t in yielding ==> GivesWay(s, temps, t))
      && (yielding == [] <==> forall t :: !GivesWay(s, temps, t))
      && (device != "" && (exists t :: GivesWay(s, temps, t) && Lookup(s, t).device == device) ==>
            forall t :: t in yielding ==> Lookup(s, t).device == device)
  {
    LivesOnLiveTunersAre(s, temps);
    var all := LivesOnLiveTuners(s, temps);
    KeptTokens(s, ByDevice(device), all);
    var mine := SkipRecorded(s, KeepTokens(s, ByDevice(device), all));
    var any := SkipRecorded(s, all);
    assert forall t :: t in any <==> GivesWay(s, temps, t);
    assert forall t :: t in mine <==> GivesWay(s, temps, t) && Lookup(s, t).device == device;
    EmptyOrMember(mine);
    EmptyOrMember(any);
  }

  lemma EmptyOrMember(xs: seq<Token>)
    ensures xs == [] || (xs[0] in xs && exists t :: t in xs)
  {
    if xs != [] { assert xs[0] in xs; }
  }

  lemma EndingAre(s: Book, start: nat)
    requires OneHome(s)
    ensures forall t :: t in EndingOnHybrids(s, start) <==>
      IsHeld(s, t) && InState(s, HomeOf(s, t), HybridState) &&
      Lookup(s, t).activity == Record && Lookup(s, t).End() <= start
  {
    var ids := IdsInState(s, HybridState);
    var tokens := TokensOn(s, ids);
    TokensOnAre(s, ids);
    KeptTokens(s, ByActivity(Record), tokens);
    KeptTokens(s, ByReservationEndBefore(start), KeepTokens(s, ByActivity(Record), tokens));
    hide KeepTokens, TokensOn, StateOf, InState;
    forall t ensures t in EndingOnHybrids(s, start) <==>
      IsHeld(s, t) && HomeOf(s, t) in ids && Lookup(s, t).activity == Record && Lookup(s, t).End() <= start
    {
      HeldAmongHome(s, ids, t);
    }
  }

  lemma OneLiveOnHybrid(s: Book, id: TunerId)
    requires OneHome(s) && OneLive(s) && InState(s, id, HybridState)
    ensures var lives := KeepTokens(s, ByActivity(Live), TokensOn(s, [id]));
      |lives| == 1 && HoldsLive(s, id, lives[0])
  {
    var tokens := TokensOn(s, [id]);
    TokensOnAre(s, [id]);
    TokensOnDistinct(s, [id]);
    KeptTokens(s, ByActivity(Live), tokens);
    KeptTokensDistinct(s, ByActivity(Live), tokens);
    var live :| live in s.tuners[id] && s.tuners[id][live].phase == ACTIVE && s.tuners[id][live].activity == Live;
    var lives := KeepTokens(s, ByActivity(Live), tokens);
    forall t ensures t in lives <==> t == live {
      HeldAmongHome(s, [id], t);
      if t in lives { HeldOn(s, id, t); assert HoldsLive(s, id, t) && HoldsLive(s, id, live); }
      if t == live { HeldOn(s, id, live); assert HeldAmong(s, [id], live); }
    }
    OnlyElement(lives, live);
  }

  // A refused Record raises an assertion, or reports exactly one held Live: one whose tuner has no Record,
  // of the asking device if it has such a Live; failing those, the Live of a Hybrid tuner one of whose
  // Records ends in time.
  lemma RecordConflictExact(s: Book, temps: set<Token>, r: Reservation)
    requires OneHome(s) && OneLive(s)
    ensures var found := RecordConflict(s, temps, r);
      && (found.Some? <==> (exists t :: GivesWay(s, temps, t)) || (exists id :: EndsInTime(s, r.start, id)))
      && (found.Some? ==>
            && IsHeld(s, found.value) && Lookup(s, found.value).activity == Live
            && (if exists t :: GivesWay(s, temps, t) then GivesWay(s, temps, found.value)
                else EndsInTime(s, r.start, HomeOf(s, found.value)))
            && (r.device != "" && (exists t :: GivesWay(s, temps, t) && Lookup(s, t).device == r.device) ==>
                  Lookup(s, found.value).device == r.device))
  {
    YieldingAre(s, temps, r.device);
    var yielding := YieldingLives(s, temps, r.device);
    EmptyOrMember(yielding);
    if yielding == [] {
      HybridConflictExact(s, r.start);
    }
  }

  lemma HybridConflictExact(s: Book, start: nat)
    requires OneHome(s) && OneLive(s)
    ensures var found := HybridConflict(s, start);
      && (found.Some? <==> exists id :: EndsInTime(s, start, id))
      && (found.Some? ==>
            && IsHeld(s, found.value) && Lookup(s, found.value).activity == Live
            && EndsInTime(s, start, HomeOf(s, found.value)))
  {
    var ending := EndingOnHybrids(s, start);
    EndingAre(s, start);
    EmptyOrMember(ending);
    if ending != [] {
      var id := HomeOf(s, ending[0]);
      assert EndsInTime(s, start, id);
      OneLiveOnHybrid(s, id);
      var lives := KeepTokens(s, ByActivity(Live), TokensOn(s, [id]));
      HeldOn(s, id, lives[0]);
    } else {
      forall id, t | Holds(s, id, t) && InState(s, id, HybridState)
        ensures s.tuners[id][t].activity == Record ==> s.tuners[id][t].End() > start
      {
        HeldOn(s, id, t);
      }
    }
  }

  // ---------------------------------------------------------------- the request

  datatype RecordReply =
    | RecordGranted(reservation: Reservation)
    | RecordInConflict(live: Reservation, parent: TunerId)
    | RecordRaised
    | RecordRenewed(reservation: Reservation)
    | RecordLost
    | RecordUnknown

  // The Free tuners apart from one.
  ghost function OtherFree(s: Book, id: TunerId): seq<TunerId> {
    Without(IdsInState(s, FreeState), id)
  }

  // A Free reserved tuner about to be recorded on passes its role to another Free tuner, if any.
  ghost function LocalAfterRecord(s: Book, id: TunerId): TunerId {
    var others := OtherFree(s, id);
    if InState(s, id, FreeState) && id == s.local && others != [] then others[0] else s.local
  }

  ghost function PlaceRecord(s: Book, q: ReserveTuner, client: ClientId, minted: Token, id: TunerId): (Book, RecordReply)
    requires id in s.tuners
  {
    var r := q.reservation.(token := minted);
    var (s', outcome) := Insert(s.(local := LocalAfterRecord(s, id)), r, id, client);
    (s', if outcome == Added then RecordGranted(r) else RecordRaised)
  }

  // The Records a renewal is matched with.
  ghost function Renewable(s: Book, r: Reservation): seq<Token> {
    KeepTokens(s, ByActivity(Record),
      KeepTokens(s, ByReservationLocator(r.locator),
        KeepTokens(s, ByDevice(r.device), TokensOn(s, TunerIds(s)))))
  }

  ghost function FirstRenewable(s: Book, r: Reservation): (first: Option<Token>)
    ensures first.Some? ==> IsHeld(s, first.value)
  {
    RenewableHeld(s, r);
    EmptyOrMember(Renewable(s, r));
    if Renewable(s, r) == [] then None else Some(Renewable(s, r)[0])
  }

  ghost function RenewRecord(s: Book, q: ReserveTuner, client: ClientId): (Book, RecordReply) {
    RenewFirst(s, q.reservation, client, FirstRenewable(s, q.reservation))
  }

  ghost function RenewFirst(s: Book, r: Reservation, client: ClientId, first: Option<Token>): (Book, RecordReply)
    requires first.Some? ==> IsHeld(s, first.value)
  {
    if first.None? then (s, RecordUnknown)
    else if first.value != r.token then (s, RecordRaised)
    else
      var (s', outcome) := Insert(Drop(s, r.token), r, HomeOf(s, r.token), client);
      (s', match outcome case Added => RecordRenewed(r) case Refused => RecordLost case Torn => RecordRaised)
  }

  ghost function Contended(s: Book, temps: set<Token>, r: Reservation): RecordReply {
    var live := RecordConflict(s, temps, r);
    if live.Some? && IsHeld(s, live.value) then RecordInConflict(Lookup(s, live.value), HomeOf(s, live.value)) else RecordRaised
  }

  ghost function ReserveRecord(s: Book, temps: set<Token>, q: ReserveTuner, client: ClientId, minted: Token): (Book, RecordReply) {
    if q.reservation.token != "" then RenewRecord(s, q, client)
    else
      match SearchRecord(s, q.reservation)
      case Ambiguous => (s, RecordRaised)
      case Place(id) => if id in s.tuners then PlaceRecord(s, q, client, minted, id) else (s, RecordRaised)
      case Nowhere => (s, Contended(s, temps, q.reservation))
  }

  // A request that names a token is a renewal.
  lemma RenewalIs(s: Book, temps: set<Token>, q: ReserveTuner, client: ClientId, minted: Token)
    requires q.reservation.token != ""
    ensures ReserveRecord(s, temps, q, client, minted) ==
      RenewFirst(s, q.reservation, client, FirstRenewable(s, q.reservation))
  {
    hide RenewFirst, FirstRenewable;
  }

  // A well-formed Record request.
  ghost predicate RecordAdmissible(s: Book, q: ReserveTuner, minted: Token) {
    && q.reservation.activity == Record
    && q.reservation.phase == IDLE
    && q.reservation.locator != ""
    && minted != "" && !IsHeld(s, minted)
  }

  // The tuner a Record request is about to be put on takes it whole or not at all.
  ghost predicate RecordRoom(s: Book, q: ReserveTuner) {
    var r, found := q.reservation, SearchRecord(s, q.reservation);
    if r.token != "" then IsHeld(s, r.token) ==> TakesWhole(s.tuners[HomeOf(s, r.token)] - {r.token}, r)
    else found.Place? && found.id in s.tuners ==> TakesWhole(s.tuners[found.id], r)
  }

  lemma SearchKnown(s: Book, r: Reservation)
    ensures SearchRecord(s, r).Place? ==> SearchRecord(s, r).id in s.tuners
  {
    if BackToBackStage(s, r).None? && LaterStages(s, r).Place? {
      LaterStagesClear(s, r);
    }
  }

  lemma LocalAfterRecordReservable(s: Book, id: TunerId)
    requires LivesStarted(s) && Reservable(s, s.local)
    ensures Reservable(s, LocalAfterRecord(s, id))
  {
    var others := Without(IdsInState(s, FreeState), id);
    if others != [] {
      assert others[0] in others;
      NoLiveUnlessActive(s, others[0]);
    }
  }

  // The tuner moves its reserved role only when it is Free, and only a tuner in use can refuse.
  lemma PlaceRecordDone(s: Book, q: ReserveTuner, client: ClientId, minted: Token, id: TunerId)
    requires Sound(s) && LivesStarted(s) && RecordAdmissible(s, q, minted) && id in s.tuners
    requires TakesWhole(s.tuners[id], q.reservation)
    ensures var (s', reply) := PlaceRecord(s, q, client, minted, id);
      var r := q.reservation.(token := minted);
      && Sound(s')
      && (reply == if Clashes(s.tuners[id], r) then RecordRaised else RecordGranted(r))
      && (reply.RecordRaised? ==> s' == s)
      && (reply.RecordGranted? ==> GrantEffect(s, s', r, client) && HomeOf(s', minted) == id && s'.local == LocalAfterRecord(s, id))
  {
    var local := LocalAfterRecord(s, id);
    var s1 := s.(local := local);
    var r := q.reservation.(token := minted);
    LocalAfterRecordReservable(s, id);
    LocalSound(s, local);
    LocalSame(s, local);
    assert Insertable(s1, r, id);
    InsertSound(s1, r, id, client);
    if !Clashes(s.tuners[id], r) {
      RecordChangesOneToken(s, local, r, id, client);
      PutHeld(s1, r, id, client);
    } else {
      assert s1 == s;
    }
  }

  lemma RecordChangesOneToken(s: Book, local: TunerId, r: Reservation, id: TunerId, client: ClientId)
    requires id in s.tuners
    ensures SameApartFrom(s, Put(s.(local := local), r, id, client), r.token)
  {
    GrantChangesOneToken(s, None, local, r, id, client);
  }

  lemma ClearNeverClashes(h: Holdings, r: Reservation)
    requires r.activity == Record && ClearOfRecords(h, r)
    ensures !Clashes(h, r)
  {
  }

  // A fresh Record request for which the search finds a tuner is granted there, unless the tuner refuses it
  // because its first stage led it to an overlapping Record of another locator; then nothing changes.
  lemma RecordPlacedEffect(s: Book, temps: set<Token>, q: ReserveTuner, client: ClientId, minted: Token)
    requires Sound(s) && LivesStarted(s) && RecordAdmissible(s, q, minted) && q.reservation.token == ""
    requires SearchRecord(s, q.reservation).Place? && RecordRoom(s, q)
    ensures SearchRecord(s, q.reservation).id in s.tuners
    ensures var (s', reply) := ReserveRecord(s, temps, q, client, minted);
      var r, id := q.reservation.(token := minted), SearchRecord(s, q.reservation).id;
      && Sound(s')
      && (reply == if Clashes(s.tuners[id], r) then RecordRaised else RecordGranted(r))
      && (reply.RecordRaised? ==> s' == s)
      && (reply.RecordGranted? ==> GrantEffect(s, s', r, client) && HomeOf(s', minted) == id && s'.local == LocalAfterRecord(s, id))
      && (BackToBackStage(s, q.reservation).None? ==> reply.RecordGranted? && ClearOfRecords(s.tuners[id], r))
  {
    SearchKnown(s, q.reservation);
    var r, id := q.reservation.(token := minted), SearchRecord(s, q.reservation).id;
    PlaceRecordDone(s, q, client, minted, id);
    if BackToBackStage(s, q.reservation).None? {
      LaterStagesClear(s, q.reservation);
      assert ClearOfRecords(s.tuners[id], r);
      ClearNeverClashes(s.tuners[id], r);
    }
  }

  // Otherwise nothing changes, and a conflict names one held Live with its tuner.
  lemma RecordUnplacedEffect(s: Book, temps: set<Token>, q: ReserveTuner, client: ClientId, minted: Token)
    requires OneHome(s) && OneLive(s) && OwnName(s) && q.reservation.token == ""
    requires !SearchRecord(s, q.reservation).Place?
    ensures var (s', reply) := ReserveRecord(s, temps, q, client, minted);
      && s' == s
      && (reply.RecordInConflict? || reply.RecordRaised?)
      && (reply.RecordInConflict? <==>
            SearchRecord(s, q.reservation).Nowhere? && RecordConflict(s, temps, q.reservation).Some?)
      && (reply.RecordInConflict? ==>
            HoldsLive(s, reply.parent, reply.live.token) && s.tuners[reply.parent][reply.live.token] == reply.live)
  {
    if SearchRecord(s, q.reservation).Nowhere? {
      RecordConflictExact(s, temps, q.reservation);
      var live := RecordConflict(s, temps, q.reservation);
      if live.Some? {
        assert Holds(s, HomeOf(s, live.value), live.value);
      }
    }
  }

  // ---------------------------------------------------------------- renewal

  lemma RenewableHeld(s: Book, r: Reservation)
    ensures forall t :: t in Renewable(s, r) <==>
      IsHeld(s, t) && Lookup(s, t).activity == Record && Lookup(s, t).locator == r.locator && Lookup(s, t).device == r.device
  {
    var all := TokensOn(s, TunerIds(s));
    var mine := KeepTokens(s, ByDevice(r.device), all);
    KeptTokens(s, ByDevice(r.device), all);
    KeptTokens(s, ByReservationLocator(r.locator), mine);
    KeptTokens(s, ByActivity(Record), KeepTokens(s, ByReservationLocator(r.locator), mine));
    forall t ensures t in all <==> IsHeld(s, t) {
      ListedIff(s, t);
    }
  }

  lemma Reinsert(s: Book, r: Reservation, client: ClientId)
    requires Sound(s) && IsHeld(s, r.token) && r.token != ""
    requires r.activity == Record && r.phase == IDLE && r.locator != ""
    requires TakesWhole(s.tuners[HomeOf(s, r.token)] - {r.token}, r)
    ensures var id := HomeOf(s, r.token);
      && Insert(Drop(s, r.token), r, id, client) ==
           (if Clashes(s.tuners[id] - {r.token}, r) then (Drop(s, r.token), Refused)
            else (Put(Drop(s, r.token), r, id, client), Added))
      && Sound(Insert(Drop(s, r.token), r, id, client).0)
  {
    var s', id := Drop(s, r.token), HomeOf(s, r.token);
    DropSound(s, r.token);
    DropCoherent(s, r.token);
    assert s'.tuners[id] == s.tuners[id] - {r.token};
    assert Insertable(s', r, id);
    InsertSound(s', r, id, client);
  }

  // What a renewal comes to, given the first match.
  lemma RenewFirstEffect(s: Book, r: Reservation, client: ClientId, first: Option<Token>)
    requires Sound(s) && r.token != "" && r.activity == Record && r.phase == IDLE && r.locator != ""
    requires first.Some? ==> IsHeld(s, first.value)
    requires IsHeld(s, r.token) ==> TakesWhole(s.tuners[HomeOf(s, r.token)] - {r.token}, r)
    ensures Sound(RenewFirst(s, r, client, first).0)
    ensures RenewFirst(s, r, client, first) ==
      if first.None? then (s, RecordUnknown)
      else if first.value != r.token then (s, RecordRaised)
      else if Clashes(s.tuners[HomeOf(s, r.token)] - {r.token}, r) then (Drop(s, r.token), RecordLost)
      else (Put(Drop(s, r.token), r, HomeOf(s, r.token), client), RecordRenewed(r))
  {
    if first == Some(r.token) {
      Reinsert(s, r, client);
    }
  }

  // A Record a renewal could be meant for: held, of the device and on the locator.
  ghost predicate Matches(s: Book, r: Reservation, t: Token) {
    IsHeld(s, t) && Lookup(s, t).activity == Record && Lookup(s, t).locator == r.locator && Lookup(s, t).device == r.device
  }

  // A renewal is matched by device and locator, and succeeds only for the first match. It releases before
  // it inserts again, so a new window that overlaps a Record of another locator loses the reservation.
  lemma RenewEffect(s: Book, temps: set<Token>, q: ReserveTuner, client: ClientId, minted: Token)
    requires Sound(s) && q.reservation.token != "" && q.reservation.activity == Record
    requires q.reservation.phase == IDLE && q.reservation.locator != "" && RecordRoom(s, q)
    ensures var (s', reply) := ReserveRecord(s, temps, q, client, minted);
      var r, first := q.reservation, FirstRenewable(s, q.reservation);
      && Sound(s')
      && (reply.RecordUnknown? <==> forall t :: !Matches(s, r, t))
      && (first.Some? ==> Matches(s, r, first.value))
      && (reply.RecordUnknown? || reply.RecordRaised? <==> first != Some(r.token))
      && (reply.RecordUnknown? || reply.RecordRaised? ==> s' == s)
      && (reply.RecordLost? <==> first == Some(r.token) && Clashes(s.tuners[HomeOf(s, r.token)] - {r.token}, r))
      && (reply.RecordLost? ==> s' == Drop(s, r.token))
      && (reply.RecordRenewed? ==>
            reply.reservation == r && s' == Put(Drop(s, r.token), r, HomeOf(s, r.token), client))
      && !reply.RecordGranted? && !reply.RecordInConflict?
  {
    hide *;
    var r, first := q.reservation, FirstRenewable(s, q.reservation);
    FirstMatches(s, r);
    RenewalRoom(s, q);
    RenewFirstEffect(s, r, client, first);
    RenewalIs(s, temps, q, client, minted);
  }

  lemma FirstMatches(s: Book, r: Reservation)
    ensures FirstRenewable(s, r).Some? ==> Matches(s, r, FirstRenewable(s, r).value)
    ensures FirstRenewable(s, r).None? <==> forall t :: !Matches(s, r, t)
  {
    RenewableHeld(s, r);
    EmptyOrMember(Renewable(s, r));
    hide Renewable, IsHeld;
  }

  lemma RenewalRoom(s: Book, q: ReserveTuner)
    requires q.reservation.token != "" && RecordRoom(s, q)
    ensures var r := q.reservation; IsHeld(s, r.token) ==> TakesWhole(s.tuners[HomeOf(s, r.token)] - {r.token}, r)
  {
    hide SearchRecord, TakesWhole;
  }
}
