// Serving a Live request: token checks, the grant, and the conflict list of a refusal.
module LiveRequests {
  import opened Domain
  import opened Ordering
  import opened Tuners
  import opened Registry
  import opened LivePlacement
  import opened Invariants
  import opened Times

  // ---------------------------------------------------------------- token lists

  // The Live reservations of a device.
  ghost function OwnLives(s: Book, device: Device): seq<Token> {
    KeepTokens(s, ByDevice(device), KeepTokens(s, ByActivity(Live), TokensOn(s, TunerIds(s))))
  }

  ghost function ActiveRecordsOn(s: Book, ids: seq<TunerId>): seq<Token>
    requires forall id :: id in ids ==> id in s.tuners
  {
    KeepTokens(s, ByReservationState(ACTIVE), KeepTokens(s, ByActivity(Record), TokensOn(s, ids)))
  }

  ghost function Resolve(s: Book, tokens: seq<Token>): (rs: seq<Reservation>)
    requires forall t :: t in tokens ==> IsHeld(s, t)
    ensures |rs| == |tokens|
    ensures forall i :: 0 <= i < |tokens| ==> rs[i] == Lookup(s, tokens[i])
  {
    if tokens == [] then [] else [Lookup(s, tokens[0])] + Resolve(s, tokens[1..])
  }

  lemma HeldOn(s: Book, id: TunerId, t: Token)
    requires OneHome(s) && Holds(s, id, t)
    ensures IsHeld(s, t) && HomeOf(s, t) == id && Lookup(s, t) == s.tuners[id][t]
  {
  }

  lemma ListedIff(s: Book, t: Token)
    ensures t in TokensOn(s, TunerIds(s)) <==> IsHeld(s, t)
  {
    TokensOnAre(s, TunerIds(s));
    if IsHeld(s, t) {
      assert HomeOf(s, t) in TunerIds(s);
    }
  }

  lemma {:induction false} TokensOnDistinct(s: Book, ids: seq<TunerId>)
    requires OneHome(s) && Distinct(ids)
    requires forall id :: id in ids ==> id in s.tuners
    ensures Distinct(TokensOn(s, ids))
  {
    if ids != [] {
      TokensOnDistinct(s, ids[1..]);
      var first, rest := Sorted(s.tuners[ids[0]].Keys), TokensOn(s, ids[1..]);
      SortedAscends(s.tuners[ids[0]].Keys);
      TokensOnAre(s, ids[1..]);
      forall t | t in first && t in rest ensures false {
        assert HeldAmong(s, ids[1..], t);
        var id :| id in ids[1..] && Holds(s, id, t);
        assert Holds(s, ids[0], t);
      }
      DistinctConcat(first, rest);
    }
  }

  lemma DistinctConcat(a: seq<Token>, b: seq<Token>)
    requires Distinct(a) && Distinct(b) && forall t :: t in a ==> t !in b
    ensures Distinct(a + b)
  {
    forall i, j | 0 <= i < j < |a + b| ensures (a + b)[i] != (a + b)[j] {
      assert i < |a| ==> a[i] in a;
      assert j >= |a| ==> b[j - |a|] in b;
    }
  }

  lemma {:induction false} KeptTokensDistinct(s: Book, test: TokenTest, tokens: seq<Token>)
    requires Distinct(tokens)
    ensures Distinct(KeepTokens(s, test, tokens))
  {
    if tokens != [] {
      KeptTokensDistinct(s, test, tokens[1..]);
      KeptTokens(s, test, tokens[1..]);
      var rest := KeepTokens(s, test, tokens[1..]);
      assert forall i :: 0 <= i < |rest| ==> rest[i] in rest;
      assert tokens[0] !in tokens[1..];
    }
  }

  lemma ActiveRecordsDistinct(s: Book, ids: seq<TunerId>)
    requires OneHome(s) && Distinct(ids)
    requires forall id :: id in ids ==> id in s.tuners
    ensures Distinct(ActiveRecordsOn(s, ids))
  {
    TokensOnDistinct(s, ids);
    KeptTokensDistinct(s, ByActivity(Record), TokensOn(s, ids));
    KeptTokensDistinct(s, ByReservationState(ACTIVE), KeepTokens(s, ByActivity(Record), TokensOn(s, ids)));
  }

  lemma ActiveRecordsAre(s: Book, ids: seq<TunerId>)
    requires OneHome(s)
    requires forall id :: id in ids ==> id in s.tuners
    ensures forall t :: t in ActiveRecordsOn(s, ids) <==>
      IsHeld(s, t) && HomeOf(s, t) in ids && Fits(Lookup(s, t), Record, ACTIVE, "")
  {
    TokensOnAre(s, ids);
    KeptTokens(s, ByActivity(Record), TokensOn(s, ids));
    KeptTokens(s, ByReservationState(ACTIVE), KeepTokens(s, ByActivity(Record), TokensOn(s, ids)));
    forall t ensures HeldAmong(s, ids, t) <==> IsHeld(s, t) && HomeOf(s, t) in ids {
      if HeldAmong(s, ids, t) {
        var id :| id in ids && Holds(s, id, t);
        HeldOn(s, id, t);
      }
    }
  }

  ghost predicate IsLiveOf(s: Book, device: Device, t: Token) {
    IsHeld(s, t) && Lookup(s, t).activity == Live && Lookup(s, t).device == device
  }

  lemma OwnLivesMembers(s: Book, device: Device)
    ensures forall t :: t in OwnLives(s, device) <==> IsLiveOf(s, device, t)
  {
    KeptTokens(s, ByActivity(Live), TokensOn(s, TunerIds(s)));
    KeptTokens(s, ByDevice(device), KeepTokens(s, ByActivity(Live), TokensOn(s, TunerIds(s))));
    forall t ensures t in OwnLives(s, device) <==> IsLiveOf(s, device, t) {
      ListedIff(s, t);
    }
  }

  lemma OwnLivesDistinct(s: Book, device: Device)
    requires OneHome(s)
    ensures Distinct(OwnLives(s, device))
  {
    var all := TokensOn(s, TunerIds(s));
    SortedAscends(s.tuners.Keys);
    TokensOnDistinct(s, TunerIds(s));
    KeptTokensDistinct(s, ByActivity(Live), all);
    KeptTokensDistinct(s, ByDevice(device), KeepTokens(s, ByActivity(Live), all));
  }

  lemma LivesOfOneDevice(s: Book, device: Device, t: Token, t': Token)
    requires OneLive(s) && IsLiveOf(s, device, t) && IsLiveOf(s, device, t')
    ensures t == t'
  {
    assert HoldsLive(s, HomeOf(s, t), t) && HoldsLive(s, HomeOf(s, t'), t');
  }

  // The device's list has exactly its one Live, so the size check on it cannot fail.
  lemma OwnLivesAre(s: Book, device: Device, own: Option<Token>)
    requires OneHome(s) && OneLive(s) && IsOwn(s, device, own)
    ensures OwnLives(s, device) == if own.Some? then [own.value] else []
  {
    OwnLivesMembers(s, device);
    OwnLivesDistinct(s, device);
    var lives := OwnLives(s, device);
    assert forall t :: t in lives ==> own == Some(t) by {
      forall t | t in lives ensures own == Some(t) {
        if own.Some? {
          LivesOfOneDevice(s, device, t, own.value);
        } else {
          assert HoldsLive(s, HomeOf(s, t), t);
        }
      }
    }
    if own.Some? {
      OnlyElement(lives, own.value);
    } else {
      HasElements(lives);
    }
  }

  lemma OnlyElement(xs: seq<Token>, x: Token)
    requires Distinct(xs) && forall t :: t in xs <==> t == x
    ensures xs == [x]
  {
    assert x in xs;
    HasElements(xs);
  }

  lemma HasElements(xs: seq<Token>)
    requires Distinct(xs)
    ensures xs == [] || exists t :: t in xs
    ensures |xs| <= 1 || exists t, u :: t in xs && u in xs && t != u
  {
    if xs != [] { assert xs[0] in xs; }
    if |xs| > 1 { assert xs[0] != xs[1] && xs[1] in xs; }
  }

  ghost function OwnLive(s: Book, device: Device): (own: Option<Token>)
    ensures own.Some? ==> IsHeld(s, own.value)
  {
    OwnLivesMembers(s, device);
    var lives := OwnLives(s, device);
    if lives == [] then None else
      assert lives[0] in lives;
      Some(lives[0])
  }

  lemma OwnLiveIsOwn(s: Book, device: Device)
    requires OneHome(s)
    ensures IsOwn(s, device, OwnLive(s, device))
  {
    OwnLivesMembers(s, device);
    var lives := OwnLives(s, device);
    if lives == [] {
      forall id, t | HoldsLive(s, id, t) ensures s.tuners[id][t].device != device {
        HeldOn(s, id, t);
        assert !IsLiveOf(s, device, t);
      }
    } else {
      assert lives[0] in lives;
    }
  }

  // ---------------------------------------------------------------- conflicts of a refused Live

  // ACTIVE Records on Record tuners, on Free tuners and on the requester's own tuner.
  ghost function LiveConflictTokens(s: Book, own: Option<Token>): seq<Token>
    requires own.Some? ==> IsHeld(s, own.value)
  {
    var recording := ActiveRecordsOn(s, IdsInState(s, RecordState)) + ActiveRecordsOn(s, IdsInState(s, FreeState));
    if own.Some? then recording + ActiveRecordsOn(s, [HomeOf(s, own.value)]) else recording
  }

  lemma ActiveRecordsInState(s: Book, state: TunerState)
    requires OneHome(s)
    ensures var ids := KeepTuners(s, ByTunerState(state), TunerIds(s));
      && Distinct(ActiveRecordsOn(s, ids))
      && (forall t :: t in ActiveRecordsOn(s, ids) <==>
           IsHeld(s, t) && InState(s, HomeOf(s, t), state) && Fits(Lookup(s, t), Record, ACTIVE, ""))
      && (state == FreeState ==> ActiveRecordsOn(s, ids) == [])
  {
    SortedAscends(s.tuners.Keys);
    KeptDistinct(s, ByTunerState(state), TunerIds(s));
    var ids := KeepTuners(s, ByTunerState(state), TunerIds(s));
    ActiveRecordsAre(s, ids);
    ActiveRecordsDistinct(s, ids);
    var found := ActiveRecordsOn(s, ids);
    hide KeepTuners, ActiveRecordsOn, Sorted, Distinct, OneHome;
    if found != [] {
      var t := found[0];
      assert t in found;
      assert HasActive(s.tuners[HomeOf(s, t)], Record);
    }
  }

  lemma RecordingAndHome(s: Book, home: TunerId)
    requires OneHome(s) && home in s.tuners && !Quiet(s, home)
    ensures var reported := ActiveRecordsOn(s, IdsInState(s, RecordState)) + ActiveRecordsOn(s, [home]);
      && Distinct(reported)
      && forall t :: t in reported <==>
           && IsHeld(s, t)
           && Fits(Lookup(s, t), Record, ACTIVE, "")
           && (InState(s, HomeOf(s, t), RecordState) || HomeOf(s, t) == home)
  {
    ActiveRecordsInState(s, RecordState);
    ActiveRecordsAre(s, [home]);
    ActiveRecordsDistinct(s, [home]);
    var a, b := ActiveRecordsOn(s, IdsInState(s, RecordState)), ActiveRecordsOn(s, [home]);
    DistinctConcat(a, b);
    assert forall t :: t in a + b <==> t in a || t in b;
  }

  ghost predicate InLiveConflict(s: Book, own: Option<Token>, t: Token)
    requires own.Some? ==> IsHeld(s, own.value)
  {
    && IsHeld(s, t)
    && Fits(Lookup(s, t), Record, ACTIVE, "")
    && (InState(s, HomeOf(s, t), RecordState) || AtHome(s, own, HomeOf(s, t)))
  }

  lemma ConflictParts(s: Book, own: Option<Token>)
    requires OneHome(s)
    requires own.Some? ==> IsHeld(s, own.value)
    ensures var recording := ActiveRecordsOn(s, IdsInState(s, RecordState));
      LiveConflictTokens(s, own) ==
        if own.Some? then recording + ActiveRecordsOn(s, [HomeOf(s, own.value)]) else recording
  {
    ActiveRecordsInState(s, FreeState);
    assert ActiveRecordsOn(s, IdsInState(s, RecordState)) + [] == ActiveRecordsOn(s, IdsInState(s, RecordState));
  }

  lemma ConflictsFromParts(s: Book, own: Option<Token>)
    requires OneHome(s)
    requires own.Some? ==> IsHeld(s, own.value) && !Quiet(s, HomeOf(s, own.value))
    ensures Distinct(LiveConflictTokens(s, own))
    ensures forall t :: t in LiveConflictTokens(s, own) <==> InLiveConflict(s, own, t)
  {
    ConflictParts(s, own);
    if own.Some? {
      RecordingAndHome(s, HomeOf(s, own.value));
    } else {
      ActiveRecordsInState(s, RecordState);
    }
  }

  // A refused Live reports each ACTIVE Record on a Record tuner or on the requester's own tuner,
  // once, and nothing else.
  lemma LiveConflictsExact(s: Book, device: Device, own: Option<Token>)
    requires OneHome(s) && LivesStarted(s) && IsOwn(s, device, own)
    ensures Distinct(LiveConflictTokens(s, own))
    ensures forall t :: t in LiveConflictTokens(s, own) <==> InLiveConflict(s, own, t)
  {
    if own.Some? { OwnNotQuiet(s, own.value); }
    ConflictsFromParts(s, own);
  }

  lemma OwnNotQuiet(s: Book, t: Token)
    requires LivesStarted(s) && IsHeld(s, t) && Lookup(s, t).activity == Live
    ensures !Quiet(s, HomeOf(s, t))
  {
    assert HoldsLive(s, HomeOf(s, t), t);
    assert HasActive(s.tuners[HomeOf(s, t)], Live);
  }

  // ---------------------------------------------------------------- the request

  datatype LiveReply =
    | LiveGranted(reservation: Reservation)
    | LiveRefused(conflicts: seq<Reservation>)
    | LiveInvalidState
    | LiveInvalidToken
    | LiveRaised

  // A Live cannot start in the future.
  function LiveWindow(now: nat, r: Reservation): Reservation {
    if r.start > now then r.(start := JustBefore(now)) else r
  }

  // A requester without a Live may ask for its lost token back.
  ghost predicate Resurrects(q: ReserveTuner, own: Option<Token>) {
    own.None? && q.resurrect && q.reservation.token != ""
  }

  ghost predicate TokenMismatch(q: ReserveTuner, own: Option<Token>) {
    var asked := q.reservation.token;
    asked != "" && !Resurrects(q, own) && own != Some(asked)
  }

  ghost function LiveToken(q: ReserveTuner, own: Option<Token>, minted: Token): Token {
    if own.Some? then own.value
    else if Resurrects(q, own) then q.reservation.token
    else minted
  }

  // The state in which the new reservation is inserted.
  ghost function Vacated(s: Book, own: Option<Token>, local: TunerId): Book {
    (if own.Some? then Drop(s, own.value) else s).(local := local)
  }

  // The granted reservation; on a tuner in use it takes over the locator the tuner is on.
  ghost function LiveReservation(s: Book, q: ReserveTuner, token: Token, id: TunerId): Reservation
    requires id in s.tuners
  {
    var on := ActiveLocator(s.tuners[id]);
    var r := LiveWindow(s.now, q.reservation).(token := token);
    if on != "" then r.(locator := on) else r
  }

  // Inserting under a chosen token, on the locator the tuner is on.
  ghost function Granted(s: Book, q: ReserveTuner, client: ClientId, token: Token, target: TunerId): (Book, LiveReply)
    requires target in s.tuners
  {
    var r := LiveReservation(s, q, token, target);
    var (s', outcome) := Insert(s, r, target, client);
    (s', if outcome == Added then LiveGranted(r) else LiveRaised)
  }

  ghost function GrantLive(s: Book, q: ReserveTuner, client: ClientId, own: Option<Token>, minted: Token, id: TunerId, local: TunerId): (Book, LiveReply)
    requires id in s.tuners
  {
    Granted(Vacated(s, own, local), q, client, LiveToken(q, own, minted), id)
  }

  // The request once its token is accepted.
  ghost function Placed(s: Book, q: ReserveTuner, client: ClientId, own: Option<Token>, minted: Token): (Book, LiveReply)
    requires own.Some? ==> IsHeld(s, own.value)
  {
    var c := ChooseLive(s, q.device, q.reservation.locator, own);
    ChoiceKnown(s, q.device, q.reservation.locator, own);
    if c.target.Some? then GrantLive(s, q, client, own, minted, c.target.value, c.local)
    else (s.(local := c.local), LiveRefused(LiveConflicts(s, own)))
  }

  ghost function ReserveLive(s: Book, q: ReserveTuner, client: ClientId, minted: Token): (Book, LiveReply) {
    var own := OwnLive(s, q.device);
    if |OwnLives(s, q.device)| > 1 then (s, LiveRaised)
    else if own.Some? && Lookup(s, own.value).phase == IDLE then (s, LiveInvalidState)
    else if TokenMismatch(q, own) then (s, LiveInvalidToken)
    else Placed(s, q, client, own, minted)
  }

  ghost function LiveConflicts(s: Book, own: Option<Token>): seq<Reservation>
    requires own.Some? ==> IsHeld(s, own.value)
  {
    ConflictTokensHeld(s, own);
    Resolve(s, LiveConflictTokens(s, own))
  }

  lemma ConflictTokensHeld(s: Book, own: Option<Token>)
    requires own.Some? ==> IsHeld(s, own.value)
    ensures forall t :: t in LiveConflictTokens(s, own) ==> IsHeld(s, t)
  {
    ActiveRecordsHeld(s, IdsInState(s, RecordState));
    ActiveRecordsHeld(s, IdsInState(s, FreeState));
    if own.Some? { ActiveRecordsHeld(s, [HomeOf(s, own.value)]); }
  }

  lemma ActiveRecordsHeld(s: Book, ids: seq<TunerId>)
    requires forall id :: id in ids ==> id in s.tuners
    ensures forall t :: t in ActiveRecordsOn(s, ids) ==> IsHeld(s, t)
  {
    KeptTokens(s, ByReservationState(ACTIVE), KeepTokens(s, ByActivity(Record), TokensOn(s, ids)));
  }

  // What a well-formed Live request looks like: the message speaks for the device that will own the
  // reservation, and a token asked back is nobody's.
  ghost predicate LiveAdmissible(s: Book, q: ReserveTuner, own: Option<Token>, minted: Token) {
    && q.device == q.reservation.device
    && q.reservation.activity == Live
    && q.reservation.phase == IDLE
    && q.reservation.locator != ""
    && minted != "" && !IsHeld(s, minted)
    && (Resurrects(q, own) ==> !IsHeld(s, q.reservation.token))
  }

  // The tuner a Live request is about to be granted has room once the requester's old Live is gone.
  ghost predicate LiveRoom(s: Book, q: ReserveTuner) {
    var own := OwnLive(s, q.device);
    var c := ChooseLive(s, q.device, q.reservation.locator, own);
    !TokenMismatch(q, own) && c.target.Some? && c.target.value in s.tuners ==>
      Roomy(Vacated(s, own, c.local), c.target.value)
  }

  // ---------------------------------------------------------------- conservation

  lemma VacatedHolds(s: Book, own: Option<Token>, local: TunerId)
    ensures var s' := Vacated(s, own, local);
      && s'.tuners.Keys == s.tuners.Keys
      && (forall i, t :: Holds(s', i, t) <==> Holds(s, i, t) && own != Some(t))
      && (forall i, t :: Holds(s', i, t) ==> s'.tuners[i][t] == s.tuners[i][t])
  {
  }

  lemma VacatedSound(s: Book, own: Option<Token>, local: TunerId)
    requires Sound(s) && Reservable(Vacated(s, own, local), local)
    ensures Sound(Vacated(s, own, local))
  {
    var s0 := if own.Some? then Drop(s, own.value) else s;
    if own.Some? { DropSound(s, own.value); }
    assert Vacated(s, own, local) == s0.(local := local);
    assert Reservable(s0, local);
    LocalSound(s0, local);
  }

  lemma LiveTokenUnheld(s: Book, q: ReserveTuner, own: Option<Token>, minted: Token, local: TunerId)
    requires OwnName(s) && IsOwn(s, q.device, own)
    requires LiveAdmissible(s, q, own, minted)
    ensures var token := LiveToken(q, own, minted);
      !IsHeld(Vacated(s, own, local), token) && token != ""
  {
    var token := LiveToken(q, own, minted);
    VacatedHolds(s, own, local);
    assert forall i :: !Holds(Vacated(s, own, local), i, token);
    if own.Some? { assert Holds(s, HomeOf(s, own.value), own.value); }
  }

  // The new Live finds room: after the requester's old one is gone no Live shares its tuner or device.
  lemma LiveHasRoom(s: Book, q: ReserveTuner, own: Option<Token>, minted: Token, id: TunerId, local: TunerId)
    requires OneHome(s) && OwnName(s) && OneLive(s)
    requires IsOwn(s, q.device, own) && FitForLive(s, own, id)
    requires LiveAdmissible(s, q, own, minted)
    requires q.device != s.deviceId ==> local != id
    requires Reservable(s, local) || local == id
    ensures var s' := Vacated(s, own, local);
      && id in s.tuners && id in s'.tuners
      && Reservable(s', local)
      && Insertable(s', LiveReservation(s', q, LiveToken(q, own, minted), id), id)
      && LiveReservation(s', q, LiveToken(q, own, minted), id).activity == Live
  {
    var s' := Vacated(s, own, local);
    LivesElsewhere(s, q.device, own, id, local);
    LiveTokenUnheld(s, q, own, minted, local);
  }

  lemma LivesElsewhere(s: Book, device: Device, own: Option<Token>, id: TunerId, local: TunerId)
    requires OneHome(s) && OneLive(s) && IsOwn(s, device, own) && FitForLive(s, own, id)
    requires Reservable(s, local) || local == id
    ensures var s' := Vacated(s, own, local);
      && (forall i, t :: HoldsLive(s', i, t) ==> i != id && s'.tuners[i][t].device != device)
      && Reservable(s', local)
  {
    var s' := Vacated(s, own, local);
    VacatedHolds(s, own, local);
    forall i, t | HoldsLive(s', i, t) ensures i != id && s'.tuners[i][t].device != device && HoldsLive(s, i, t) {
      assert HoldsLive(s, i, t);
      if own.Some? {
        assert HoldsLive(s, HomeOf(s, own.value), own.value);
      }
    }
  }

  // Nothing on the tuner can make it refuse a Live: it has no other one.
  lemma LiveNeverClashes(s: Book, r: Reservation, id: TunerId)
    requires id in s.tuners && r.activity == Live && RoomForLive(s, r, id)
    ensures !Clashes(s.tuners[id], r)
  {
    assert forall t :: t in s.tuners[id] ==> s.tuners[id][t].activity == r.activity ==> HoldsLive(s, id, t);
  }

  lemma LiveInserted(s: Book, r: Reservation, id: TunerId, client: ClientId)
    requires Sound(s) && Insertable(s, r, id) && r.activity == Live && Roomy(s, id)
    ensures Insert(s, r, id, client) == (Put(s, r, id, client), Added) && Sound(Put(s, r, id, client))
  {
    LiveNeverClashes(s, r, id);
    InsertSound(s, r, id, client);
  }

  lemma GrantLiveSound(s: Book, q: ReserveTuner, client: ClientId, own: Option<Token>, minted: Token, id: TunerId, local: TunerId)
    requires Sound(s) && IsOwn(s, q.device, own) && FitForLive(s, own, id)
    requires LiveAdmissible(s, q, own, minted) && Roomy(Vacated(s, own, local), id)
    requires q.device != s.deviceId ==> local != id
    requires Reservable(s, local) || local == id
    ensures var s' := Vacated(s, own, local);
      && id in s'.tuners
      && var r := LiveReservation(s', q, LiveToken(q, own, minted), id);
      && GrantLive(s, q, client, own, minted, id, local) == (Put(s', r, id, client), LiveGranted(r))
      && Sound(Put(s', r, id, client))
  {
    hide *;
    SoundParts(s);
    var s' := Vacated(s, own, local);
    LiveHasRoom(s, q, own, minted, id, local);
    VacatedSound(s, own, local);
    var r := LiveReservation(s', q, LiveToken(q, own, minted), id);
    LiveInserted(s', r, id, client);
    GrantLiveIs(s, q, client, own, minted, id, local);
  }

  lemma GrantLiveIs(s: Book, q: ReserveTuner, client: ClientId, own: Option<Token>, minted: Token, id: TunerId, local: TunerId)
    requires id in s.tuners && id in Vacated(s, own, local).tuners
    ensures var s' := Vacated(s, own, local);
      var r := LiveReservation(s', q, LiveToken(q, own, minted), id);
      var (s'', outcome) := Insert(s', r, id, client);
      GrantLive(s, q, client, own, minted, id, local) == (s'', if outcome == Added then LiveGranted(r) else LiveRaised)
  {
  }

  // Two books that differ at most in what they keep for one token (and in the reserved tuner).
  ghost predicate SameApartFrom(s: Book, s': Book, t: Token) {
    SameHoldingsApartFrom(s, s', t) && SameTimersApartFrom(s, s', t)
  }

  ghost predicate SameHoldingsApartFrom(s: Book, s': Book, t: Token) {
    s'.tuners.Keys == s.tuners.Keys &&
    forall id :: id in s.tuners ==> s'.tuners[id] - {t} == s.tuners[id] - {t}
  }

  ghost predicate SameTimersApartFrom(s: Book, s': Book, t: Token) {
    && s'.preStartTimers - {t} == s.preStartTimers - {t}
    && s'.startTimers - {t} == s.startTimers - {t}
    && s'.expireTimers - {t} == s.expireTimers - {t}
    && s'.attrs - {t} == s.attrs - {t}
  }

  lemma PutHoldings(s: Book, r: Reservation, id: TunerId, client: ClientId)
    requires id in s.tuners
    ensures SameHoldingsApartFrom(s, Put(s, r, id, client), r.token)
  {
  }

  lemma PutTimers(s: Book, r: Reservation, id: TunerId, client: ClientId)
    requires id in s.tuners
    ensures SameTimersApartFrom(s, Put(s, r, id, client), r.token)
  {
  }

  lemma VacatedApart(s: Book, own: Option<Token>, local: TunerId, t: Token)
    requires own.Some? ==> own.value == t
    ensures SameApartFrom(s, Vacated(s, own, local), t)
  {
    var s' := Vacated(s, own, local);
    forall id | id in s.tuners ensures s'.tuners[id] - {t} == s.tuners[id] - {t} {
      assert own.Some? ==> s'.tuners[id] == s.tuners[id] - {t};
    }
  }

  lemma GrantChangesOneToken(s: Book, own: Option<Token>, local: TunerId, r: Reservation, id: TunerId, client: ClientId)
    requires id in s.tuners && (own.Some? ==> r.token == own.value)
    ensures id in Vacated(s, own, local).tuners
    ensures SameApartFrom(s, Put(Vacated(s, own, local), r, id, client), r.token)
  {
    VacatedApart(s, own, local, r.token);
    PutHoldings(Vacated(s, own, local), r, id, client);
    PutTimers(Vacated(s, own, local), r, id, client);
  }

  lemma ReadyForLive(s: Book, q: ReserveTuner)
    requires Sound(s) && LivesStarted(s)
    ensures Ready(s)
    ensures var own := OwnLive(s, q.device);
      && IsOwn(s, q.device, own)
      && |OwnLives(s, q.device)| <= 1
      && (own.Some? ==> Lookup(s, own.value).phase == ACTIVE)
  {
    OwnLiveIsOwn(s, q.device);
    var own := OwnLive(s, q.device);
    OwnLivesAre(s, q.device, own);
    if own.Some? { assert HoldsLive(s, HomeOf(s, own.value), own.value); }
  }

  // The effect of granting r: it is held for the client, and nothing else changed.
  ghost predicate GrantEffect(s: Book, s': Book, r: Reservation, client: ClientId) {
    && SameApartFrom(s, s', r.token)
    && IsHeld(s', r.token) && Lookup(s', r.token) == r
    && r.token in s'.attrs && s'.attrs[r.token] == client
    && ClocksSet(s', r, s.now)
  }

  // Which way a request goes.
  lemma LiveDecision(s: Book, q: ReserveTuner, client: ClientId, minted: Token)
    requires var own := OwnLive(s, q.device);
      |OwnLives(s, q.device)| <= 1 && (own.Some? ==> Lookup(s, own.value).phase != IDLE)
    ensures var own := OwnLive(s, q.device);
      var c := ChooseLive(s, q.device, q.reservation.locator, own);
      ReserveLive(s, q, client, minted) ==
        if TokenMismatch(q, own) then (s, LiveInvalidToken)
        else if c.target.None? then (s.(local := c.local), LiveRefused(LiveConflicts(s, own)))
        else (ChoiceKnown(s, q.device, q.reservation.locator, own);
              GrantLive(s, q, client, own, minted, c.target.value, c.local))
  {
  }

  lemma LiveGrantDone(s: Book, q: ReserveTuner, client: ClientId, own: Option<Token>, minted: Token, id: TunerId, local: TunerId)
    requires Sound(s) && IsOwn(s, q.device, own) && FitForLive(s, own, id)
    requires LiveAdmissible(s, q, own, minted) && Roomy(Vacated(s, own, local), id)
    requires q.device != s.deviceId ==> local != id
    requires Reservable(s, local) || local == id
    ensures var (s', reply) := GrantLive(s, q, client, own, minted, id, local);
      && Sound(s')
      && reply.LiveGranted?
      && GrantEffect(s, s', reply.reservation, client)
      && reply.reservation.token == LiveToken(q, own, minted)
  {
    GrantLiveSound(s, q, client, own, minted, id, local);
    var s1 := Vacated(s, own, local);
    var r := LiveReservation(s1, q, LiveToken(q, own, minted), id);
    GrantChangesOneToken(s, own, local, r, id, client);
    PutHeld(s1, r, id, client);
  }

  // What a well-formed Live request does, in full. It is answered "invalid token" when it names a token
  // other than its own; otherwise it is granted exactly when LiveGrantable says so. Unless granted,
  // nothing changes. If granted, the book stays sound, only the granted token is affected, and the
  // device's old token is used again.
  lemma LiveRequestEffect(s: Book, q: ReserveTuner, client: ClientId, minted: Token)
    requires Sound(s) && LivesStarted(s) && LiveAdmissible(s, q, OwnLive(s, q.device), minted) && LiveRoom(s, q)
    ensures var (s', reply) := ReserveLive(s, q, client, minted);
      var own := OwnLive(s, q.device);
      && Sound(s')
      && (reply.LiveInvalidToken? <==> TokenMismatch(q, own))
      && (reply.LiveGranted? <==> !TokenMismatch(q, own) && LiveGrantable(s, q.device, q.reservation.locator, own))
      && (reply.LiveRefused? <==> !TokenMismatch(q, own) && !LiveGrantable(s, q.device, q.reservation.locator, own))
      && (!reply.LiveGranted? ==> s' == s)
      && (reply.LiveGranted? ==>
            GrantEffect(s, s', reply.reservation, client) && reply.reservation.token == LiveToken(q, own, minted))
  {
    var own := OwnLive(s, q.device);
    ReadyForLive(s, q);
    LiveDecision(s, q, client, minted);
    LiveGrantedIff(s, q.device, q.reservation.locator, own);
    LiveChoiceSound(s, q.device, q.reservation.locator, own);
    var c := ChooseLive(s, q.device, q.reservation.locator, own);
    if TokenMismatch(q, own) {
    } else if c.target.Some? {
      LiveGrantDone(s, q, client, own, minted, c.target.value, c.local);
    } else {
      assert s.(local := c.local) == s;
    }
  }

  lemma PutHeld(s: Book, r: Reservation, id: TunerId, client: ClientId)
    requires id in s.tuners && OneHome(Put(s, r, id, client))
    ensures var s' := Put(s, r, id, client);
      && IsHeld(s', r.token) && HomeOf(s', r.token) == id && Lookup(s', r.token) == r && s'.attrs[r.token] == client
      && ClocksSet(s', r, s.now)
  {
    HeldOn(Put(s, r, id, client), id, r.token);
  }
}
