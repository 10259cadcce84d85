// The answer to a Live request, and the reservation a grant makes.
module LiveAnswers {
  import opened Domain
  import opened Ordering
  import opened Tuners
  import opened Registry
  import opened LivePlacement
  import opened Invariants
  import opened Plain
  import opened LivePreference
  import opened LiveRequests

  // The request names a token that is not the device's own, and is no request to get a lost one back.
  predicate WrongToken(q: ReserveTuner, own: Option<Token>) {
    var asked := q.reservation.token;
    asked != "" && own != Some(asked) && (own.Some? || !q.resurrect)
  }

  // A recording that stands in the way: it runs on a tuner nobody watches, or on the device's own.
  ghost predicate InTheWay(s: Book, own: Option<Token>, t: Token) {
    exists id :: Holds(s, id, t) && Is(s.tuners[id][t], Record, ACTIVE) && (IsRecording(s.tuners[id]) || OwnAt(s, own, id))
  }

  lemma WrongTokenMeans(q: ReserveTuner, own: Option<Token>)
    ensures TokenMismatch(q, own) <==> WrongToken(q, own)
  {
  }

  lemma GrantableMeans(s: Book, device: Device, locator: Locator, own: Option<Token>)
    requires Ready(s) && IsOwn(s, device, own)
    ensures LiveGrantable(s, device, locator, own) <==> exists id :: Picked(s, device, locator, own, id)
  {
    hide *;
    OwnHeld(s, device, own);
    LiveGrantedIff(s, device, locator, own);
    ChoiceRight(s, device, locator, own);
    LivePreference.RightMeans(s, device, locator, own, ChooseLive(s, device, locator, own).target);
  }

  lemma InTheWayMeans(s: Book, own: Option<Token>, t: Token)
    requires OneHome(s) && (own.Some? ==> IsHeld(s, own.value))
    ensures InLiveConflict(s, own, t) <==> InTheWay(s, own, t)
  {
    if own.Some? { OwnIsAt(s, own.value); }
    if IsHeld(s, t) {
      var id := HomeOf(s, t);
      InStateMeans(s, id);
      forall i | Holds(s, i, t) ensures i == id {}
    }
    hide StateOf, HomeOf, IsRecording;
  }

  // Which answer a well-formed request gets. A refusal lists each recording in the way, once.
  lemma LiveAnswerIs(s: Book, q: ReserveTuner, client: ClientId, minted: Token)
    requires Sound(s) && LivesStarted(s) && LiveAdmissible(s, q, OwnLive(s, q.device), minted) && LiveRoom(s, q)
    ensures var own, reply := OwnLive(s, q.device), ReserveLive(s, q, client, minted).1;
      && IsOwn(s, q.device, own)
      && (reply.LiveInvalidToken? <==> WrongToken(q, own))
      && (reply.LiveGranted? <==> !WrongToken(q, own) && exists id :: Picked(s, q.device, q.reservation.locator, own, id))
      && (reply.LiveRefused? <==> !WrongToken(q, own) && forall id :: !Picked(s, q.device, q.reservation.locator, own, id))
      && (reply.LiveRefused? ==> Lists(s, own, reply.conflicts))
  {
    hide *;
    var own := OwnLive(s, q.device);
    ReadyForLive(s, q);
    WrongTokenMeans(q, own);
    GrantableMeans(s, q.device, q.reservation.locator, own);
    LiveRequestEffect(s, q, client, minted);
    SoundParts(s);
    LiveDecision(s, q, client, minted);
    LiveGrantedIff(s, q.device, q.reservation.locator, own);
    if ReserveLive(s, q, client, minted).1.LiveRefused? {
      ConflictsListed(s, q.device, own);
    }
  }

  ghost predicate Lists(s: Book, own: Option<Token>, conflicts: seq<Reservation>) {
    && (forall i, j :: 0 <= i < j < |conflicts| ==> conflicts[i].token != conflicts[j].token)
    && (forall r :: r in conflicts ==> InTheWay(s, own, r.token) && exists id :: Holds(s, id, r.token) && s.tuners[id][r.token] == r)
    && (forall t :: InTheWay(s, own, t) ==> exists i :: 0 <= i < |conflicts| && conflicts[i].token == t)
  }

  lemma ConflictsListed(s: Book, device: Device, own: Option<Token>)
    requires Coherent(s) && LivesStarted(s) && IsOwn(s, device, own)
    ensures Lists(s, own, LiveConflicts(s, own))
  {
    var tokens := LiveConflictTokens(s, own);
    LiveConflictsExact(s, device, own);
    ConflictTokensHeld(s, own);
    forall t ensures t in tokens <==> InTheWay(s, own, t) { InTheWayMeans(s, own, t); }
    hide LiveConflictTokens, InTheWay, InLiveConflict;
    var conflicts := LiveConflicts(s, own);
    assert |conflicts| == |tokens|;
    forall i | 0 <= i < |tokens| ensures conflicts[i].token == tokens[i] && tokens[i] in tokens {
      assert Holds(s, HomeOf(s, tokens[i]), tokens[i]);
    }
    hide Resolve, Lookup;
    ListsFrom(s, own, conflicts, tokens);
  }

  lemma ListsFrom(s: Book, own: Option<Token>, conflicts: seq<Reservation>, tokens: seq<Token>)
    requires |conflicts| == |tokens| && Distinct(tokens) && forall i :: 0 <= i < |tokens| ==> conflicts[i].token == tokens[i]
    requires forall t :: t in tokens <==> InTheWay(s, own, t)
    requires forall i :: 0 <= i < |tokens| ==> IsHeld(s, tokens[i]) && conflicts[i] == Lookup(s, tokens[i])
    ensures Lists(s, own, conflicts)
  {
    hide InTheWay, HomeOf, IsHeld;
    forall r | r in conflicts ensures InTheWay(s, own, r.token) && exists id :: Holds(s, id, r.token) && s.tuners[id][r.token] == r {
      var i :| 0 <= i < |conflicts| && conflicts[i] == r;
      assert tokens[i] in tokens;
      assert Holds(s, HomeOf(s, tokens[i]), tokens[i]);
    }
    forall t | InTheWay(s, own, t) ensures exists i :: 0 <= i < |conflicts| && conflicts[i].token == t {
      var i :| 0 <= i < |tokens| && tokens[i] == t;
      assert conflicts[i].token == t;
    }
  }

  // ---------------------------------------------------------------- the reservation made

  // It keeps the device's old token, or takes the lost one back, or gets a new one. It starts when asked,
  // but not later than a moment before now. On a tuner where something else runs it joins that channel.
  ghost predicate MadeFor(s: Book, q: ReserveTuner, own: Option<Token>, minted: Token, home: TunerId, r: Reservation) {
    var asked := q.reservation;
    && home in s.tuners
    && r == asked.(token := r.token, start := r.start, locator := r.locator)
    && r.token == (if own.Some? then own.value else if q.resurrect && asked.token != "" then asked.token else minted)
    && r.start == (if asked.start <= s.now then asked.start else if s.now > 0 then s.now - 1 else 0xFFFF_FFFF_FFFF_FFFF)
    && var rest := if own.Some? then s.tuners[home] - {own.value} else s.tuners[home];
       if exists t :: t in rest && rest[t].phase == ACTIVE then TunedTo(rest, r.locator) else r.locator == asked.locator
  }

  lemma MadeMeans(s: Book, q: ReserveTuner, own: Option<Token>, minted: Token, home: TunerId, local: TunerId)
    requires AllWellKept(s) && home in s.tuners && home in Vacated(s, own, local).tuners
    ensures MadeFor(s, q, own, minted, home, LiveReservation(Vacated(s, own, local), q, LiveToken(q, own, minted), home))
  {
    RestOf(s, own, home, local);
    hide Vacated;
    ChannelOf(Rest(s, own, home));
    hide AllWellKept, ActiveLocator, TunedTo;
  }

  // What stays on a tuner when the device's own Live gives way.
  ghost function Rest(s: Book, own: Option<Token>, home: TunerId): Holdings
    requires home in s.tuners
  {
    if own.Some? then s.tuners[home] - {own.value} else s.tuners[home]
  }

  lemma RestOf(s: Book, own: Option<Token>, home: TunerId, local: TunerId)
    requires AllWellKept(s) && home in s.tuners && home in Vacated(s, own, local).tuners
    ensures Vacated(s, own, local).tuners[home] == Rest(s, own, home) && Vacated(s, own, local).now == s.now
    ensures forall t :: t in Rest(s, own, home) ==> Rest(s, own, home)[t].locator != ""
  {
    hide *;
    VacatedOn(s, own, home, local);
    forall t | t in Rest(s, own, home) ensures Rest(s, own, home)[t].locator != "" { RestKept(s, own, home, t); }
  }

  lemma RestKept(s: Book, own: Option<Token>, home: TunerId, t: Token)
    requires AllWellKept(s) && home in s.tuners && t in Rest(s, own, home)
    ensures Rest(s, own, home)[t].locator != ""
  {
    assert Holds(s, home, t) && WellKept(s.tuners[home][t]);
  }

  lemma VacatedOn(s: Book, own: Option<Token>, home: TunerId, local: TunerId)
    requires home in s.tuners && home in Vacated(s, own, local).tuners
    ensures Vacated(s, own, local).tuners[home] == Rest(s, own, home) && Vacated(s, own, local).now == s.now
  {
  }

  lemma ChannelOf(rest: Holdings)
    requires forall t :: t in rest ==> rest[t].locator != ""
    ensures if exists t :: t in rest && rest[t].phase == ACTIVE
      then ActiveLocator(rest) != "" && TunedTo(rest, ActiveLocator(rest))
      else ActiveLocator(rest) == ""
  {
    if exists t :: t in rest && rest[t].phase == ACTIVE {
      TunedMeans(rest, ActiveLocator(rest));
    } else {
      NothingRuns(rest);
    }
    hide ActiveLocator, TunedTo;
  }

  lemma NothingRuns(h: Holdings)
    requires !exists t :: t in h && h[t].phase == ACTIVE
    ensures ActiveLocator(h) == ""
  {
  }

  // A granted Live is on the preferred tuner, as asked but for token, start and channel, and the reserved
  // tuner is the one it should be.
  lemma LiveGrantIs(s: Book, q: ReserveTuner, client: ClientId, minted: Token)
    requires Sound(s) && LivesStarted(s) && LiveAdmissible(s, q, OwnLive(s, q.device), minted) && LiveRoom(s, q)
    requires ReserveLive(s, q, client, minted).1.LiveGranted?
    ensures var own, (s', reply) := OwnLive(s, q.device), ReserveLive(s, q, client, minted);
      var r := reply.reservation;
      && IsHeld(s', r.token)
      && var home := HomeOf(s', r.token);
      && Picked(s, q.device, q.reservation.locator, own, home)
      && MadeFor(s, q, own, minted, home, r)
      && Reserves(s, q.device, q.reservation.locator, own, home, s'.local)
  {
    hide *;
    var own := OwnLive(s, q.device);
    ReadyForLive(s, q);
    SoundParts(s);
    LiveRequestEffect(s, q, client, minted);
    LiveDecision(s, q, client, minted);
    var c := ChooseLive(s, q.device, q.reservation.locator, own);
    LiveGrantedIff(s, q.device, q.reservation.locator, own);
    LiveChoiceSound(s, q.device, q.reservation.locator, own);
    RoomMeans(s, q);
    var id := c.target.value;
    GrantLiveSound(s, q, client, own, minted, id, c.local);
    var b := Vacated(s, own, c.local);
    var r := LiveReservation(b, q, LiveToken(q, own, minted), id);
    SoundParts(Put(b, r, id, client));
    PutHeld(b, r, id, client);
    VacatedHolds(s, own, c.local);
    MadeMeans(s, q, own, minted, id, c.local);
    LivePreferenceIff(s, q.device, q.reservation.locator, own, id);
    ReservedNext(s, q.device, q.reservation.locator, own);
    LocalOf(s, own, c.local, r, id, client);
  }

  lemma RoomMeans(s: Book, q: ReserveTuner)
    requires LiveRoom(s, q) && !TokenMismatch(q, OwnLive(s, q.device))
    ensures var own := OwnLive(s, q.device);
      var c := ChooseLive(s, q.device, q.reservation.locator, own);
      c.target.Some? ==> c.target.value in s.tuners && Roomy(Vacated(s, own, c.local), c.target.value)
  {
    ChoiceKnown(s, q.device, q.reservation.locator, OwnLive(s, q.device));
    hide OwnLive, ChooseLive, Roomy;
  }

  lemma LocalOf(s: Book, own: Option<Token>, local: TunerId, r: Reservation, id: TunerId, client: ClientId)
    requires id in Vacated(s, own, local).tuners
    ensures Put(Vacated(s, own, local), r, id, client).local == local
  {
  }

  // A device whose Live has not started yet is told so, and nothing changes.
  lemma LiveNotStarted(s: Book, q: ReserveTuner, client: ClientId, minted: Token)
    requires OneHome(s) && OneLive(s)
    ensures ReserveLive(s, q, client, minted).1.LiveInvalidState? <==>
      exists id, t :: HoldsLive(s, id, t) && s.tuners[id][t].device == q.device && s.tuners[id][t].phase == IDLE
    ensures ReserveLive(s, q, client, minted).1.LiveInvalidState? ==> ReserveLive(s, q, client, minted).0 == s
  {
    var own := OwnLive(s, q.device);
    OwnLiveIsOwn(s, q.device);
    OwnLivesAre(s, q.device, own);
    if own.Some? { assert HoldsLive(s, HomeOf(s, own.value), own.value); }
    hide OwnLive, OwnLives, HomeOf, Placed, TokenMismatch;
    NeverInvalid(s, q, client, own, minted);
  }

  lemma NeverInvalid(s: Book, q: ReserveTuner, client: ClientId, own: Option<Token>, minted: Token)
    requires own.Some? ==> IsHeld(s, own.value)
    ensures !Placed(s, q, client, own, minted).1.LiveInvalidState?
  {
    hide Insert, ChooseLive, LiveReservation;
  }
}
