// What the manager knows about reservations, its lookups and its three elementary changes.
module Registry {
  import opened Domain
  import opened Ordering
  import opened Tuners
  import Timers

  // Everything the manager keeps about reservations.
  datatype Book = Book(
    deviceId: Device,               // the host's own device id
    now: nat,                       // the clock
    tuners: map<TunerId, Holdings>,
    preStartTimers: map<Token, Timers.Clockwork>,
    startTimers: map<Token, Timers.Clockwork>,
    expireTimers: map<Token, Timers.Clockwork>,
    attrs: map<Token, ClientId>,
    local: TunerId,                 // the tuner reserved for the host
    activations: map<Token, nat>)   // history: starts since the latest grant of a held token

  // ---------------------------------------------------------------- lookups

  ghost predicate Holds(s: Book, id: TunerId, t: Token) {
    id in s.tuners && t in s.tuners[id]
  }

  ghost predicate IsHeld(s: Book, t: Token) {
    exists id :: Holds(s, id, t)
  }

  // The first tuner, in map order, that holds the token.
  ghost function HomeOf(s: Book, t: Token): (id: TunerId)
    requires IsHeld(s, t)
    ensures Holds(s, id, t)
  {
    FirstHolder(s, TunerIds(s), t).value
  }

  ghost function FirstHolder(s: Book, ids: seq<TunerId>, t: Token): (r: Option<TunerId>)
    ensures r.Some? ==> Holds(s, r.value, t)
    ensures r.None? ==> forall id :: id in ids ==> !Holds(s, id, t)
  {
    if ids == [] then None else if Holds(s, ids[0], t) then Some(ids[0]) else FirstHolder(s, ids[1..], t)
  }

  ghost function Lookup(s: Book, t: Token): Reservation
    requires IsHeld(s, t)
  {
    s.tuners[HomeOf(s, t)][t]
  }

  ghost function TunerIds(s: Book): seq<TunerId> {
    Sorted(s.tuners.Keys)
  }

  // ---------------------------------------------------------------- coherence of the parallel maps

  ghost predicate OneHome(s: Book) {
    forall id, id', t :: Holds(s, id, t) && Holds(s, id', t) ==> id == id'
  }

  ghost predicate OwnName(s: Book) {
    forall id, t :: Holds(s, id, t) ==> s.tuners[id][t].token == t && t != ""
  }

  ghost predicate KeysAgree(s: Book) {
    && (forall t :: IsHeld(s, t) <==> t in s.attrs)
    && s.preStartTimers.Keys == s.attrs.Keys
    && s.startTimers.Keys == s.attrs.Keys
    && s.expireTimers.Keys == s.attrs.Keys
    && s.activations.Keys == s.attrs.Keys
  }

  ghost predicate Coherent(s: Book) {
    && OneHome(s)
    && OwnName(s)
    && KeysAgree(s)
    && "" !in s.tuners
  }

  // ---------------------------------------------------------------- elementary changes

  // Inserting a reservation with its three timers and its attributes.
  ghost function Put(s: Book, r: Reservation, id: TunerId, client: ClientId): Book
    requires id in s.tuners
  {
    s.(tuners := s.tuners[id := s.tuners[id][r.token := r]],
       preStartTimers := s.preStartTimers[r.token := Timers.SetAt(r.token, r.start - 250, s.now)],
       startTimers := s.startTimers[r.token := Timers.SetAt(r.token, r.start, s.now)],
       expireTimers := s.expireTimers[r.token := Timers.SetIn(r.token, Remaining(s.now, r), s.now)],
       attrs := s.attrs[r.token := client],
       activations := s.activations[r.token := 0])
  }

  // What is left of a window. The expiration timer is set for so long, from now.
  function Remaining(now: nat, r: Reservation): nat {
    if r.End() > now then r.End() - now else 0
  }

  // The clocks of a reservation just granted: a quarter of a second before the window, at its start, and at
  // its end or at once if it is over. All three run.
  ghost predicate ClocksSet(s: Book, r: Reservation, now: nat) {
    var t := r.token;
    && t in s.preStartTimers && s.preStartTimers[t] == Timers.Clockwork(Some(t), r.start - 250, true)
    && t in s.startTimers && s.startTimers[t] == Timers.Clockwork(Some(t), r.start, true)
    && t in s.expireTimers && s.expireTimers[t] == Timers.Clockwork(Some(t), if r.End() > now then r.End() else now, true)
  }

  lemma PutClocks(s: Book, r: Reservation, id: TunerId, client: ClientId)
    requires id in s.tuners
    ensures ClocksSet(Put(s, r, id, client), r, s.now)
  {
  }

  // Removing a token with everything kept for it.
  ghost function Drop(s: Book, t: Token): Book {
    s.(tuners := map id | id in s.tuners :: s.tuners[id] - {t},
       preStartTimers := s.preStartTimers - {t},
       startTimers := s.startTimers - {t},
       expireTimers := s.expireTimers - {t},
       attrs := s.attrs - {t},
       activations := s.activations - {t})
  }

  // Exchanging the contents of one tuner for another version of the same reservations.
  ghost predicate SameWindows(h: Holdings, h': Holdings) {
    h.Keys == h'.Keys &&
    forall t :: t in h ==> h'[t] == h[t].(locator := h'[t].locator, phase := h'[t].phase)
  }

  ghost function Recast(s: Book, id: TunerId, h: Holdings): Book
    requires id in s.tuners
  {
    s.(tuners := s.tuners[id := h])
  }

  // addReservation followed by setReservationAttributes. The tuner may refuse before it inserts,
  // or raise an assertion afterwards; so may the checks that no timer is left over.
  ghost function Insert(s: Book, r: Reservation, id: TunerId, client: ClientId): (Book, AddOutcome)
    requires id in s.tuners
  {
    var (h, outcome) := AddResult(s.tuners[id], r);
    var timed := r.token in s.preStartTimers || r.token in s.startTimers || r.token in s.expireTimers;
    if outcome == Refused then (s, Refused)
    else if outcome == Torn || timed then (Recast(s, id, h), Torn)
    else (Put(s, r, id, client), Added)
  }

  lemma PutHolds(s: Book, r: Reservation, id: TunerId, client: ClientId)
    requires id in s.tuners
    ensures var s' := Put(s, r, id, client);
      forall i, t :: Holds(s', i, t) <==> Holds(s, i, t) || (i == id && t == r.token)
  {
  }

  lemma PutKeysAgree(s: Book, r: Reservation, id: TunerId, client: ClientId)
    requires KeysAgree(s) && id in s.tuners
    ensures KeysAgree(Put(s, r, id, client))
  {
    var s' := Put(s, r, id, client);
    forall t ensures IsHeld(s', t) <==> t in s'.attrs {
      if t == r.token {
        assert Holds(s', id, t);
      } else {
        HeldAlike(s, s', t);
      }
    }
  }

  // Two states in which the same tuners hold a token.
  lemma HeldAlike(s: Book, s': Book, t: Token)
    requires forall i :: Holds(s, i, t) <==> Holds(s', i, t)
    ensures IsHeld(s, t) <==> IsHeld(s', t)
  {
  }

  lemma PutOneHome(s: Book, r: Reservation, id: TunerId, client: ClientId)
    requires OneHome(s) && id in s.tuners && !IsHeld(s, r.token)
    ensures OneHome(Put(s, r, id, client))
  {
    var s' := Put(s, r, id, client);
    forall i, i', t | Holds(s', i, t) && Holds(s', i', t) ensures i == i' {
      if t != r.token {
        assert Holds(s, i, t) && Holds(s, i', t);
      } else {
        assert !Holds(s, i, t) && !Holds(s, i', t);
      }
    }
  }

  lemma PutOwnName(s: Book, r: Reservation, id: TunerId, client: ClientId)
    requires OwnName(s) && id in s.tuners && r.token != ""
    ensures OwnName(Put(s, r, id, client))
  {
    var s' := Put(s, r, id, client);
    forall i, t | Holds(s', i, t) ensures s'.tuners[i][t].token == t && t != "" {
      if i != id || t != r.token {
        assert Holds(s, i, t);
      }
    }
  }

  lemma PutCoherent(s: Book, r: Reservation, id: TunerId, client: ClientId)
    requires Coherent(s) && id in s.tuners && !IsHeld(s, r.token) && r.token != ""
    ensures Coherent(Put(s, r, id, client))
  {
    PutKeysAgree(s, r, id, client);
    PutOneHome(s, r, id, client);
    PutOwnName(s, r, id, client);
  }

  lemma DropHolds(s: Book, t: Token)
    ensures var s' := Drop(s, t);
      && (forall i, u :: Holds(s', i, u) <==> Holds(s, i, u) && u != t)
      && (forall i, u :: Holds(s', i, u) ==> s'.tuners[i][u] == s.tuners[i][u])
      && s'.tuners.Keys == s.tuners.Keys
  {
  }

  lemma DropCoherent(s: Book, t: Token)
    requires Coherent(s)
    ensures Coherent(Drop(s, t)) && !IsHeld(Drop(s, t), t)
  {
    DropHolds(s, t);
    DropHeld(s, t);
    hide IsHeld;
  }

  lemma DropHeld(s: Book, t: Token)
    ensures forall u :: IsHeld(Drop(s, t), u) <==> IsHeld(s, u) && u != t
  {
    var s' := Drop(s, t);
    DropHolds(s, t);
    hide Drop;
    forall u ensures IsHeld(s', u) <==> IsHeld(s, u) && u != t {
      if u != t { HeldAlike(s, s', u); }
    }
  }

  lemma RecastHolds(s: Book, id: TunerId, h: Holdings)
    requires id in s.tuners && SameWindows(s.tuners[id], h)
    ensures forall i, t :: Holds(Recast(s, id, h), i, t) <==> Holds(s, i, t)
  {
  }

  lemma RecastCoherent(s: Book, id: TunerId, h: Holdings)
    requires Coherent(s) && id in s.tuners && SameWindows(s.tuners[id], h)
    ensures Coherent(Recast(s, id, h))
  {
    var s' := Recast(s, id, h);
    RecastHolds(s, id, h);
    forall t ensures IsHeld(s', t) <==> IsHeld(s, t) {
      HeldAlike(s, s', t);
    }
  }

  // ---------------------------------------------------------------- the filters

  // The tuner filters, by name and argument.
  datatype TunerTest =
    | ByTunerId(id: TunerId)
    | ByTunerState(state: TunerState)
    | ByTunerLocator(locator: Locator)
    | ByTunerEndBefore(end: nat)

  predicate TunerPasses(id: TunerId, h: Holdings, test: TunerTest) {
    match test
    case ByTunerId(x) => id == x
    case ByTunerState(state) => StateOf(h) == state
    case ByTunerLocator(locator) => ServiceLocator(h) == "" || ServiceLocator(h) == locator
    case ByTunerEndBefore(end) => forall t :: t in h && h[t].activity == Record ==> h[t].End() <= end
  }

  ghost function KeepTuners(s: Book, test: TunerTest, ids: seq<TunerId>): (kept: seq<TunerId>)
    ensures forall id :: id in kept <==> id in ids && id in s.tuners && TunerPasses(id, s.tuners[id], test)
  {
    if ids == [] then []
    else if ids[0] in s.tuners && TunerPasses(ids[0], s.tuners[ids[0]], test)
    then [ids[0]] + KeepTuners(s, test, ids[1..])
    else KeepTuners(s, test, ids[1..])
  }

  // The token filters, by name and argument.
  datatype TokenTest =
    | ByActivity(activity: Activity)
    | ByDevice(device: Device)
    | ByReservationLocator(locator: Locator)
    | ByReservationState(phase: Phase)
    | ByReservationEndBefore(end: nat)

  predicate ReservationPasses(r: Reservation, test: TokenTest) {
    match test
    case ByActivity(activity) => r.activity == activity
    case ByDevice(device) => r.device == device
    case ByReservationLocator(locator) => r.locator == locator
    case ByReservationState(phase) => r.phase == phase
    case ByReservationEndBefore(end) => r.End() <= end
  }

  ghost predicate TokenPasses(s: Book, t: Token, test: TokenTest) {
    IsHeld(s, t) && ReservationPasses(Lookup(s, t), test)
  }

  ghost function KeepTokens(s: Book, test: TokenTest, tokens: seq<Token>): seq<Token> {
    if tokens == [] then []
    else if TokenPasses(s, tokens[0], test) then [tokens[0]] + KeepTokens(s, test, tokens[1..])
    else KeepTokens(s, test, tokens[1..])
  }

  lemma {:induction false} KeptTokens(s: Book, test: TokenTest, tokens: seq<Token>)
    ensures forall t :: t in KeepTokens(s, test, tokens) <==> t in tokens && TokenPasses(s, t, test)
  {
    if tokens != [] { KeptTokens(s, test, tokens[1..]); }
  }

  ghost predicate HeldAmong(s: Book, ids: seq<TunerId>, t: Token) {
    exists id :: id in ids && Holds(s, id, t)
  }

  // All tokens of a list of tuners, tuner by tuner.
  ghost function TokensOn(s: Book, ids: seq<TunerId>): seq<Token>
    requires forall id :: id in ids ==> id in s.tuners
  {
    if ids == [] then [] else Sorted(s.tuners[ids[0]].Keys) + TokensOn(s, ids[1..])
  }

  lemma {:induction false} TokensOnAre(s: Book, ids: seq<TunerId>)
    requires forall id :: id in ids ==> id in s.tuners
    ensures forall t :: t in TokensOn(s, ids) <==> HeldAmong(s, ids, t)
  {
    if ids != [] {
      TokensOnAre(s, ids[1..]);
      forall t ensures t in TokensOn(s, ids) <==> HeldAmong(s, ids, t) {
        HeldAmongSplits(s, ids, t);
      }
    }
  }

  lemma HeldAmongSplits(s: Book, ids: seq<TunerId>, t: Token)
    requires ids != []
    ensures HeldAmong(s, ids, t) <==> Holds(s, ids[0], t) || HeldAmong(s, ids[1..], t)
  {
    if Holds(s, ids[0], t) {
      assert ids[0] in ids;
    } else if HeldAmong(s, ids[1..], t) {
      var id :| id in ids[1..] && Holds(s, id, t);
      assert id in ids;
    }
  }

  // One more element of a walk along a list.

  lemma TokensOnStep(s: Book, ids: seq<TunerId>, i: nat)
    requires i < |ids| && forall id :: id in ids ==> id in s.tuners
    ensures TokensOn(s, ids[i..]) == Sorted(s.tuners[ids[i]].Keys) + TokensOn(s, ids[i + 1..])
  {
    assert ids[i..][1..] == ids[i + 1..];
  }

  lemma KeepTunersStep(s: Book, test: TunerTest, ids: seq<TunerId>, i: nat)
    requires i < |ids| && ids[i] in s.tuners
    ensures KeepTuners(s, test, ids[i..]) ==
      (if TunerPasses(ids[i], s.tuners[ids[i]], test) then [ids[i]] else []) + KeepTuners(s, test, ids[i + 1..])
  {
    assert ids[i..][1..] == ids[i + 1..];
  }

  lemma KeepTokensStep(s: Book, test: TokenTest, tokens: seq<Token>, i: nat)
    requires i < |tokens|
    ensures KeepTokens(s, test, tokens[i..]) ==
      (if TokenPasses(s, tokens[i], test) then [tokens[i]] else []) + KeepTokens(s, test, tokens[i + 1..])
  {
    assert tokens[i..][1..] == tokens[i + 1..];
  }

  // list::erase at an index.
  function Erase(xs: seq<string>, i: nat): (r: seq<string>)
    requires i < |xs|
    ensures |r| == |xs| - 1 && r[..i] == xs[..i] && r[i..] == xs[i + 1..]
  {
    xs[..i] + xs[i + 1..]
  }

  // ---------------------------------------------------------------- first-match searches

  // What one pass of a search loop looks for in a tuner.
  datatype Criterion =
    | SharesRecording(locator: Locator)           // its first ACTIVE Record is on the locator
    | AwaitsRecording(locator: Locator)           // its first IDLE Record is on the locator
    | Untouched                                   // it holds nothing
    | AnyFuture                                   // it has an IDLE Record
    | BackToBack(locator: Locator, start: nat)    // an IDLE Record on the locator, getEndTime passed
    | LoneLive(locator: Locator)                  // a single reservation, on the locator
    | TakesRecording(locator: Locator, now: nat)  // nothing, or a single overdue IDLE Live on the locator

  predicate Meets(h: Holdings, c: Criterion) {
    match c
    case SharesRecording(locator) => FirstOn(h, Record, ACTIVE, locator)
    case AwaitsRecording(locator) => FirstOn(h, Record, IDLE, locator)
    case Untouched => h == map[]
    case AnyFuture => FindReservation(h, Record, IDLE).Some?
    case BackToBack(locator, start) =>
      FindReservation(h, Record, IDLE, locator).Some? && EndTime(h, Record) <= start
    case LoneLive(locator) => |h| == 1 && ActiveLocator(h) == locator
    case TakesRecording(locator, now) =>
      h == map[] || (|h| == 1 && exists t :: t in h && Overdue(h[t], locator, now))
  }

  predicate Overdue(r: Reservation, locator: Locator, now: nat) {
    Fits(r, Live, IDLE, "") && r.locator == locator && r.start <= now
  }

  ghost function FirstMeeting(s: Book, ids: seq<TunerId>, c: Criterion): (r: Option<TunerId>)
    ensures r.Some? ==> r.value in ids && r.value in s.tuners && Meets(s.tuners[r.value], c)
    ensures r.None? ==> forall id :: id in ids && id in s.tuners ==> !Meets(s.tuners[id], c)
  {
    if ids == [] then None
    else if ids[0] in s.tuners && Meets(s.tuners[ids[0]], c) then Some(ids[0])
    else FirstMeeting(s, ids[1..], c)
  }

  ghost function LastMeeting(s: Book, ids: seq<TunerId>, c: Criterion): (r: Option<TunerId>)
    ensures r.Some? ==> r.value in ids && r.value in s.tuners && Meets(s.tuners[r.value], c)
    ensures r.None? ==> forall id :: id in ids && id in s.tuners ==> !Meets(s.tuners[id], c)
  {
    if ids == [] then None else
      var n := |ids| - 1;
      assert ids == ids[..n] + [ids[n]];
      if ids[n] in s.tuners && Meets(s.tuners[ids[n]], c) then Some(ids[n])
      else LastMeeting(s, ids[..n], c)
  }

  lemma FirstMeetingOfNone(s: Book, c: Criterion)
    ensures FirstMeeting(s, [], c) == None
  {
  }

  lemma FirstMeetingStep(s: Book, ids: seq<TunerId>, i: nat, c: Criterion)
    requires i < |ids|
    ensures FirstMeeting(s, ids[i..], c) ==
      if ids[i] in s.tuners && Meets(s.tuners[ids[i]], c) then Some(ids[i]) else FirstMeeting(s, ids[i + 1..], c)
  {
    assert ids[i..][1..] == ids[i + 1..];
    hide Meets;
  }

  lemma LastMeetingOfNone(s: Book, c: Criterion)
    ensures LastMeeting(s, [], c) == None
  {
  }

  lemma LastMeetingStep(s: Book, ids: seq<TunerId>, i: nat, c: Criterion)
    requires i < |ids|
    ensures LastMeeting(s, ids[..i + 1], c) ==
      if ids[i] in s.tuners && Meets(s.tuners[ids[i]], c) then Some(ids[i]) else LastMeeting(s, ids[..i], c)
  {
    assert ids[..i + 1][..i] == ids[..i];
    hide Meets;
  }

  // list::remove
  function Without(xs: seq<TunerId>, x: TunerId): (r: seq<TunerId>)
    ensures forall y :: y in r <==> y in xs && y != x
  {
    if xs == [] then []
    else if xs[0] == x then Without(xs[1..], x)
    else [xs[0]] + Without(xs[1..], x)
  }

  // ---------------------------------------------------------------- when an insertion tears the maps apart

  lemma IdleAddsNoActive(h: Holdings, r: Reservation)
    requires r.token !in h && r.phase != ACTIVE
    ensures ActiveTokens(h[r.token := r]) == ActiveTokens(h)
  {
  }

  lemma InsertAdds(s: Book, r: Reservation, id: TunerId, client: ClientId)
    requires Coherent(s) && id in s.tuners && !IsHeld(s, r.token) && r.phase != ACTIVE
    requires !Clashes(s.tuners[id], r) && |ActiveTokens(s.tuners[id])| <= 2
    ensures Insert(s, r, id, client) == (Put(s, r, id, client), Added)
  {
    assert !Holds(s, id, r.token);
    IdleAddsNoActive(s.tuners[id], r);
  }

  // A new reservation leaves the five maps in agreement exactly when the tuner refuses it outright
  // or has at most two ACTIVE reservations.
  lemma InsertKeepsKeysIff(s: Book, r: Reservation, id: TunerId, client: ClientId)
    requires Coherent(s) && id in s.tuners && !IsHeld(s, r.token) && r.phase != ACTIVE
    ensures KeysAgree(Insert(s, r, id, client).0) <==>
      Clashes(s.tuners[id], r) || |ActiveTokens(s.tuners[id])| <= 2
  {
    assert !Holds(s, id, r.token);
    IdleAddsNoActive(s.tuners[id], r);
    if !Clashes(s.tuners[id], r) {
      if |ActiveTokens(s.tuners[id])| <= 2 {
        InsertAdds(s, r, id, client);
        PutKeysAgree(s, r, id, client);
      } else {
        var s' := Insert(s, r, id, client).0;
        assert Holds(s', id, r.token) && r.token !in s'.attrs;
      }
    }
  }
}
