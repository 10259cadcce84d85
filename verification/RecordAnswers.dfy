// The answer to a Record request: where it goes, which Live it is in conflict with, what is renewed.
module RecordAnswers {
  import opened Domain
  import opened Ordering
  import opened Tuners
  import opened Registry
  import opened LivePlacement
  import opened Invariants
  import opened Plain
  import opened LivePreference
  import opened LiveRequests
  import opened RecordPlacement
  import opened RecordPreference
  import opened RecordRequests

  // ---------------------------------------------------------------- the order of tokens in a list

  // Tokens are listed tuner by tuner, and in token order on each.
  ghost predicate Precedes(s: Book, t: Token, u: Token) {
    exists i, j :: Holds(s, i, t) && Holds(s, j, u) && (Less(i, j) || (i == j && Less(t, u)))
  }

  ghost predicate Listing(s: Book, tokens: seq<Token>) {
    forall i, j :: 0 <= i < j < |tokens| ==> Precedes(s, tokens[i], tokens[j])
  }

  lemma ListingTail(s: Book, tokens: seq<Token>)
    requires Listing(s, tokens) && tokens != []
    ensures Listing(s, tokens[1..]) && forall u :: u in tokens[1..] ==> Precedes(s, tokens[0], u)
  {
    hide Precedes;
    forall u | u in tokens[1..] ensures Precedes(s, tokens[0], u) {
      var j :| 0 <= j < |tokens[1..]| && tokens[1..][j] == u;
      assert tokens[j + 1] == u;
    }
  }

  lemma ListingCons(s: Book, t: Token, rest: seq<Token>)
    requires Listing(s, rest) && forall u :: u in rest ==> Precedes(s, t, u)
    ensures Listing(s, [t] + rest)
  {
    hide Precedes;
    forall i, j | 0 <= i < j < |[t] + rest| ensures Precedes(s, ([t] + rest)[i], ([t] + rest)[j]) {
      assert ([t] + rest)[j] == rest[j - 1] && rest[j - 1] in rest;
    }
  }

  lemma ListingConcat(s: Book, a: seq<Token>, b: seq<Token>)
    requires Listing(s, a) && Listing(s, b) && forall t, u :: t in a && u in b ==> Precedes(s, t, u)
    ensures Listing(s, a + b)
  {
    hide Precedes;
    forall i, j | 0 <= i < j < |a + b| ensures Precedes(s, (a + b)[i], (a + b)[j]) {
      if i < |a| && |a| <= j { assert a[i] in a && b[j - |a|] in b; }
    }
  }

  lemma OneTunerLists(s: Book, id: TunerId)
    requires id in s.tuners
    ensures Listing(s, Sorted(s.tuners[id].Keys))
  {
    var order := Sorted(s.tuners[id].Keys);
    SortedAscends(s.tuners[id].Keys);
    forall i, j | 0 <= i < j < |order| ensures Precedes(s, order[i], order[j]) {
      assert order[i] in order && order[j] in order;
      assert Holds(s, id, order[i]) && Holds(s, id, order[j]);
    }
  }

  lemma {:induction false} TokensOnLists(s: Book, ids: seq<TunerId>)
    requires Ascending(ids) && forall id :: id in ids ==> id in s.tuners
    ensures Listing(s, TokensOn(s, ids))
  {
    if ids != [] {
      TailAscends(ids);
      TokensOnLists(s, ids[1..]);
      OneTunerLists(s, ids[0]);
      TokensOnAre(s, ids[1..]);
      var first, rest := Sorted(s.tuners[ids[0]].Keys), TokensOn(s, ids[1..]);
      forall t, u | t in first && u in rest ensures Precedes(s, t, u) {
        var j :| j in ids[1..] && Holds(s, j, u);
        assert j in ids && Holds(s, ids[0], t);
        assert Less(ids[0], j) by { FollowsHead(ids, j); }
      }
      ListingConcat(s, first, rest);
    }
  }

  lemma FollowsHead(ids: seq<TunerId>, j: TunerId)
    requires Ascending(ids) && ids != [] && j in ids[1..]
    ensures Less(ids[0], j)
  {
    var k :| 0 <= k < |ids[1..]| && ids[1..][k] == j;
    assert ids[k + 1] == j;
  }

  lemma {:induction false} KeptLists(s: Book, test: TokenTest, tokens: seq<Token>)
    requires Listing(s, tokens)
    ensures Listing(s, KeepTokens(s, test, tokens))
  {
    if tokens != [] {
      ListingTail(s, tokens);
      KeptLists(s, test, tokens[1..]);
      KeptTokens(s, test, tokens[1..]);
      hide Precedes, Listing, TokenPasses;
      ListingCons(s, tokens[0], KeepTokens(s, test, tokens[1..]));
    }
  }

  lemma {:induction false} UnconflictedLists(s: Book, temps: set<Token>, tokens: seq<Token>)
    requires Listing(s, tokens)
    ensures Listing(s, Unconflicted(temps, tokens))
  {
    if tokens != [] {
      ListingTail(s, tokens);
      UnconflictedLists(s, temps, tokens[1..]);
      hide Precedes, Listing;
      ListingCons(s, tokens[0], Unconflicted(temps, tokens[1..]));
    }
  }

  lemma {:induction false} SkippedLists(s: Book, tokens: seq<Token>)
    requires Listing(s, tokens)
    ensures Listing(s, SkipRecorded(s, tokens))
  {
    if tokens != [] {
      ListingTail(s, tokens);
      SkippedLists(s, tokens[1..]);
      hide Precedes, Listing, AnyRecord;
      ListingCons(s, tokens[0], SkipRecorded(s, tokens[1..]));
    }
  }

  // Nothing comes both before and after.
  lemma PrecedesOneWay(s: Book, t: Token, u: Token)
    requires OneHome(s) && Precedes(s, t, u)
    ensures t != u && !Precedes(s, u, t)
  {
    var i, j :| Holds(s, i, t) && Holds(s, j, u) && (Less(i, j) || (i == j && Less(t, u)));
    LessOneWay(i, j);
    LessOneWay(t, u);
  }

  lemma ListingHead(s: Book, tokens: seq<Token>)
    requires Listing(s, tokens) && tokens != []
    ensures tokens[0] in tokens && forall u :: u in tokens ==> u == tokens[0] || Precedes(s, tokens[0], u)
  {
    ListingTail(s, tokens);
    assert tokens == [tokens[0]] + tokens[1..];
  }

  // ---------------------------------------------------------------- renewal

  // Of several matches a renewal goes by the first one listed.
  lemma RenewsFirst(s: Book, r: Reservation, t: Token)
    requires OneHome(s)
    ensures FirstRenewable(s, r) == Some(t) <==>
      Matches(s, r, t) && forall u :: Matches(s, r, u) ==> u == t || Precedes(s, t, u)
  {
    var all := TokensOn(s, TunerIds(s));
    SortedAscends(s.tuners.Keys);
    TokensOnLists(s, TunerIds(s));
    KeptLists(s, ByDevice(r.device), all);
    KeptLists(s, ByReservationLocator(r.locator), KeepTokens(s, ByDevice(r.device), all));
    KeptLists(s, ByActivity(Record), KeepTokens(s, ByReservationLocator(r.locator), KeepTokens(s, ByDevice(r.device), all)));
    var list := Renewable(s, r);
    RenewableHeld(s, r);
    hide Renewable, Precedes, Listing, TokensOn, KeepTokens, HomeOf, Lookup;
    assert forall u :: u in list <==> Matches(s, r, u);
    hide Matches;
    if list != [] {
      ListingHead(s, list);
      if Matches(s, r, t) && t != list[0] && (forall u :: Matches(s, r, u) ==> u == t || Precedes(s, t, u)) {
        PrecedesOneWay(s, t, list[0]);
      }
    }
  }

  // ---------------------------------------------------------------- the conflict

  // A Live that could give way at once: nothing but Lives on its tuner.
  ghost predicate Yields(s: Book, temps: set<Token>, t: Token) {
    exists id :: Holds(s, id, t) && s.tuners[id][t].activity == Live && IsWatched(s.tuners[id]) && t !in temps
      && forall u :: u in s.tuners[id] ==> s.tuners[id][u].activity != Record
  }

  ghost predicate YieldsFor(s: Book, temps: set<Token>, device: Device, t: Token) {
    device != "" && Yields(s, temps, t) && exists id :: Holds(s, id, t) && s.tuners[id][t].device == device
  }

  // A tuner somebody watches, one of whose Records is over by the start.
  ghost predicate Clearing(s: Book, start: nat, id: TunerId) {
    id in s.tuners && IsHybrid(s.tuners[id]) &&
    exists t :: t in s.tuners[id] && s.tuners[id][t].activity == Record && s.tuners[id][t].End() <= start
  }

  ghost predicate FirstClearing(s: Book, start: nat, id: TunerId) {
    Clearing(s, start, id) && forall i :: Clearing(s, start, i) ==> i == id || Less(id, i)
  }

  // The Live a Record is put in conflict with: the first listed of the asking device's own that can give way,
  // then the first listed of anybody's, then the one on the first tuner with a Record that is over in time.
  ghost predicate Contends(s: Book, temps: set<Token>, r: Reservation, t: Token) {
    if exists u :: YieldsFor(s, temps, r.device, u) then
      YieldsFor(s, temps, r.device, t) && forall u :: YieldsFor(s, temps, r.device, u) ==> u == t || Precedes(s, t, u)
    else if exists u :: Yields(s, temps, u) then
      Yields(s, temps, t) && forall u :: Yields(s, temps, u) ==> u == t || Precedes(s, t, u)
    else
      exists id :: FirstClearing(s, r.start, id) && HoldsLive(s, id, t)
  }

  lemma YieldsMeans(s: Book, temps: set<Token>, t: Token)
    requires OneHome(s)
    ensures GivesWay(s, temps, t) <==> Yields(s, temps, t)
  {
    if IsHeld(s, t) {
      var id := HomeOf(s, t);
      InStateMeans(s, id);
      assert !AnyRecord(s.tuners[id]) <==> forall u :: u in s.tuners[id] ==> s.tuners[id][u].activity != Record;
      forall i | Holds(s, i, t) ensures i == id {}
    }
    hide StateOf, HomeOf, IsWatched;
  }

  lemma LivesListed(s: Book, temps: set<Token>)
    ensures Listing(s, LivesOnLiveTuners(s, temps))
  {
    var ids := IdsInState(s, LiveState);
    IdsAscend(s, LiveState);
    TokensOnLists(s, ids);
    KeptLists(s, ByActivity(Live), TokensOn(s, ids));
    UnconflictedLists(s, temps, KeepTokens(s, ByActivity(Live), TokensOn(s, ids)));
  }

  ghost function Mine(s: Book, temps: set<Token>, device: Device): seq<Token> {
    SkipRecorded(s, KeepTokens(s, ByDevice(device), LivesOnLiveTuners(s, temps)))
  }

  ghost function Anybodys(s: Book, temps: set<Token>): seq<Token> {
    SkipRecorded(s, LivesOnLiveTuners(s, temps))
  }

  lemma ConflictUnfolds(s: Book, temps: set<Token>, r: Reservation)
    ensures RecordConflict(s, temps, r) ==
      if r.device != "" && Mine(s, temps, r.device) != [] then Some(Mine(s, temps, r.device)[0])
      else if Anybodys(s, temps) != [] then Some(Anybodys(s, temps)[0])
      else HybridConflict(s, r.start)
  {
    hide LivesOnLiveTuners, KeepTokens, SkipRecorded, HybridConflict;
  }

  lemma AnybodysAre(s: Book, temps: set<Token>)
    requires OneHome(s)
    ensures Listing(s, Anybodys(s, temps)) && forall t :: t in Anybodys(s, temps) <==> Yields(s, temps, t)
  {
    LivesListed(s, temps);
    SkippedLists(s, LivesOnLiveTuners(s, temps));
    LivesOnLiveTunersAre(s, temps);
    forall t ensures t in Anybodys(s, temps) <==> Yields(s, temps, t) { YieldsMeans(s, temps, t); }
    hide Listing;
  }

  lemma MineAre(s: Book, temps: set<Token>, device: Device)
    requires OneHome(s) && device != ""
    ensures Listing(s, Mine(s, temps, device)) && forall t :: t in Mine(s, temps, device) <==> YieldsFor(s, temps, device, t)
  {
    var lives := LivesOnLiveTuners(s, temps);
    LivesListed(s, temps);
    KeptLists(s, ByDevice(device), lives);
    SkippedLists(s, KeepTokens(s, ByDevice(device), lives));
    LivesOnLiveTunersAre(s, temps);
    KeptTokens(s, ByDevice(device), lives);
    forall t ensures t in Mine(s, temps, device) <==> YieldsFor(s, temps, device, t) {
      YieldsMeans(s, temps, t);
      DeviceMeans(s, device, t);
    }
    hide Listing;
  }

  lemma DeviceMeans(s: Book, device: Device, t: Token)
    requires OneHome(s)
    ensures IsHeld(s, t) && Lookup(s, t).device == device <==> exists id :: Holds(s, id, t) && s.tuners[id][t].device == device
  {
    hide HomeOf;
  }

  lemma ClearingMeans(s: Book, start: nat, id: TunerId)
    ensures EndsInTime(s, start, id) <==> Clearing(s, start, id)
  {
    InStateMeans(s, id);
    hide StateOf, IsHybrid;
  }

  lemma EndingListed(s: Book, start: nat)
    ensures Listing(s, EndingOnHybrids(s, start))
  {
    var ids := IdsInState(s, HybridState);
    IdsAscend(s, HybridState);
    TokensOnLists(s, ids);
    KeptLists(s, ByActivity(Record), TokensOn(s, ids));
    KeptLists(s, ByReservationEndBefore(start), KeepTokens(s, ByActivity(Record), TokensOn(s, ids)));
  }

  lemma HybridFirst(s: Book, start: nat)
    requires OneHome(s) && OneLive(s)
    ensures var found := HybridConflict(s, start);
      if found.Some? then exists id :: FirstClearing(s, start, id) && HoldsLive(s, id, found.value)
      else forall id :: !Clearing(s, start, id)
  {
    var ending := EndingOnHybrids(s, start);
    EndingListed(s, start);
    EndingAre(s, start);
    HybridConflictExact(s, start);
    forall id ensures EndsInTime(s, start, id) <==> Clearing(s, start, id) { ClearingMeans(s, start, id); }
    EmptyOrMember(ending);
    if ending != [] {
      var id := HomeOf(s, ending[0]);
      assert EndsInTime(s, start, id);
      OneLiveOnHybrid(s, id);
      ListingHead(s, ending);
      hide HomeOf, KeepTokens, TokensOn, EndingOnHybrids, EndsInTime, StateOf, Listing;
      FirstHome(s, start, ending, id);
    }
  }

  lemma FirstHome(s: Book, start: nat, ending: seq<Token>, id: TunerId)
    requires OneHome(s) && ending != [] && Holds(s, id, ending[0]) && Clearing(s, start, id)
    requires forall u :: u in ending ==> u == ending[0] || Precedes(s, ending[0], u)
    requires forall t :: t in ending <==> IsHeld(s, t) && InState(s, HomeOf(s, t), HybridState) && Lookup(s, t).activity == Record && Lookup(s, t).End() <= start
    ensures FirstClearing(s, start, id)
  {
    forall i | Clearing(s, start, i) ensures i == id || Less(id, i) {
      InStateMeans(s, i);
      var t :| t in s.tuners[i] && s.tuners[i][t].activity == Record && s.tuners[i][t].End() <= start;
      HeldOn(s, i, t);
      assert t in ending;
      if t == ending[0] {
        assert Holds(s, i, t);
      } else {
        var a, b :| Holds(s, a, ending[0]) && Holds(s, b, t) && (Less(a, b) || (a == b && Less(ending[0], t)));
        assert a == id && b == i;
      }
    }
  }

  // Exactly which Live a refused Record names.
  lemma RecordConflictIs(s: Book, temps: set<Token>, r: Reservation, t: Token)
    requires OneHome(s) && OneLive(s)
    ensures RecordConflict(s, temps, r) == Some(t) <==> Contends(s, temps, r, t)
  {
    hide *;
    ConflictUnfolds(s, temps, r);
    AnybodysAre(s, temps);
    var all := Anybodys(s, temps);
    if r.device != "" {
      MineAre(s, temps, r.device);
      var mine := Mine(s, temps, r.device);
      EmptyOrMember(mine);
      if mine != [] {
        ListingHead(s, mine);
        FirstOfMine(s, temps, r, mine[0], t);
      } else {
        NotMine(s, temps, r);
      }
    } else {
      NotMine(s, temps, r);
    }
    EmptyOrMember(all);
    if (r.device == "" || Mine(s, temps, r.device) == []) && all != [] {
      ListingHead(s, all);
      FirstOfAll(s, temps, r, all[0], t);
    } else if r.device == "" || Mine(s, temps, r.device) == [] {
      HybridFirst(s, r.start);
      HybridLast(s, temps, r, t);
    }
  }

  lemma NotMine(s: Book, temps: set<Token>, r: Reservation)
    ensures r.device == "" ==> forall u :: !YieldsFor(s, temps, r.device, u)
  {
  }

  lemma FirstOfMine(s: Book, temps: set<Token>, r: Reservation, first: Token, t: Token)
    requires OneHome(s) && YieldsFor(s, temps, r.device, first)
    requires forall u :: YieldsFor(s, temps, r.device, u) ==> u == first || Precedes(s, first, u)
    ensures Contends(s, temps, r, t) <==> t == first
  {
    hide YieldsFor, Precedes;
    if Contends(s, temps, r, t) && t != first { PrecedesOneWay(s, t, first); }
  }

  lemma FirstOfAll(s: Book, temps: set<Token>, r: Reservation, first: Token, t: Token)
    requires OneHome(s) && Yields(s, temps, first) && forall u :: !YieldsFor(s, temps, r.device, u)
    requires forall u :: Yields(s, temps, u) ==> u == first || Precedes(s, first, u)
    ensures Contends(s, temps, r, t) <==> t == first
  {
    hide YieldsFor, Yields, Precedes;
    if Contends(s, temps, r, t) && t != first { PrecedesOneWay(s, t, first); }
  }

  lemma HybridLast(s: Book, temps: set<Token>, r: Reservation, t: Token)
    requires OneLive(s) && (forall u :: !YieldsFor(s, temps, r.device, u)) && (forall u :: !Yields(s, temps, u))
    requires var found := HybridConflict(s, r.start);
      if found.Some? then exists id :: FirstClearing(s, r.start, id) && HoldsLive(s, id, found.value)
      else forall id :: !Clearing(s, r.start, id)
    ensures HybridConflict(s, r.start) == Some(t) <==> Contends(s, temps, r, t)
  {
    hide YieldsFor, Yields, HybridConflict, Clearing;
    var found := HybridConflict(s, r.start);
    if found.Some? && Contends(s, temps, r, t) {
      var id :| FirstClearing(s, r.start, id) && HoldsLive(s, id, found.value);
      var i :| FirstClearing(s, r.start, i) && HoldsLive(s, i, t);
      LessOneWay(i, id);
    }
  }

  // ---------------------------------------------------------------- the answer

  // Something runs on the tuner, and a Record of another channel is at the same time.
  ghost predicate Refuses(h: Holdings, r: Reservation) {
    && (exists u :: u in h && h[u].phase == ACTIVE && (h[u].activity == Live || h[u].activity == Record))
    && (exists t :: t in h && Rivals(h[t], r))
  }

  lemma RefusesMeans(h: Holdings, r: Reservation)
    ensures Clashes(h, r) <==> Refuses(h, r)
  {
    AdmissionIff(h, r);
    hide Clashes, Rivals;
  }

  // The reserved tuner, once a Record is on a tuner: it passes its role on only if nothing ran there.
  ghost predicate ReservesAfter(s: Book, id: TunerId, local: TunerId) {
    if id in s.tuners && IsFree(s.tuners[id]) && id == s.local && AnotherFree(s, id) then FirstFreeBut(s, id, local)
    else local == s.local
  }

  lemma ReservesAfterMeans(s: Book, id: TunerId)
    ensures ReservesAfter(s, id, LocalAfterRecord(s, id))
  {
    InStateMeans(s, id);
    CountsMean(s, id);
    ListHeads(s, id);
    hide IdsInState, InState, IsFree, AnotherFree, FirstFreeBut, OneFree, FirstRecording, FirstRecordingBut;
  }

  // What a fresh Record request comes to: granted on the preferred tuner unless that tuner refuses; put in
  // conflict with one Live if no tuner suits; otherwise an assertion fails.
  lemma RecordAnswerIs(s: Book, temps: set<Token>, q: ReserveTuner, client: ClientId, minted: Token)
    requires Sound(s) && LivesStarted(s) && RecordAdmissible(s, q, minted) && q.reservation.token == "" && RecordRoom(s, q)
    ensures var r, (s', reply) := q.reservation, ReserveRecord(s, temps, q, client, minted);
      && (reply.RecordGranted? <==> exists id :: SomeChoice(s, r, id) && !Refuses(s.tuners[id], r))
      && (reply.RecordInConflict? <==> NoneAtAll(s, r) && exists t :: Contends(s, temps, r, t))
      && (reply.RecordGranted? || reply.RecordInConflict? || reply.RecordRaised?)
      && (reply.RecordGranted? ==>
            && IsHeld(s', minted) && Lookup(s', minted) == r.(token := minted) == reply.reservation
            && SomeChoice(s, r, HomeOf(s', minted)) && ReservesAfter(s, HomeOf(s', minted), s'.local))
      && (reply.RecordInConflict? ==>
            && Contends(s, temps, r, reply.live.token)
            && Holds(s, reply.parent, reply.live.token) && s.tuners[reply.parent][reply.live.token] == reply.live)
      && (!reply.RecordGranted? ==> s' == s)
  {
    hide *;
    var r := q.reservation;
    SoundParts(s);
    AdmissibleLocator(s, q, minted);
    SearchRight(s, r);
    var found := SearchRecord(s, r);
    RecordPreference.RightMeans(s, r, found);
    if found.Place? {
      PlacedAnswer(s, temps, q, client, minted);
    } else {
      UnplacedAnswer(s, temps, q, client, minted);
    }
  }

  lemma AdmissibleLocator(s: Book, q: ReserveTuner, minted: Token)
    requires RecordAdmissible(s, q, minted)
    ensures q.reservation.locator != ""
  {
  }

  lemma ChoiceKnown(s: Book, r: Reservation, id: TunerId)
    requires SomeChoice(s, r, id)
    ensures id in s.tuners
  {
  }

  lemma PlacedAnswer(s: Book, temps: set<Token>, q: ReserveTuner, client: ClientId, minted: Token)
    requires Sound(s) && LivesStarted(s) && RecordAdmissible(s, q, minted) && q.reservation.token == "" && RecordRoom(s, q)
    requires SearchRecord(s, q.reservation).Place? && SomeChoice(s, q.reservation, SearchRecord(s, q.reservation).id)
    ensures var r, (s', reply) := q.reservation, ReserveRecord(s, temps, q, client, minted);
      && (reply.RecordGranted? <==> exists id :: SomeChoice(s, r, id) && !Refuses(s.tuners[id], r))
      && !NoneAtAll(s, r) && !reply.RecordInConflict? && (reply.RecordGranted? || reply.RecordRaised?)
      && (reply.RecordGranted? ==>
            && IsHeld(s', minted) && Lookup(s', minted) == r.(token := minted) == reply.reservation
            && SomeChoice(s, r, HomeOf(s', minted)) && ReservesAfter(s, HomeOf(s', minted), s'.local))
      && (!reply.RecordGranted? ==> s' == s)
  {
    hide *;
    var r, id := q.reservation, SearchRecord(s, q.reservation).id;
    RecordPlacedEffect(s, temps, q, client, minted);
    ChoiceKnown(s, r, id);
    Exclusive(s, r, id);
    RefusesMeans(s.tuners[id], r.(token := minted));
    SameWindow(s.tuners[id], r, minted);
    ReservesAfterMeans(s, id);
    var (s', reply) := ReserveRecord(s, temps, q, client, minted);
    if reply.RecordGranted? { GrantedLookup(s, s', r.(token := minted), client); }
  }

  lemma SameWindow(h: Holdings, r: Reservation, token: Token)
    ensures Refuses(h, r.(token := token)) <==> Refuses(h, r)
  {
    forall t | t in h ensures Rivals(h[t], r.(token := token)) <==> Rivals(h[t], r) {
      assert forall x: nat :: Lasts(r.(token := token), x) <==> Lasts(r, x);
    }
    hide Rivals;
  }

  lemma GrantedLookup(s: Book, s': Book, r: Reservation, client: ClientId)
    requires GrantEffect(s, s', r, client)
    ensures IsHeld(s', r.token) && Lookup(s', r.token) == r
  {
  }

  lemma UnplacedAnswer(s: Book, temps: set<Token>, q: ReserveTuner, client: ClientId, minted: Token)
    requires OneHome(s) && OneLive(s) && OwnName(s) && q.reservation.token == ""
    requires var found := SearchRecord(s, q.reservation);
      (found.Ambiguous? && TwoHybrids(s, q.reservation)) || (found.Nowhere? && NoneAtAll(s, q.reservation))
    ensures var r, (s', reply) := q.reservation, ReserveRecord(s, temps, q, client, minted);
      && (forall id :: !SomeChoice(s, r, id)) && !reply.RecordGranted?
      && (reply.RecordInConflict? <==> NoneAtAll(s, r) && exists t :: Contends(s, temps, r, t))
      && (reply.RecordInConflict? || reply.RecordRaised?)
      && (reply.RecordInConflict? ==>
            && Contends(s, temps, r, reply.live.token)
            && Holds(s, reply.parent, reply.live.token) && s.tuners[reply.parent][reply.live.token] == reply.live)
      && s' == s
  {
    hide *;
    var r := q.reservation;
    RecordUnplacedEffect(s, temps, q, client, minted);
    NoneNotTwo(s, r);
    forall id ensures !SomeChoice(s, r, id) { if SomeChoice(s, r, id) { Exclusive(s, r, id); } }
    var live := RecordConflict(s, temps, r);
    forall t ensures live == Some(t) <==> Contends(s, temps, r, t) { RecordConflictIs(s, temps, r, t); }
    if live.Some? { assert Contends(s, temps, r, live.value); }
    var reply := ReserveRecord(s, temps, q, client, minted).1;
    if reply.RecordInConflict? {
      NamedLive(s, temps, q, client, minted);
      LiveNamed(s, reply.parent, reply.live.token);
    }
  }

  lemma LiveNamed(s: Book, id: TunerId, t: Token)
    requires HoldsLive(s, id, t)
    ensures Holds(s, id, t)
  {
  }

  lemma NamedLive(s: Book, temps: set<Token>, q: ReserveTuner, client: ClientId, minted: Token)
    requires OwnName(s) && q.reservation.token == "" && ReserveRecord(s, temps, q, client, minted).1.RecordInConflict?
    ensures RecordConflict(s, temps, q.reservation) == Some(ReserveRecord(s, temps, q, client, minted).1.live.token)
  {
    var live := RecordConflict(s, temps, q.reservation);
    hide SearchRecord, RecordConflict, PlaceRecord, RenewRecord;
    PlaceNeverConflicts(s, q, client, minted);
    if live.Some? && IsHeld(s, live.value) { assert Holds(s, HomeOf(s, live.value), live.value); }
  }

  lemma PlaceNeverConflicts(s: Book, q: ReserveTuner, client: ClientId, minted: Token)
    ensures forall id :: id in s.tuners ==> !PlaceRecord(s, q, client, minted, id).1.RecordInConflict?
  {
    hide Insert, LocalAfterRecord;
  }

  // A renewal succeeds exactly for the first match, if its tuner does not refuse the new window once the old
  // one is gone; if it refuses, the reservation is lost.
  lemma RenewalAnswerIs(s: Book, temps: set<Token>, q: ReserveTuner, client: ClientId, minted: Token)
    requires Sound(s) && q.reservation.token != "" && q.reservation.activity == Record
    requires q.reservation.phase == IDLE && q.reservation.locator != "" && RecordRoom(s, q)
    ensures var r, (s', reply) := q.reservation, ReserveRecord(s, temps, q, client, minted);
      var first := Matches(s, r, r.token) && forall u :: Matches(s, r, u) ==> u == r.token || Precedes(s, r.token, u);
      && (reply.RecordRenewed? || reply.RecordLost? <==> first)
      && (first ==> (reply.RecordLost? <==> Refuses(s.tuners[HomeOf(s, r.token)] - {r.token}, r)))
      && (reply.RecordRenewed? ==> s' == Put(Drop(s, r.token), r, HomeOf(s, r.token), client))
      && (reply.RecordLost? ==> s' == Drop(s, r.token))
      && (!first ==> s' == s)
  {
    hide *;
    var r := q.reservation;
    SoundParts(s);
    RenewEffect(s, temps, q, client, minted);
    RenewsFirst(s, r, r.token);
    if FirstRenewable(s, r) == Some(r.token) {
      MatchHeld(s, r, r.token);
      RefusesMeans(s.tuners[HomeOf(s, r.token)] - {r.token}, r);
      var (s', reply) := ReserveRecord(s, temps, q, client, minted);
      assert Matches(s, r, r.token) && forall u :: Matches(s, r, u) ==> u == r.token || Precedes(s, r.token, u);
      assert !(reply.RecordUnknown? || reply.RecordRaised?);
      assert reply.RecordRenewed? || reply.RecordLost?;
      assert reply.RecordLost? <==> Refuses(s.tuners[HomeOf(s, r.token)] - {r.token}, r);
    }
  }

  lemma MatchHeld(s: Book, r: Reservation, t: Token)
    requires Matches(s, r, t)
    ensures IsHeld(s, t) && HomeOf(s, t) in s.tuners
  {
  }
}
