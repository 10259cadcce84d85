// The reservation manager as an object: its fields, its queries and its searches over tuners.
module Management {
  import opened Domain
  import opened Ordering
  import opened Tuners
  import opened Registry
  import opened LivePlacement
  import opened Invariants
  import opened RecordPlacement
  import opened Lifecycle
  import opened Protocol
  import Timers

  class Manager {
    const deviceId: Device
    const uuid: nat -> Uuid
    const tuners: map<TunerId, Tuner>
    var now: nat
    var issued: nat
    var preStartTimers: map<Token, Timers.Clockwork>
    var startTimers: map<Token, Timers.Clockwork>
    var expireTimers: map<Token, Timers.Clockwork>
    var attrs: map<Token, ClientId>
    var localTuner: TunerId
    var pendingRequests: seq<Pending>
    var pendingRequestTimers: map<Uuid, Timers.Clockwork>
    ghost var activations: map<Token, nat>
    ghost var seen: set<Uuid>
    ghost var granted: multiset<Uuid>
    ghost var cancelled: set<Uuid>

    // A given number of tuners, all empty; the first one is reserved for the host.
    constructor (deviceId: Device, uuid: nat -> Uuid, numOfTuners: nat)
      requires numOfTuners > 0
      ensures this.deviceId == deviceId && this.uuid == uuid
      ensures Valid() && localTuner in tuners && "" !in tuners
      ensures tuners.Keys == set i | 0 <= i < numOfTuners :: TunerName(i)
      ensures forall id :: id in tuners ==> fresh(tuners[id]) && tuners[id].reservations == map[]
      ensures issued == 0 && pendingRequests == [] && pendingRequestTimers == map[]
      ensures attrs == map[] && preStartTimers == map[] && startTimers == map[] && expireTimers == map[]
      ensures activations == map[] && seen == {} && granted == multiset{} && cancelled == {}
    {
      var all := NewTuners(numOfTuners);
      this.deviceId, this.uuid, tuners, localTuner := deviceId, uuid, all, TunerName(0);
      now, issued, pendingRequests, pendingRequestTimers := 0, 0, [], map[];
      preStartTimers, startTimers, expireTimers, attrs := map[], map[], map[], map[];
      activations, seen, granted, cancelled := map[], {}, multiset{}, {};
      new;
      EmptyCoherent(View());
      hide Coherent;
    }

    static method NewTuners(numOfTuners: nat) returns (all: map<TunerId, Tuner>)
      ensures all.Keys == set i | 0 <= i < numOfTuners :: TunerName(i)
      ensures forall id :: id in all ==> fresh(all[id]) && all[id].id == id && all[id].reservations == map[]
    {
      all := map[];
      for i := 0 to numOfTuners
        invariant all.Keys == set k | 0 <= k < i :: TunerName(k)
        invariant forall id :: id in all ==> fresh(all[id]) && all[id].id == id && all[id].reservations == map[]
      {
        var tuner := new Tuner(TunerName(i));
        all := all[TunerName(i) := tuner];
      }
    }

    static lemma EmptyCoherent(s: Book)
      requires forall id :: id in s.tuners ==> s.tuners[id] == map[]
      requires s.preStartTimers == map[] && s.startTimers == map[] && s.expireTimers == map[]
      requires s.attrs == map[] && s.activations == map[] && "" !in s.tuners
      ensures Coherent(s)
    {
      assert forall id, t :: !Holds(s, id, t);
    }

    static function TunerName(i: nat): TunerId {
      "TunerId-" + Decimal(i)
    }

    static function Decimal(i: nat): string {
      if i < 10 then [DIGITS[i]] else Decimal(i / 10) + [DIGITS[i % 10]]
    }

    static const DIGITS: seq<char> := "0123456789"

    // What the tuners hold.
    ghost function AllHoldings(): map<TunerId, Holdings>
      reads tuners.Values
    {
      map id | id in tuners :: tuners[id].reservations
    }

    // The book this object stands for.
    ghost function View(): Book
      reads this, tuners.Values
    {
      Book(deviceId, now, AllHoldings(), preStartTimers, startTimers, expireTimers, attrs, localTuner, activations)
    }

    // The whole state this object stands for.
    ghost function StateView(): State
      reads this, tuners.Values
    {
      State(View(), uuid, issued, pendingRequests, pendingRequestTimers, seen, granted, cancelled)
    }

    // Tuners are distinct objects, each known by its own id, and the parallel maps agree.
    ghost predicate Valid()
      reads this, tuners.Values
    {
      Apart() && Coherent(View())
    }

    lemma ViewIs()
      ensures View().deviceId == deviceId && View().now == now && View().local == localTuner
      ensures View().(local := localTuner) == View()
      ensures View().startTimers == startTimers && View().expireTimers == expireTimers
    {
    }

    lemma AllViewed(ids: seq<TunerId>)
      requires forall id :: id in ids ==> id in tuners
      ensures forall id :: id in ids ==> id in View().tuners
    {
    }

    lemma StateIs()
      ensures StateView() == State(View(), uuid, issued, pendingRequests, pendingRequestTimers, seen, granted, cancelled)
    {
    }

    // History: a reserve request has been served.
    ghost method Saw(id: Uuid)
      modifies this`seen
      ensures StateView() == old(StateView()).(seen := old(seen) + {id})
      ensures View() == old(View()) && (old(Valid()) ==> Valid())
    {
      seen := seen + {id};
    }

    // History: a request has been granted a reservation.
    ghost method Gave(id: Uuid)
      modifies this`granted
      ensures StateView() == old(StateView()).(granted := old(granted) + multiset{id})
      ensures View() == old(View()) && (old(Valid()) ==> Valid())
    {
      granted := granted + multiset{id};
    }

    // History: the user withdrew a request.
    ghost method Withdrew(id: Uuid)
      modifies this`cancelled
      ensures StateView() == old(StateView()).(cancelled := old(cancelled) + {id})
    {
      cancelled := cancelled + {id};
    }

    // GenerateUUID.
    method GenerateUuid() returns (id: Uuid)
      modifies this`issued
      ensures id == Minted(old(StateView()))
      ensures StateView() == old(StateView()).(issued := old(issued) + 1)
      ensures View() == old(View()) && (old(Valid()) ==> Valid())
    {
      id := uuid(issued);
      issued := issued + 1;
    }

    lemma StillValid(s: Book)
      requires Apart() && Coherent(s) && StateView().book == s
      ensures Valid()
    {
    }

    lemma IsCoherent()
      requires Valid()
      ensures Apart() && Coherent(View()) && StateView().book == View()
    {
    }

    lemma KnowsAll()
      ensures forall id :: id in View().tuners <==> id in tuners
    {
    }

    lemma KnowsIds(ids: seq<TunerId>)
      requires ids == TunerIds(View())
      ensures forall id :: id in ids ==> id in tuners
    {
    }

    lemma IsApart()
      requires Valid()
      ensures Apart()
    {
    }

    lemma ViewAt(id: TunerId)
      ensures id in tuners <==> id in View().tuners
      ensures id in tuners ==> View().tuners[id] == tuners[id].reservations
    {
    }

    // ---------------------------------------------------------------- queries

    method GetTunerIds() returns (ids: seq<TunerId>)
      ensures ids == TunerIds(View())
    {
      ids := [];
      var order := Sorted(tuners.Keys);
      for i := 0 to |order|
        invariant ids == order[..i]
      {
        ids := ids + [order[i]];
      }
      assert View().tuners.Keys == tuners.Keys;
    }

    method GetReservationTokens(ids: seq<TunerId>) returns (tokens: seq<Token>)
      requires forall id :: id in ids ==> id in tuners
      ensures tokens == TokensOn(View(), ids)
    {
      hide TokensOn, Sorted;
      tokens := [];
      ghost var s := View();
      assert ids[0..] == ids;
      for i := 0 to |ids|
        invariant forall id :: id in ids[i..] ==> id in s.tuners
        invariant TokensOn(s, ids) == tokens + TokensOn(s, ids[i..])
      {
        TokensOnStep(s, ids, i);
        tokens := tuners[ids[i]].GetReservationTokens(tokens);
      }
      assert ids[|ids|..] == [] && tokens + [] == tokens;
      TokensOnNone(s);
    }

    static lemma TokensOnNone(s: Book)
      ensures TokensOn(s, []) == []
    {
    }

    static method Contains(tokens: seq<Token>, token: Token) returns (found: bool)
      ensures found <==> token in tokens
    {
      for i := 0 to |tokens|
        invariant forall k :: 0 <= k < i ==> tokens[k] != token
      {
        if tokens[i] == token {
          return true;
        }
      }
      found := false;
    }

    // The tuner that holds a token: a walk over all tuners and their token lists.
    method GetParent(token: Token) returns (parent: Option<TunerId>)
      ensures parent.Some? <==> IsHeld(View(), token)
      ensures parent.Some? ==> parent.value == HomeOf(View(), token)
      ensures parent.Some? ==> parent.value in tuners && token in tuners[parent.value].reservations
    {
      ghost var s := View();
      var ids := Sorted(tuners.Keys);
      HolderIs(token, ids);
      assert ids[0..] == ids && ids[|ids|..] == [];
      hide *;
      for i := 0 to |ids|
        invariant View() == s && FirstHolder(s, ids, token) == FirstHolder(s, ids[i..], token)
      {
        FirstHolderStep(s, ids, i, token);
        var found := HoldsToken(ids[i], token, s);
        if found {
          return Some(ids[i]);
        }
      }
      NoHolder(s, token);
      parent := None;
    }

    method HoldsToken(id: TunerId, token: Token, ghost s: Book) returns (found: bool)
      requires id in tuners && View() == s
      ensures View() == s && (found <==> Holds(s, id, token))
      ensures found ==> token in tuners[id].reservations
    {
      ViewAt(id);
      hide View, Sorted;
      var tokens := tuners[id].GetReservationTokens([]);
      found := Contains(tokens, token);
    }

    lemma HolderIs(token: Token, ids: seq<TunerId>)
      requires ids == Sorted(tuners.Keys)
      ensures forall i :: 0 <= i < |ids| ==> ids[i] in tuners
      ensures IsHeld(View(), token) <==> FirstHolder(View(), ids, token).Some?
      ensures IsHeld(View(), token) ==> Some(HomeOf(View(), token)) == FirstHolder(View(), ids, token)
    {
      assert View().tuners.Keys == tuners.Keys;
      assert forall i :: 0 <= i < |ids| ==> ids[i] in ids;
      hide Sorted, FirstHolder;
    }

    static lemma FirstHolderStep(s: Book, ids: seq<TunerId>, i: nat, t: Token)
      requires i < |ids|
      ensures FirstHolder(s, ids[i..], t) == if Holds(s, ids[i], t) then Some(ids[i]) else FirstHolder(s, ids[i + 1..], t)
    {
      assert ids[i..][1..] == ids[i + 1..];
    }

    static lemma NoHolder(s: Book, t: Token)
      ensures FirstHolder(s, [], t) == None
    {
    }

    method GetReservation(token: Token) returns (r: Option<Reservation>)
      ensures r.Some? <==> IsHeld(View(), token)
      ensures r.Some? ==> r.value == Lookup(View(), token)
    {
      var parent := GetParent(token);
      if parent.None? {
        return None;
      }
      ViewAt(parent.value);
      hide View, IsHeld, HomeOf;
      r := Some(tuners[parent.value].reservations[token]);
    }

    // The tokens a client owns, in the order of the attributes.
    method GetClientTokens(client: ClientId) returns (tokens: seq<Token>)
      ensures forall t :: t in tokens <==> t in attrs && attrs[t] == client
    {
      tokens := [];
      var order := Sorted(attrs.Keys);
      for i := 0 to |order|
        invariant forall t :: t in tokens <==> t in order[..i] && t in attrs && attrs[t] == client
      {
        assert order[..i + 1] == order[..i] + [order[i]] && order[i] in order;
        if attrs[order[i]] == client {
          tokens := tokens + [order[i]];
        }
      }
      assert order[..|order|] == order;
    }

    // ---------------------------------------------------------------- the filters

    method TunerPassesTest(id: TunerId, test: TunerTest) returns (passes: bool)
      requires id in tuners && tuners[id].id == id
      ensures passes == TunerPasses(id, tuners[id].reservations, test)
    {
      var tuner := tuners[id];
      match test
      case ByTunerId(x) =>
        passes := tuner.id == x;
      case ByTunerState(state) =>
        var current := tuner.GetState();
        passes := current == state;
      case ByTunerLocator(locator) =>
        var current := tuner.GetServiceLocator(true);
        passes := current == "" || current == locator;
      case ByTunerEndBefore(end) =>
        passes := EndsBefore(tuner, end);
    }

    static method EndsBefore(tuner: Tuner, end: nat) returns (ended: bool)
      ensures ended <==> RecordsEndBy(tuner.reservations, end)
    {
      var beyondEndTime := false;
      var tokens := tuner.GetReservationTokens([]);
      for i := 0 to |tokens|
        invariant beyondEndTime <==>
          exists k :: 0 <= k < i && tuner.reservations[tokens[k]].activity == Record && tuner.reservations[tokens[k]].End() > end
      {
        var r := tuner.reservations[tokens[i]];
        if r.activity == Record && r.End() > end {
          beyondEndTime := true;
        }
      }
      assert forall t :: t in tuner.reservations ==> t in tokens;
      ended := !beyondEndTime;
    }

    // The same in terms of the book.
    method Passes(id: TunerId, test: TunerTest, ghost s: Book) returns (passes: bool)
      requires Valid() && id in tuners && View() == s
      ensures id in s.tuners && passes == TunerPasses(id, s.tuners[id], test)
      ensures Valid() && View() == s
    {
      ViewAt(id);
      hide TunerPasses, View, Coherent;
      passes := TunerPassesTest(id, test);
    }

    // Erases from a list of tuners those that fail the test.
    method FilterTuners(test: TunerTest, ids: seq<TunerId>) returns (list: seq<TunerId>)
      requires Valid() && forall id :: id in ids ==> id in tuners
      ensures list == KeepTuners(View(), test, ids)
      ensures forall id :: id in list ==> id in tuners
    {
      hide *;
      list := ids;
      var it := 0;
      ghost var s := View();
      assert list[0..] == list;
      while it < |list|
        invariant 0 <= it <= |list|
        invariant Valid() && View() == s && forall id :: id in list ==> id in tuners
        invariant KeepTuners(s, test, ids) == list[..it] + KeepTuners(s, test, list[it..])
        decreases |list| - it
      {
        assert list[it] in list;
        var passes := Passes(list[it], test, s);
        KeepTunersStep(s, test, list, it);
        if !passes {
          list := Erase(list, it);
        } else {
          assert list[..it + 1] == list[..it] + [list[it]];
          it := it + 1;
        }
      }
      assert list[it..] == [] && list[..it] == list;
      KeptNothing(s, test);
    }

    static lemma KeptNothing(s: Book, test: TunerTest)
      ensures KeepTuners(s, test, []) == []
    {
    }

    // Erases from a list of tokens those whose reservation fails the test.
    method FilterTokens(test: TokenTest, tokens: seq<Token>) returns (list: seq<Token>)
      ensures list == KeepTokens(View(), test, tokens)
    {
      hide KeepTokens, TokenPasses, Valid, IsHeld, Lookup;
      list := tokens;
      var it := 0;
      ghost var s := View();
      assert list[0..] == list;
      while it < |list|
        invariant 0 <= it <= |list|
        invariant KeepTokens(s, test, tokens) == list[..it] + KeepTokens(s, test, list[it..])
        decreases |list| - it
      {
        var r := GetReservation(list[it]);
        PassesLooked(s, list[it], test);
        KeepTokensStep(s, test, list, it);
        if r.None? || !ReservationPasses(r.value, test) {
          list := Erase(list, it);
        } else {
          assert list[..it + 1] == list[..it] + [list[it]];
          it := it + 1;
        }
      }
      assert list[it..] == [] && list[..it] == list;
      KeptNoTokens(s, test);
    }

    static lemma PassesLooked(s: Book, t: Token, test: TokenTest)
      ensures TokenPasses(s, t, test) <==> IsHeld(s, t) && ReservationPasses(Lookup(s, t), test)
    {
    }

    static lemma KeptNoTokens(s: Book, test: TokenTest)
      ensures KeepTokens(s, test, []) == []
    {
    }

    method TunersInState(state: TunerState) returns (ids: seq<TunerId>)
      requires Valid()
      ensures ids == IdsInState(View(), state)
      ensures forall id :: id in ids ==> id in tuners
    {
      ids := GetTunerIds();
      ids := FilterTuners(ByTunerState(state), ids);
    }

    // ---------------------------------------------------------------- the search loops

    method TunerMeets(id: TunerId, c: Criterion) returns (meets: bool)
      requires id in tuners
      ensures meets == Meets(tuners[id].reservations, c)
    {
      var tuner := tuners[id];
      match c
      case SharesRecording(locator) =>
        var found := tuner.GetReservation(Record, ACTIVE, "");
        meets := found.Some? && tuner.reservations[found.value].locator == locator;
      case AwaitsRecording(locator) =>
        var found := tuner.GetReservation(Record, IDLE, "");
        meets := found.Some? && tuner.reservations[found.value].locator == locator;
      case Untouched =>
        var tokens := tuner.GetReservationTokens([]);
        Counted(tuner.reservations);
        meets := |tokens| == 0;
      case AnyFuture =>
        var found := tuner.GetReservation(Record, IDLE, "");
        meets := found.Some?;
      case BackToBack(locator, start) =>
        var found := tuner.GetReservation(Record, IDLE, locator);
        var end := tuner.GetEndTime(Record);
        meets := found.Some? && end <= start;
      case LoneLive(locator) =>
        var tokens := tuner.GetReservationTokens([]);
        var current := tuner.GetServiceLocator(false);
        Counted(tuner.reservations);
        meets := |tokens| == 1 && current == locator;
      case TakesRecording(locator, clock) =>
        var tokens := tuner.GetReservationTokens([]);
        Counted(tuner.reservations);
        if |tokens| == 1 {
          var r := tuner.reservations[tokens[0]];
          SingleKey(tuner.reservations, tokens[0]);
          meets := r.activity == Live && r.phase == IDLE && r.locator == locator && r.start <= clock;
        } else {
          meets := |tokens| == 0;
        }
    }

    static lemma Counted(h: Holdings)
      ensures |Sorted(h.Keys)| == |h|
      ensures |h| == 0 <==> h == map[]
    {
      SortedAscends(h.Keys);
    }

    // The first tuner of a list that meets the criterion.
    method FirstTuner(ids: seq<TunerId>, c: Criterion) returns (r: Option<TunerId>)
      requires forall id :: id in ids ==> id in tuners
      ensures r == FirstMeeting(View(), ids, c)
    {
      ghost var s := View();
      hide Meets, FirstMeeting, View;
      assert ids[0..] == ids && ids[|ids|..] == [];
      FirstMeetingOfNone(s, c);
      for i := 0 to |ids|
        invariant FirstMeeting(s, ids, c) == FirstMeeting(s, ids[i..], c)
      {
        FirstMeetingStep(s, ids, i, c);
        ViewAt(ids[i]);
        var meets := TunerMeets(ids[i], c);
        if meets {
          return Some(ids[i]);
        }
      }
      r := None;
    }

    // The first tuner in a state that meets the criterion.
    method FirstInState(state: TunerState, c: Criterion) returns (r: Option<TunerId>)
      requires Valid()
      ensures r == FirstMeeting(View(), IdsInState(View(), state), c)
      ensures r.Some? ==> r.value in tuners
    {
      hide *;
      var ids := TunersInState(state);
      r := FirstTuner(ids, c);
    }

    // The last one, for a loop that does not stop at its first find.
    method LastTuner(ids: seq<TunerId>, c: Criterion) returns (r: Option<TunerId>)
      requires forall id :: id in ids ==> id in tuners
      ensures r == LastMeeting(View(), ids, c)
    {
      r := None;
      ghost var s := View();
      hide Meets, LastMeeting, View;
      LastMeetingOfNone(s, c);
      for i := 0 to |ids|
        invariant r == LastMeeting(s, ids[..i], c)
      {
        LastMeetingStep(s, ids, i, c);
        ViewAt(ids[i]);
        var meets := TunerMeets(ids[i], c);
        if meets {
          r := Some(ids[i]);
        }
      }
      assert ids[..|ids|] == ids;
    }

    method SetLocalTuner(id: TunerId)
      modifies this`localTuner
      ensures localTuner == id && View() == old(View()).(local := id)
      ensures old(Valid()) ==> Valid()
    {
      if Valid() {
        LocalCoherent(View(), id);
      }
      hide Coherent;
      localTuner := id;
    }

    // ---------------------------------------------------------------- adding and releasing

    ghost predicate Apart() {
      forall id :: id in tuners ==> tuners[id].id == id
    }

    // Exchanging the reservations of one tuner leaves the view of every other tuner alone.
    twostate lemma ViewOfOne(id: TunerId)
      requires Apart() && id in tuners
      requires forall x :: x in tuners && x != id ==> tuners[x].reservations == old(tuners[x].reservations)
      ensures View().tuners == old(View()).tuners[id := tuners[id].reservations]
    {
    }

    // Adds a reservation, its timers and its attributes.
    method AddReservation(r: Reservation, id: TunerId, client: ClientId) returns (outcome: AddOutcome)
      requires Apart() && id in tuners
      modifies this`preStartTimers, this`startTimers, this`expireTimers, this`attrs, this`activations, tuners[id]
      ensures (View(), outcome) == Insert(old(View()), r, id, client)
    {
      InsertIs(View(), r, id, client);
      RecastSame(View(), id);
      assert View().tuners[id] == tuners[id].reservations;
      hide AddResult, Insert;
      outcome := tuners[id].AddReservation(r);
      ViewOfOne(id);
      assert View() == Recast(old(View()), id, tuners[id].reservations);
      AddOutcomes(old(View()).tuners[id], r);
      if outcome == Added {
        if r.token in preStartTimers || r.token in startTimers || r.token in expireTimers {
          outcome := Torn;
        } else {
          AddTimers(r, client);
        }
      }
    }

    // The timers and attributes of a new reservation.
    method AddTimers(r: Reservation, client: ClientId)
      modifies this`preStartTimers, this`startTimers, this`expireTimers, this`attrs, this`activations
      ensures View() == Timed(old(View()), r, client)
    {
      preStartTimers := preStartTimers[r.token := Timers.SetAt(r.token, r.start - 250, now)];
      startTimers := startTimers[r.token := Timers.SetAt(r.token, r.start, now)];
      expireTimers := expireTimers[r.token := Timers.SetIn(r.token, Remaining(now, r), now)];
      attrs := attrs[r.token := client];
      activations := activations[r.token := 0];
    }

    static ghost function Timed(s: Book, r: Reservation, client: ClientId): Book {
      s.(preStartTimers := s.preStartTimers[r.token := Timers.SetAt(r.token, r.start - 250, s.now)],
         startTimers := s.startTimers[r.token := Timers.SetAt(r.token, r.start, s.now)],
         expireTimers := s.expireTimers[r.token := Timers.SetIn(r.token, Remaining(s.now, r), s.now)],
         attrs := s.attrs[r.token := client],
         activations := s.activations[r.token := 0])
    }

    static lemma InsertIs(s: Book, r: Reservation, id: TunerId, client: ClientId)
      requires id in s.tuners
      ensures var (h, outcome) := AddResult(s.tuners[id], r);
        var timed := r.token in s.preStartTimers || r.token in s.startTimers || r.token in s.expireTimers;
        Insert(s, r, id, client) ==
          if outcome == Refused then (s, Refused)
          else if outcome == Torn || timed then (Recast(s, id, h), Torn)
          else (Timed(Recast(s, id, h), r, client), Added)
    {
    }

    static lemma AddOutcomes(h: Holdings, r: Reservation)
      ensures AddResult(h, r).1 == Refused ==> AddResult(h, r).0 == h
    {
    }

    static lemma RecastSame(s: Book, id: TunerId)
      requires id in s.tuners
      ensures Recast(s, id, s.tuners[id]) == s
    {
      assert s.tuners[id := s.tuners[id]] == s.tuners;
    }

    // Releases a token with its timers and attributes. Once the token is found nothing can fail.
    method ReleaseReservation(token: Token) returns (found: bool)
      requires Valid()
      modifies this`preStartTimers, this`startTimers, this`expireTimers, this`attrs, this`activations, tuners.Values
      ensures found == IsHeld(old(View()), token)
      ensures View() == if found then Drop(old(View()), token) else old(View())
      ensures Valid()
    {
      var parent := GetParent(token);
      if parent.None? {
        return false;
      }
      assert token in expireTimers && token in attrs && tuners[parent.value].reservations[token].token == token by {
        HeldKeys(View(), token);
      }
      DropCoherent(View(), token);
      DropFrom(View(), parent.value, token);
      hide Coherent, IsHeld, Drop, View;
      EraseToken(token, parent.value);
      found := true;
    }

    method EraseToken(token: Token, parent: TunerId)
      requires Apart() && parent in tuners
      requires token in tuners[parent].reservations ==> tuners[parent].reservations[token].token == token
      modifies this`preStartTimers, this`startTimers, this`expireTimers, this`attrs, this`activations, tuners.Values
      ensures View() == DroppedFrom(old(View()), parent, token)
    {
      preStartTimers := preStartTimers - {token};
      startTimers := startTimers - {token};
      expireTimers := expireTimers - {token};
      attrs := attrs - {token};
      activations := activations - {token};
      var raised := tuners[parent].ReleaseReservation(token);
      ViewOfOne(parent);
    }

    static ghost function DroppedFrom(s: Book, id: TunerId, t: Token): Book
      requires id in s.tuners
    {
      s.(tuners := s.tuners[id := s.tuners[id] - {t}],
         preStartTimers := s.preStartTimers - {t}, startTimers := s.startTimers - {t},
         expireTimers := s.expireTimers - {t}, attrs := s.attrs - {t}, activations := s.activations - {t})
    }

    static lemma HeldKeys(s: Book, t: Token)
      requires Coherent(s) && IsHeld(s, t)
      ensures t in s.expireTimers && t in s.attrs && s.tuners[HomeOf(s, t)][t].token == t
    {
    }

    // A token with one home is dropped by dropping it there.
    static lemma DropFrom(s: Book, id: TunerId, t: Token)
      requires OneHome(s) && IsHeld(s, t) && id == HomeOf(s, t)
      ensures Drop(s, t) == DroppedFrom(s, id, t)
    {
      forall x | x in s.tuners && x != id ensures s.tuners[x] - {t} == s.tuners[x] {
        assert !Holds(s, x, t);
      }
      assert Drop(s, t).tuners == s.tuners[id := s.tuners[id] - {t}];
    }

    // ---------------------------------------------------------------- start and expiration

    // Passing a message to a client's connection raises when there is none.
    static method Send(client: ClientId, online: set<ClientId>) returns (raised: bool)
      ensures raised <==> client !in online
    {
      raised := client !in online;
    }

    // Puts the ACTIVE Lives of a Hybrid tuner on the locator of its first ACTIVE Record and tells their
    // viewers. A viewer that cannot be told does not matter: each notice is sent after its locator is
    // set, and each failure is caught before the next Live.
    method SyncHybrid(id: TunerId, online: set<ClientId>) returns (raised: bool, told: seq<Token>)
      requires id in tuners && forall t :: t in tuners[id].reservations ==> t in attrs
      modifies tuners[id]
      ensures tuners[id].reservations == Synced(old(tuners[id].reservations))
      ensures raised == SyncRaises(old(tuners[id].reservations))
      ensures forall t :: t in told <==> ToTell(old(tuners[id].reservations), t) && attrs[t] in online
    {
      var tuner := tuners[id];
      raised, told := false, [];
      var state := tuner.GetState();
      if state == HybridState {
        var found := tuner.GetReservation(Record, ACTIVE, "");
        var recordLocator := if found.Some? then tuner.reservations[found.value].locator else "";
        if recordLocator == "" {
          return true, [];
        }
        told := RetuneLives(tuner, recordLocator, online);
      }
    }

    // A Live that synchronisation moves to another locator.
    static ghost predicate ToTell(h: Holdings, t: Token) {
      StateOf(h) == HybridState && RecordLocator(h) != "" && t in h && Moves(h[t], RecordLocator(h))
    }

    static predicate Moves(r: Reservation, locator: Locator) {
      r.phase == ACTIVE && r.activity == Live && r.locator != locator
    }

    method RetuneLives(tuner: Tuner, locator: Locator, online: set<ClientId>) returns (told: seq<Token>)
      requires forall t :: t in tuner.reservations ==> t in attrs
      modifies tuner
      ensures tuner.reservations == AllRetuned(old(tuner.reservations), locator)
      ensures forall t :: t in told <==>
        t in old(tuner.reservations) && Moves(old(tuner.reservations)[t], locator) && attrs[t] in online
    {
      var tokens := tuner.GetReservationTokens([]);
      RetunedAll(tuner.reservations, locator, tokens);
      assert forall t :: t in tuner.reservations <==> t in tokens;
      hide *;
      told := RetuneEach(tuner, tokens, locator, online);
    }

    method RetuneEach(tuner: Tuner, tokens: seq<Token>, locator: Locator, online: set<ClientId>) returns (told: seq<Token>)
      requires forall i :: 0 <= i < |tokens| ==> tokens[i] in tuner.reservations && tokens[i] in attrs
      modifies tuner
      ensures tuner.reservations == RetunedAmong(old(tuner.reservations), locator, tokens)
      ensures forall t :: t in told <==>
        t in tokens && Moves(old(tuner.reservations)[t], locator) && attrs[t] in online
    {
      ghost var h := tuner.reservations;
      RetunedNone(h, locator);
      assert tokens[..0] == [] && tokens[..|tokens|] == tokens;
      told := [];
      hide *;
      for i := 0 to |tokens|
        invariant tuner.reservations == RetunedAmong(h, locator, tokens[..i])
        invariant forall t :: t in told <==> t in tokens[..i] && Moves(h[t], locator) && attrs[t] in online
      {
        assert tokens[..i + 1] == tokens[..i] + [tokens[i]];
        RetunedNext(h, locator, tokens[..i], tokens[i]);
        var sent := RetuneLive(tuner, tokens[i], locator, online);
        if sent {
          told := told + [tokens[i]];
        }
      }
    }

    static lemma RetunedNone(h: Holdings, locator: Locator)
      ensures RetunedAmong(h, locator, []) == h
    {
    }

    static lemma RetunedAll(h: Holdings, locator: Locator, tokens: seq<Token>)
      requires tokens == Sorted(h.Keys)
      ensures RetunedAmong(h, locator, tokens) == AllRetuned(h, locator)
      ensures forall i :: 0 <= i < |tokens| ==> tokens[i] in h
    {
      assert forall i :: 0 <= i < |tokens| ==> tokens[i] in tokens;
    }

    // One turn of the loop: set the locator, then try to tell the viewer.
    method RetuneLive(tuner: Tuner, t: Token, locator: Locator, online: set<ClientId>) returns (sent: bool)
      requires t in tuner.reservations && t in attrs
      modifies tuner
      ensures tuner.reservations == old(tuner.reservations)[t := Retuned(old(tuner.reservations)[t], locator)]
      ensures sent <==> Moves(old(tuner.reservations)[t], locator) && attrs[t] in online
    {
      var r := tuner.reservations[t];
      if r.phase == ACTIVE && r.activity == Live && r.locator != locator {
        tuner.SetServiceLocator(t, locator);
        var lost := Send(attrs[t], online);
        sent := !lost;
      } else {
        SameUpdate(tuner.reservations, t);
        sent := false;
      }
    }

    static ghost function RetunedAmong(h: Holdings, locator: Locator, done: seq<Token>): Holdings {
      map t | t in h :: if t in done then Retuned(h[t], locator) else h[t]
    }

    static lemma RetunedNext(h: Holdings, locator: Locator, done: seq<Token>, t: Token)
      requires t in h
      ensures var m := RetunedAmong(h, locator, done);
        t in m && RetunedAmong(h, locator, done + [t]) == m[t := Retuned(m[t], locator)]
        && (Moves(m[t], locator) <==> t !in done && Moves(h[t], locator))
    {
    }

    static lemma SameUpdate(h: Holdings, t: Token)
      requires t in h
      ensures h[t := h[t]] == h
    {
    }

    // Makes a reservation ACTIVE and synchronises its tuner.
    method Activate(token: Token, id: TunerId, online: set<ClientId>) returns (raised: bool)
      requires Apart() && id in tuners && token in tuners[id].reservations
      requires forall t :: t in tuners[id].reservations ==> t in attrs
      modifies tuners[id]
      ensures var h := Activated(old(View()).tuners[id], token);
        View() == Recast(old(View()), id, Synced(h)) && raised == SyncRaises(h)
    {
      hide Synced, SyncRaises;
      assert View().tuners[id] == tuners[id].reservations;
      tuners[id].SetPhase(token, ACTIVE);
      var told;
      raised, told := SyncHybrid(id, online);
      ViewOfOne(id);
    }

    // The start timer's task. It tells viewers and the tuner agent; whom it reaches makes no difference.
    method RunStartTask(token: Token, online: set<ClientId>)
      requires Valid()
      modifies this`expireTimers, this`activations, tuners.Values
      ensures View() == Start(old(View()), token)
      ensures Valid()
    {
      StartCoherent(View(), token);
      var parent := GetParent(token);
      if parent.None? || tuners[parent.value].reservations[token].phase != IDLE {
        return;
      }
      StartBook(View(), token);
      AllAttributed(parent.value);
      hide Coherent, Start, IsHeld, View;
      StartHeld(token, parent.value, online);
    }

    lemma AllAttributed(id: TunerId)
      requires Valid() && id in tuners
      ensures forall t :: t in tuners[id].reservations ==> t in attrs
    {
      forall t | t in tuners[id].reservations ensures t in attrs {
        assert Holds(View(), id, t);
      }
    }

    // The same for a reservation known to be held and IDLE.
    method StartHeld(token: Token, id: TunerId, online: set<ClientId>)
      requires Apart() && id in tuners && token in tuners[id].reservations
      requires forall t :: t in tuners[id].reservations ==> t in attrs
      modifies this`expireTimers, this`activations, tuners.Values
      ensures IsHeld(old(View()), token) && id == HomeOf(old(View()), token) ==>
        View() == WithTimers(Recast(old(View()), id, StartedTuner(old(View()), token)),
                             StartedCounts(old(View()), token), StartedTimers(old(View()), token))
    {
      var r := tuners[id].reservations[token];
      ghost var s := View();
      hide *;
      ViewAt(id);
      HeldStarts(s, token, id);
      var raised := Activate(token, id, online);
      if !raised {
        Pretune(r, online);
      }
      RestartTimer(token, r, raised);
    }

    // The notice to the tuner agent about a starting Live.
    static method Pretune(r: Reservation, online: set<ClientId>) {
      if r.activity == Live && r.Detail("ppv") != "true" {
        var lost := Send(TUNER_AGENT, online);
      }
    }

    // The expiration timer is set again, from the window; the activation is counted.
    method RestartTimer(token: Token, r: Reservation, raised: bool)
      modifies this`expireTimers, this`activations
      ensures View() == Restarted(old(View()), token, r, raised)
    {
      activations := activations[token := (if token in activations then activations[token] else 0) + 1];
      if !raised && token in expireTimers {
        expireTimers := expireTimers[token := Timers.SetIn(token, Remaining(now, r), now)];
      }
    }

    // The expiration timer's task: EXPIRED is set and the release follows at once.
    method RunExpirationTask(token: Token)
      requires Valid()
      modifies this`preStartTimers, this`startTimers, this`expireTimers, this`attrs, this`activations, tuners.Values
      ensures View() == Expire(old(View()), token)
      ensures Valid()
    {
      var parent := GetParent(token);
      if parent.None? {
        return;
      }
      ExpiredDrops(View(), parent.value, token);
      hide Coherent, Drop, IsHeld, Expired, View;
      MarkExpired(token, parent.value);
      var found := ReleaseReservation(token);
    }

    static ghost function Expired(s: Book, id: TunerId, t: Token): Book
      requires id in s.tuners && t in s.tuners[id]
    {
      Recast(s, id, s.tuners[id][t := s.tuners[id][t].(phase := EXPIRED)])
    }

    method MarkExpired(token: Token, id: TunerId)
      requires Apart() && id in tuners && token in tuners[id].reservations
      modifies tuners[id]
      ensures View() == Expired(old(View()), id, token)
    {
      assert View().tuners[id] == tuners[id].reservations;
      tuners[id].SetPhase(token, EXPIRED);
      ViewOfOne(id);
    }

    static lemma ExpiredDrops(s: Book, id: TunerId, t: Token)
      requires Coherent(s) && IsHeld(s, t) && id == HomeOf(s, t)
      ensures Coherent(Expired(s, id, t)) && IsHeld(Expired(s, id, t), t)
      ensures Drop(Expired(s, id, t), t) == Drop(s, t)
    {
      ExpiredKeeps(s, id, t);
      RecastCoherent(s, id, Expired(s, id, t).tuners[id]);
      hide Coherent;
      ExpiredDropped(s, id, t);
    }

    static lemma ExpiredKeeps(s: Book, id: TunerId, t: Token)
      requires id in s.tuners && t in s.tuners[id]
      ensures var h := Expired(s, id, t).tuners[id];
        Expired(s, id, t) == Recast(s, id, h) && SameWindows(s.tuners[id], h) && IsHeld(Expired(s, id, t), t)
    {
      assert Holds(Expired(s, id, t), id, t);
    }

    static lemma ExpiredDropped(s: Book, id: TunerId, t: Token)
      requires id in s.tuners && t in s.tuners[id]
      ensures Drop(Expired(s, id, t), t) == Drop(s, t)
    {
      var s' := Expired(s, id, t);
      assert s'.tuners[id] - {t} == s.tuners[id] - {t};
      assert Drop(s', t).tuners == Drop(s, t).tuners;
    }

    // ---------------------------------------------------------------- the clocks go off

    method OnStartTimer(token: Token, online: set<ClientId>)
      requires Valid()
      modifies this`startTimers, this`expireTimers, this`activations, tuners.Values
      ensures View() == StartClock(old(View()), token)
      ensures Valid()
    {
      ViewIs();
      if token !in startTimers {
        return;
      }
      var ran := Timers.RunBy(startTimers[token], Timers.Fire(now));
      hide Valid, View, Start, StartMarked;
      MarkStart(token);
      if ran.Some? {
        RunStartTask(ran.value, online);
      }
    }

    method MarkStart(token: Token)
      requires Valid() && token in startTimers && View().startTimers == startTimers
      modifies this`startTimers
      ensures Valid() && View() == StartMarked(old(View()), token)
    {
      ghost var s := View();
      hide *;
      IsCoherent();
      MarkedSame(s, token);
      ClocksCoherent(s, StartMarked(s, token));
      FireStartClock(token);
      StateIs();
      StillValid(StartMarked(s, token));
    }

    method FireStartClock(token: Token)
      requires token in startTimers && View().startTimers == startTimers
      modifies this`startTimers
      ensures View() == StartMarked(old(View()), token)
    {
      startTimers := startTimers[token := Timers.Fired(startTimers[token], now)];
    }

    method MarkExpire(token: Token)
      requires Valid() && token in expireTimers && View().expireTimers == expireTimers
      modifies this`expireTimers
      ensures Valid() && View() == ExpireMarked(old(View()), token)
    {
      ghost var s := View();
      hide *;
      IsCoherent();
      MarkedSame(s, token);
      ClocksCoherent(s, ExpireMarked(s, token));
      FireExpireClock(token);
      StateIs();
      StillValid(ExpireMarked(s, token));
    }

    method FireExpireClock(token: Token)
      requires token in expireTimers && View().expireTimers == expireTimers
      modifies this`expireTimers
      ensures View() == ExpireMarked(old(View()), token)
    {
      expireTimers := expireTimers[token := Timers.Fired(expireTimers[token], now)];
    }

    method OnExpireTimer(token: Token)
      requires Valid()
      modifies this`preStartTimers, this`startTimers, this`expireTimers, this`attrs, this`activations, tuners.Values
      ensures View() == ExpireClock(old(View()), token)
      ensures Valid()
    {
      ViewIs();
      if token !in expireTimers {
        return;
      }
      var ran := Timers.RunBy(expireTimers[token], Timers.Fire(now));
      hide Valid, View, Expire, ExpireMarked;
      MarkExpire(token);
      if ran.Some? {
        RunExpirationTask(ran.value);
      }
    }

    method MarkPending(id: Uuid)
      requires id in pendingRequestTimers
      modifies this`pendingRequestTimers
      ensures StateView() == PendingMarked(old(StateView()), id)
    {
      pendingRequestTimers := pendingRequestTimers[id := Timers.Fired(pendingRequestTimers[id], now)];
    }

    // ---------------------------------------------------------------- pending requests

    // Whether a token is a temporary Record token of a pending conflict.
    method IsPendingConflict(token: Token) returns (found: bool)
      ensures found <==> token in Temps(pendingRequests)
    {
      found := false;
      var it := 0;
      while it < |pendingRequests| && !found
        invariant 0 <= it <= |pendingRequests|
        invariant found ==> token in Temps(pendingRequests)
        invariant !found ==> forall i :: 0 <= i < it ==> !NamesConflict(pendingRequests[i], token)
      {
        var p := pendingRequests[it];
        if p.ConflictEntry? {
          found := AmongConflicts(p.conflicts, token);
        }
        it := it + 1;
      }
    }

    static ghost predicate NamesConflict(p: Pending, token: Token) {
      p.ConflictEntry? && exists j :: 0 <= j < |p.conflicts| && p.conflicts[j].token == token
    }

    static method AmongConflicts(conflicts: seq<Reservation>, token: Token) returns (found: bool)
      ensures found <==> exists j :: 0 <= j < |conflicts| && conflicts[j].token == token
    {
      found := false;
      var it := 0;
      while it < |conflicts| && !found
        invariant 0 <= it <= |conflicts|
        invariant found <==> exists j :: 0 <= j < it && conflicts[j].token == token
      {
        found := conflicts[it].token == token;
        it := it + 1;
      }
    }

    method GetPendingRequest(id: Uuid) returns (p: Option<Pending>)
      ensures p == FindPending(pendingRequests, id)
    {
      var it := 0;
      assert pendingRequests[0..] == pendingRequests;
      while it < |pendingRequests|
        invariant 0 <= it <= |pendingRequests|
        invariant FindPending(pendingRequests, id) == FindPending(pendingRequests[it..], id)
      {
        assert pendingRequests[it..][1..] == pendingRequests[it + 1..];
        if pendingRequests[it].uuid == id {
          return Some(pendingRequests[it]);
        }
        it := it + 1;
      }
      p := None;
    }

    method AddPendingRequest(p: Pending, timeout: nat)
      modifies this`pendingRequests, this`pendingRequestTimers
      ensures StateView() == AddPending(old(StateView()), p, timeout)
    {
      pendingRequests := pendingRequests + [p];
      if p.uuid !in pendingRequestTimers {
        pendingRequestTimers := pendingRequestTimers[p.uuid := Timers.SetIn(p.uuid, timeout, now)];
      }
    }

    // The position of the first entry with the id, or the length of the list.
    static method IndexOfPending(list: seq<Pending>, id: Uuid) returns (it: nat)
      ensures it <= |list|
      ensures forall k :: 0 <= k < it ==> list[k].uuid != id
      ensures it < |list| ==> list[it].uuid == id
    {
      it := 0;
      while it < |list|
        invariant it <= |list| && forall k :: 0 <= k < it ==> list[k].uuid != id
      {
        if list[it].uuid == id {
          return;
        }
        it := it + 1;
      }
    }

    static lemma {:induction false} FoundAt(list: seq<Pending>, id: Uuid, it: nat)
      requires it <= |list| && forall k :: 0 <= k < it ==> list[k].uuid != id
      requires it < |list| ==> list[it].uuid == id
      ensures FindPending(list, id).Some? <==> it < |list|
      decreases it
    {
      if 0 < it { FoundAt(list[1..], id, it - 1); }
    }

    static lemma {:induction false} RemovedAt(list: seq<Pending>, id: Uuid, it: nat)
      requires it < |list| && forall k :: 0 <= k < it ==> list[k].uuid != id
      requires list[it].uuid == id
      ensures RemoveFirst(list, id) == list[..it] + list[it + 1..]
      decreases it
    {
      if 0 < it {
        RemovedAt(list[1..], id, it - 1);
        assert list[1..][..it - 1] == list[1..it] && list[1..][it..] == list[it + 1..];
        assert [list[0]] + list[1..it] == list[..it];
      }
    }

    static lemma RemovalIs(s: State, id: Uuid, it: nat)
      requires it <= |s.pending| && forall k :: 0 <= k < it ==> s.pending[k].uuid != id
      requires it < |s.pending| ==> s.pending[it].uuid == id
      ensures RemovePending(s, id) ==
        if it < |s.pending| then s.(pending := s.pending[..it] + s.pending[it + 1..], pendingTimers := s.pendingTimers - {id}) else s
    {
      FoundAt(s.pending, id, it);
      if it < |s.pending| { RemovedAt(s.pending, id, it); }
      hide FindPending, RemoveFirst;
    }

    // Erases the first entry with the id, and its timer.
    method RemovePendingRequest(id: Uuid)
      modifies this`pendingRequests, this`pendingRequestTimers
      ensures StateView() == RemovePending(old(StateView()), id)
    {
      var it := IndexOfPending(pendingRequests, id);
      RemovalIs(StateView(), id, it);
      hide RemovePending, AllHoldings;
      if it < |pendingRequests| {
        pendingRequestTimers := pendingRequestTimers - {id};
        pendingRequests := pendingRequests[..it] + pendingRequests[it + 1..];
      }
    }
  }
}
