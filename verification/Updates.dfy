// What a re-evaluation does to each conflict: a simple account of the loop over the growing list.
module Updates {
  import opened Domain
  import opened Registry
  import opened Invariants
  import opened Protocol
  import opened ProtocolInvariants
  import opened Reevaluation
  import opened ProtocolSteps
  import opened Timeouts
  import opened Retention
  import opened Contention

  // A conflict is over when its Live is gone or on the recording's channel.
  ghost predicate Over(b: Book, p: Pending)
    requires p.ConflictEntry?
  {
    forall id :: Holds(b, id, p.live.token) ==> b.tuners[id][p.live.token].locator == p.request.reservation.locator
  }

  // The state after the first k entries of the list: each conflict that is over has timed out, in order.
  ghost function After(s: State, online: set<ClientId>, k: nat): State
    requires k <= |s.pending|
    decreases k, 0
  {
    if k == 0 then s
    else if OverAt(s, online, k - 1) then ConflictTimeout(After(s, online, k - 1), online, s.pending[k - 1]).0
    else After(s, online, k - 1)
  }

  ghost predicate OverAt(s: State, online: set<ClientId>, k: nat)
    requires k < |s.pending|
    decreases k, 1
  {
    s.pending[k].ConflictEntry? && Over(After(s, online, k).book, s.pending[k])
  }

  // The timeout of the entry was completed.
  ghost predicate Completes(s: State, online: set<ClientId>, k: nat)
    requires k < |s.pending|
  {
    OverAt(s, online, k) && ConflictTimeout(After(s, online, k), online, s.pending[k]).1
  }

  ghost function CompletedIds(s: State, online: set<ClientId>, k: nat): seq<Uuid>
    requires k <= |s.pending|
  {
    if k == 0 then []
    else if Completes(s, online, k - 1) then CompletedIds(s, online, k - 1) + [s.pending[k - 1].uuid]
    else CompletedIds(s, online, k - 1)
  }

  // ---------------------------------------------------------------- the loop is that account

  lemma RipeMeans(s: State, p: Pending)
    requires OneHome(s.book) && Listed(s) && p in s.pending && p.ConflictEntry?
    ensures Ripe(s.book, p) <==> Over(s.book, p)
  {
    assert EntryOk(s.book.tuners.Keys, p);
    hide HomeOf, Listed;
  }

  // What holds of the state after k entries.
  ghost predicate Along(s: State, b: State, k: nat, done: seq<Uuid>) {
    && k <= |s.pending| && Walking(b, k, done)
    && Progress(s, b, AddedBy(s, b)) && (forall x :: x in AddedBy(s, b) ==> x.CancelLiveEntry?)
    && Grown(s.book, b.book) && OnlyDraws(s, b, None)
  }

  lemma AlongParts(s: State, b: State, k: nat, done: seq<Uuid>)
    requires Along(s, b, k, done)
    ensures k <= |s.pending| && Walking(b, k, done) && Grown(s.book, b.book) && OnlyDraws(s, b, None)
    ensures Progress(s, b, AddedBy(s, b)) && forall x :: x in AddedBy(s, b) ==> x.CancelLiveEntry?
    ensures |s.pending| <= |b.pending| && b.pending[..|s.pending|] == s.pending
    ensures forall j: nat :: j < |s.pending| ==> b.pending[j] == s.pending[j]
    ensures forall j :: |s.pending| <= j < |b.pending| ==> b.pending[j].CancelLiveEntry?
  {
    var added := AddedBy(s, b);
    assert b.pending == s.pending + added;
    forall j | |s.pending| <= j < |b.pending| ensures b.pending[j].CancelLiveEntry? {
      assert b.pending[j] == added[j - |s.pending|] && added[j - |s.pending|] in added;
    }
    hide Walking, Grown, Progress, AddedBy, OnlyDraws;
  }

  lemma AlongFrom(s: State, b: State, k: nat, done: seq<Uuid>)
    requires k <= |s.pending| && Walking(b, k, done) && Grown(s.book, b.book) && OnlyDraws(s, b, None)
    requires Progress(s, b, AddedBy(s, b)) && forall x :: x in AddedBy(s, b) ==> x.CancelLiveEntry?
    ensures Along(s, b, k, done)
  {
  }

  lemma {:induction false} AfterAlong(s: State, online: set<ClientId>, k: nat)
    requires Inv(s) && k <= |s.pending|
    ensures Along(s, After(s, online, k), k, CompletedIds(s, online, k))
    ensures Walk(s, online, 0, []) == Walk(After(s, online, k), online, k, CompletedIds(s, online, k))
    decreases k
  {
    hide *;
    var b, done := After(s, online, k), CompletedIds(s, online, k);
    if k == 0 {
      AfterNone(s, online);
      InvWalking(s);
      ProgressNone(s);
      GrownSame(s.book);
      NobodyAdded(s);
      SameDraws(s, s);
      AlongFrom(s, s, 0, []);
    } else {
      var b0, done0, p := After(s, online, k - 1), CompletedIds(s, online, k - 1), s.pending[k - 1];
      AfterAlong(s, online, k - 1);
      AlongParts(s, b0, k - 1, done0);
      AfterStep(s, online, k - 1);
      WalkingParts(b0, k - 1, done0);
      SoundParts(b0.book);
      WalkStep(b0, online, k - 1, done0);
      assert b0.pending[k - 1] == p && p in b0.pending;
      if p.ConflictEntry? { RipeMeans(b0, p); }
      if OverAt(s, online, k - 1) {
        OverAtMeans(s, online, k - 1);
        Visit(b0, online, k - 1, done0);
        ConflictGrows(b0, online, p);
        GrownTwice(s.book, b0.book, b.book);
        ConflictDraws(b0, online, p);
        ProgressParts(s, b0);
        DrawsTwice(s, b0, b);
        ProgressTwice(s, b0, b);
        AlongFrom(s, b, k, done);
      } else {
        OverAtMeans(s, online, k - 1);
        SettledSkip(b0.pending, k - 1, done0);
        WalkingFrom(b0, k, done0);
        AlongFrom(s, b0, k, done0);
      }
    }
  }

  lemma NobodyAdded(s: State)
    ensures AddedBy(s, s) == []
  {
  }

  lemma AfterNone(s: State, online: set<ClientId>)
    ensures After(s, online, 0) == s && CompletedIds(s, online, 0) == []
  {
  }

  lemma OverAtMeans(s: State, online: set<ClientId>, k: nat)
    requires k < |s.pending|
    ensures OverAt(s, online, k) <==> s.pending[k].ConflictEntry? && Over(After(s, online, k).book, s.pending[k])
  {
  }

  lemma AfterStep(s: State, online: set<ClientId>, k: nat)
    requires k < |s.pending|
    ensures OverAt(s, online, k) ==> s.pending[k].ConflictEntry?
    ensures After(s, online, k + 1) == if OverAt(s, online, k) then ConflictTimeout(After(s, online, k), online, s.pending[k]).0 else After(s, online, k)
    ensures Completes(s, online, k) <==> OverAt(s, online, k) && ConflictTimeout(After(s, online, k), online, s.pending[k]).1
    ensures CompletedIds(s, online, k + 1) ==
      if Completes(s, online, k) then CompletedIds(s, online, k) + [s.pending[k].uuid] else CompletedIds(s, online, k)
  {
    hide ConflictTimeout, Over;
  }

  // Past the original list the walk meets only questions to viewers, and ends as it stands.
  lemma {:induction false} WalkRest(b: State, online: set<ClientId>, i: nat, done: seq<Uuid>)
    requires i <= |b.pending| && forall j :: i <= j < |b.pending| ==> b.pending[j].CancelLiveEntry?
    ensures Walk(b, online, i, done) == (b, done)
    decreases |b.pending| - i
  {
    hide *;
    if i == |b.pending| {
      WalkEnds(b, online, done);
    } else {
      WalkStep(b, online, i, done);
      WalkRest(b, online, i + 1, done);
    }
  }

  // The re-evaluation ends in the state after all entries, without the entries whose timeout was completed.
  lemma ReevaluationIs(s: State, online: set<ClientId>)
    requires Inv(s)
    ensures var n := |s.pending|;
      var b, done := After(s, online, n), CompletedIds(s, online, n);
      && Along(s, b, n, done)
      && Reevaluate(s, online) == Cleaned(b, DoneSet(done))
      && Reevaluate(s, online).pending == Survivors(s.pending, DoneSet(done)) + AddedBy(s, b)
  {
    hide *;
    var n := |s.pending|;
    var b, done := After(s, online, n), CompletedIds(s, online, n);
    AfterAlong(s, online, n);
    AlongParts(s, b, n, done);
    WalkRest(b, online, n, done);
    ReevaluateEffect(s, online);
    WalkingParts(b, n, done);
    RemoveAllIs(b, done);
    ReevaluateUnfolds(s, online);
  }

  lemma ReevaluateUnfolds(s: State, online: set<ClientId>)
    ensures Reevaluate(s, online) == RemoveAll(Walk(s, online, 0, []).0, Walk(s, online, 0, []).1)
  {
    hide Walk, RemoveAll;
  }

  // ---------------------------------------------------------------- what becomes of one conflict

  // A Live whose token GenerateUUID can no longer hand out is as it was, whatever was granted meanwhile.
  lemma OverStays(s: State, b: State, p: Pending)
    requires p.ConflictEntry? && Grown(s.book, b.book) && OneHome(b.book) && OnlyDraws(s, b, None) && !Undrawn(s, p.live.token)
    ensures Over(b.book, p) <==> Over(s.book, p)
  {
    var t := p.live.token;
    forall id ensures Holds(b.book, id, t) <==> Holds(s.book, id, t) {
      if Holds(b.book, id, t) {
        assert IsHeld(b.book, t) && IsHeld(s.book, t);
        var i :| Holds(s.book, i, t);
        assert Holds(b.book, i, t);
      }
    }
  }

  lemma ViewerDrawn(s: State, k: nat)
    requires Inv(s) && k < |s.pending| && s.pending[k].ConflictEntry?
    ensures !Undrawn(s, s.pending[k].live.token)
  {
    assert s.pending[k].live.token in Viewers(s.pending);
  }

  // Two entries never stand for the same request, and none for one that was granted.
  lemma OneEntry(s: State, i: nat, j: nat)
    requires Inv(s) && i < j < |s.pending|
    requires !s.pending[i].CancelRecordingEntry? && !s.pending[j].CancelRecordingEntry?
    ensures s.pending[i].request.uuid != s.pending[j].request.uuid
  {
    var a, b, c := s.pending[..i], s.pending[i + 1..j], s.pending[j + 1..];
    var p, q := s.pending[i], s.pending[j];
    assert s.pending == a + ([p] + (b + ([q] + c)));
    ClaimsAppend(a, [p] + (b + ([q] + c)));
    ClaimsCons(p, b + ([q] + c));
    ClaimsAppend(b, [q] + c);
    ClaimsCons(q, c);
    var total := Claims(s.pending) + s.granted;
    assert Once(total, s.seen, s.cancelled);
    hide Claims, Inv;
    assert total[p.request.uuid] <= 1;
  }

  lemma NotGranted(s: State, i: nat)
    requires Inv(s) && i < |s.pending| && !s.pending[i].CancelRecordingEntry?
    ensures s.pending[i].request.uuid !in s.granted
  {
    var a, c, p := s.pending[..i], s.pending[i + 1..], s.pending[i];
    assert s.pending == a + ([p] + c);
    ClaimsAppend(a, [p] + c);
    ClaimsCons(p, c);
    var total := Claims(s.pending) + s.granted;
    assert Once(total, s.seen, s.cancelled);
    hide Claims, Inv;
    assert total[p.request.uuid] <= 1;
  }

  // A timeout grants and asks for its own request only.
  lemma OwnRequest(b: State, online: set<ClientId>, p: Pending)
    requires Listed(b) && p in b.pending && p.ConflictEntry?
    ensures var mid := ConflictTimeout(b, online, p).0;
      && (forall u :: u != p.request.uuid ==> mid.granted[u] == b.granted[u])
      && (forall x :: x in mid.pending ==> x in b.pending || (x.CancelLiveEntry? && x.request == p.request))
      && (forall x :: x in b.pending ==> x in mid.pending)
  {
    ConflictTimeoutIs(b, online, p);
    GrantOwn(b, p.request, p.parent);
    hide Grant, Listed, Emergency;
  }

  lemma GrantOwn(b: State, q: ReserveTuner, parent: TunerId)
    ensures var mid := Grant(b, q, parent).0;
      mid.pending == b.pending && forall u :: u != q.uuid ==> mid.granted[u] == b.granted[u]
  {
    hide Insert, GrantedRecord;
  }

  // Two states in which a request has been granted as often, and the same viewers are asked for it.
  ghost predicate SameFor(b: State, b': State, u: Uuid) {
    && b'.granted[u] == b.granted[u]
    && (forall x: Pending :: x.CancelLiveEntry? && x.request.uuid == u ==> (x in b'.pending <==> x in b.pending))
  }

  lemma {:induction false} SameBetween(s: State, online: set<ClientId>, i: nat, j: nat, u: Uuid)
    requires Inv(s) && i <= j <= |s.pending|
    requires forall m :: i <= m < j && s.pending[m].ConflictEntry? ==> s.pending[m].request.uuid != u
    ensures SameFor(After(s, online, i), After(s, online, j), u)
    decreases j
  {
    hide *;
    if i < j {
      var b := After(s, online, j - 1);
      SameBetween(s, online, i, j - 1, u);
      AfterAlong(s, online, j - 1);
      SameHere(s, online, j - 1, u);
      SameTwice(After(s, online, i), b, After(s, online, j), u);
    } else {
      SameSelf(After(s, online, i), u);
    }
  }

  lemma SameTwice(a: State, b: State, c: State, u: Uuid)
    requires SameFor(a, b, u) && SameFor(b, c, u)
    ensures SameFor(a, c, u)
  {
  }

  lemma SameHere(s: State, online: set<ClientId>, k: nat, u: Uuid)
    requires k < |s.pending| && Along(s, After(s, online, k), k, CompletedIds(s, online, k))
    requires s.pending[k].ConflictEntry? ==> s.pending[k].request.uuid != u
    ensures SameFor(After(s, online, k), After(s, online, k + 1), u)
  {
    hide *;
    var b, p := After(s, online, k), s.pending[k];
    AfterStep(s, online, k);
    AlongParts(s, b, k, CompletedIds(s, online, k));
    WalkingParts(b, k, CompletedIds(s, online, k));
    assert b.pending[k] == p && p in b.pending;
    if OverAt(s, online, k) {
      OwnRequest(b, online, p);
      SameOther(b, After(s, online, k + 1), p.request, u);
    } else {
      SameSelf(b, u);
    }
  }

  lemma SameSelf(b: State, u: Uuid)
    ensures SameFor(b, b, u)
  {
  }

  lemma SameOther(b: State, b': State, q: ReserveTuner, u: Uuid)
    requires q.uuid != u && (forall v :: v != q.uuid ==> b'.granted[v] == b.granted[v])
    requires forall x :: x in b'.pending ==> x in b.pending || (x.CancelLiveEntry? && x.request == q)
    requires forall x :: x in b.pending ==> x in b'.pending
    ensures SameFor(b, b', u)
  {
  }

  lemma OtherId(pending: seq<Pending>, i: nat, j: nat)
    requires DistinctIds(pending) && i < |pending| && j < |pending|
    ensures i != j ==> pending[i].uuid != pending[j].uuid
  {
  }

  lemma {:induction false} CompletedMeans(s: State, online: set<ClientId>, k: nat, i: nat)
    requires DistinctIds(s.pending) && i < |s.pending| && k <= |s.pending|
    ensures s.pending[i].uuid in CompletedIds(s, online, k) <==> i < k && Completes(s, online, i)
    decreases k
  {
    hide *;
    AfterNone(s, online);
    if k > 0 {
      CompletedMeans(s, online, k - 1, i);
      AfterStep(s, online, k - 1);
      OtherId(s.pending, i, k - 1);
    }
  }

  // The list after a re-evaluation, entry by entry.
  lemma ListAfter(s: State, online: set<ClientId>)
    requires Inv(s)
    ensures var s', b := Reevaluate(s, online), After(s, online, |s.pending|);
      && (forall i: nat :: i < |s.pending| ==> (s.pending[i] in s'.pending <==> !Completes(s, online, i)))
      && (forall x :: x in s'.pending ==> x in s.pending || (x.CancelLiveEntry? && x in b.pending))
      && (forall x :: x in b.pending && x !in s.pending ==> x in s'.pending)
      && s'.granted == b.granted && s'.book == b.book && s'.cancelled == s.cancelled
  {
    hide *;
    var n := |s.pending|;
    var s', b, done := Reevaluate(s, online), After(s, online, n), CompletedIds(s, online, n);
    InvParts(s);
    ReevaluationIs(s, online);
    AlongParts(s, b, n, done);
    WalkingParts(b, n, done);
    ProgressCancelled(s, b);
    CleanedIs(b, DoneSet(done));
    forall i: nat | i < n ensures s.pending[i] in s'.pending <==> !Completes(s, online, i) {
      CompletedMeans(s, online, n, i);
      SurvivorHere(s, b, DoneSet(done), i);
      InDone(done, s.pending[i].uuid);
    }
    AddedStay(s, b, DoneSet(done));
  }

  lemma ProgressCancelled(s: State, b: State)
    requires Progress(s, b, AddedBy(s, b))
    ensures b.cancelled == s.cancelled && b.pending == s.pending + AddedBy(s, b)
  {
  }

  lemma InDone(done: seq<Uuid>, u: Uuid)
    ensures u in DoneSet(done) <==> u in done
  {
  }

  lemma SurvivorHere(s: State, b: State, done: set<Uuid>, i: nat)
    requires i < |s.pending| && DistinctIds(b.pending) && b.pending == s.pending + AddedBy(s, b)
    ensures s.pending[i] in Survivors(s.pending, done) + AddedBy(s, b) <==> s.pending[i].uuid !in done
  {
    var added := AddedBy(s, b);
    forall m | 0 <= m < |added| ensures added[m] != s.pending[i] {
      assert b.pending[|s.pending| + m] == added[m] && b.pending[i] == s.pending[i];
    }
    assert s.pending[i] in s.pending;
    hide Survivors, AddedBy;
  }

  lemma AddedStay(s: State, b: State, done: set<Uuid>)
    requires b.pending == s.pending + AddedBy(s, b) && forall x :: x in AddedBy(s, b) ==> x.CancelLiveEntry?
    ensures forall x :: x in Survivors(s.pending, done) + AddedBy(s, b) ==> x in s.pending || (x.CancelLiveEntry? && x in b.pending)
    ensures forall x :: x in b.pending && x !in s.pending ==> x in Survivors(s.pending, done) + AddedBy(s, b)
  {
    hide Survivors, AddedBy;
  }

  ghost predicate AskedFor(s: State, u: Uuid, x: Pending) {
    x in s.pending && x.CancelLiveEntry? && x.request.uuid == u
  }

  // What a re-evaluation does to one conflict. If its Live is held on another channel than the recording's, it
  // stays, and nothing is granted and nobody asked for its request. If its Live is gone or on that channel, its
  // timeout runs, in the state the earlier ones left: it goes exactly when the timeout completes, and its
  // request ends up with the grant or the question the timeout makes.
  lemma ReevaluationExact(s: State, online: set<ClientId>, k: nat)
    requires Inv(s) && k < |s.pending| && s.pending[k].ConflictEntry?
    ensures var s', p := Reevaluate(s, online), s.pending[k];
      var u, b := p.request.uuid, After(s, online, k);
      && Grown(s.book, b.book)
      && (!Over(s.book, p) ==>
            p in s'.pending && s'.granted[u] == s.granted[u] && forall x :: !AskedFor(s', u, x))
      && (Over(s.book, p) ==>
            exists mid, ok :: TimedOut(b, online, p, mid, ok)
              && (p in s'.pending <==> !ok) && s'.granted[u] == mid.granted[u] && b.granted[u] == s.granted[u]
              && forall x :: AskedFor(s', u, x) <==> AskedFor(mid, u, x) && x !in b.pending)
  {
    hide *;
    var n, s', p, b := |s.pending|, Reevaluate(s, online), s.pending[k], After(s, online, k);
    var u := p.request.uuid;
    AfterAlong(s, online, k);
    AlongParts(s, b, k, CompletedIds(s, online, k));
    WalkingParts(b, k, CompletedIds(s, online, k));
    SoundParts(b.book);
    ViewerDrawn(s, k);
    OverStays(s, b, p);
    OverAtMeans(s, online, k);
    AfterStep(s, online, k);
    ListAfter(s, online);
    Alone(s, online, k);
    assert b.pending[k] == p && p in b.pending;
    if Over(s.book, p) {
      var (mid, ok) := ConflictTimeout(b, online, p);
      ConflictTimeoutExact(b, online, p);
      AskedThen(s, online, k);
    } else {
      AskedNever(s, online, k);
    }
  }

  // No other conflict speaks for the request.
  lemma Alone(s: State, online: set<ClientId>, k: nat)
    requires Inv(s) && k < |s.pending| && s.pending[k].ConflictEntry?
    ensures var u := s.pending[k].request.uuid;
      && SameFor(s, After(s, online, k), u)
      && SameFor(After(s, online, k + 1), After(s, online, |s.pending|), u)
      && forall x :: !AskedFor(s, u, x)
  {
    var u := s.pending[k].request.uuid;
    forall m | 0 <= m < |s.pending| && m != k && !s.pending[m].CancelRecordingEntry? ensures s.pending[m].request.uuid != u {
      if m < k { OneEntry(s, m, k); } else { OneEntry(s, k, m); }
    }
    forall x | x in s.pending && x.CancelLiveEntry? ensures x.request.uuid != u {
      var m :| 0 <= m < |s.pending| && s.pending[m] == x;
    }
    hide *;
    AfterNone(s, online);
    SameBetween(s, online, 0, k, u);
    SameBetween(s, online, k + 1, |s.pending|, u);
  }

  lemma AskedThen(s: State, online: set<ClientId>, k: nat)
    requires Inv(s) && k < |s.pending| && s.pending[k].ConflictEntry?
    requires var u := s.pending[k].request.uuid;
      SameFor(s, After(s, online, k), u) && SameFor(After(s, online, k + 1), After(s, online, |s.pending|), u) && forall x :: !AskedFor(s, u, x)
    ensures var u, s', b, mid := s.pending[k].request.uuid, Reevaluate(s, online), After(s, online, k), After(s, online, k + 1);
      && s'.granted[u] == mid.granted[u] && b.granted[u] == s.granted[u]
      && forall x :: AskedFor(s', u, x) <==> AskedFor(mid, u, x) && x !in b.pending
  {
    var u, s', last := s.pending[k].request.uuid, Reevaluate(s, online), After(s, online, |s.pending|);
    var b, mid := After(s, online, k), After(s, online, k + 1);
    ListAfter(s, online);
    hide After, Reevaluate, Inv;
    forall x ensures AskedFor(s', u, x) <==> AskedFor(mid, u, x) && x !in b.pending {
      assert !AskedFor(s, u, x);
    }
  }

  lemma AskedNever(s: State, online: set<ClientId>, k: nat)
    requires Inv(s) && k < |s.pending| && s.pending[k].ConflictEntry? && After(s, online, k + 1) == After(s, online, k)
    requires var u := s.pending[k].request.uuid;
      SameFor(s, After(s, online, k), u) && SameFor(After(s, online, k + 1), After(s, online, |s.pending|), u) && forall x :: !AskedFor(s, u, x)
    ensures var u, s' := s.pending[k].request.uuid, Reevaluate(s, online);
      s'.granted[u] == s.granted[u] && forall x :: !AskedFor(s', u, x)
  {
    var u, s' := s.pending[k].request.uuid, Reevaluate(s, online);
    AskedThen(s, online, k);
    hide After, Reevaluate, Inv;
    forall x ensures !AskedFor(s', u, x) {
      assert !AskedFor(s, u, x);
    }
  }
}
