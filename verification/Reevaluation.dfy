// The re-evaluation loop: it walks a list that its own body extends, and settles conflicts early.
module Reevaluation {
  import opened Domain
  import opened Invariants
  import opened Protocol
  import opened ProtocolInvariants

  // ---------------------------------------------------------------- settling one entry

  lemma ClaimsGrow(pending: seq<Pending>, added: seq<Pending>, done: set<Uuid>)
    requires forall x :: x in added ==> x.uuid !in done
    ensures Claims(Survivors(pending + added, done)) == Claims(Survivors(pending, done)) + Claims(added)
  {
    SurvivorsAppend(pending, added, done);
    SurvivorsAll(added, done);
    ClaimsAppend(Survivors(pending, done), added);
  }

  lemma Trade(before: multiset<Uuid>, rest: multiset<Uuid>, claim: multiset<Uuid>, added: multiset<Uuid>,
              granted: multiset<Uuid>, granted': multiset<Uuid>)
    requires before == rest + claim && added + granted' <= granted + claim
    ensures rest + added + granted' <= before + granted
  {
    forall u ensures (rest + added + granted')[u] <= (before + granted)[u] {
      assert (added + granted')[u] <= (granted + claim)[u];
    }
  }

  // A completed step trades the entry's claim for what it added or granted.
  lemma SettleOnce(s: State, s': State, p: Pending, done: set<Uuid>, added: seq<Pending>)
    requires DistinctIds(s.pending) && p in s.pending && p.uuid !in done
    requires Covered(s, s', true, ClaimOf(p), added) && OnceApartFrom(s, done)
    requires forall x :: x in added ==> x.uuid !in done + {p.uuid}
    ensures OnceApartFrom(s', done + {p.uuid})
  {
    hide Once, Claims, Survivors, DistinctIds, ClaimOf;
    var done' := done + {p.uuid};
    ClaimsSettled(s.pending, done, p);
    ClaimsGrow(s.pending, added, done');
    Trade(Claims(Survivors(s.pending, done)), Claims(Survivors(s.pending, done')), ClaimOf(p), Claims(added),
          s.granted, s'.granted);
    OnceLess(Claims(Survivors(s.pending, done)) + s.granted,
             Claims(Survivors(s'.pending, done')) + s'.granted, s.seen, s.cancelled);
  }

  lemma StandOnce(s: State, s': State, claim: multiset<Uuid>, done: set<Uuid>, added: seq<Pending>)
    requires Covered(s, s', false, claim, added) && OnceApartFrom(s, done)
    ensures OnceApartFrom(s', done) && s'.pending == s.pending
  {
    assert s.pending + [] == s.pending;
    assert Claims([]) == multiset{};
    hide Once, Claims, Survivors;
    Trade(Claims(Survivors(s.pending, done)), Claims(Survivors(s.pending, done)), multiset{}, multiset{}, s.granted, s'.granted);
    OnceLess(Claims(Survivors(s.pending, done)) + s.granted,
             Claims(Survivors(s.pending, done)) + s'.granted, s.seen, s.cancelled);
  }

  // ---------------------------------------------------------------- the walk

  function DoneSet(done: seq<Uuid>): set<Uuid> {
    set u | u in done
  }

  ghost predicate SettledBefore(pending: seq<Pending>, i: nat, done: seq<Uuid>)
    requires i <= |pending|
  {
    forall u :: u in done ==> exists k :: 0 <= k < i && pending[k].uuid == u && pending[k].ConflictEntry?
  }

  ghost predicate Walking(s: State, i: nat, done: seq<Uuid>) {
    && Sound(s.book) && Supply(s) && Listed(s)
    && i <= |s.pending|
    && OnceApartFrom(s, DoneSet(done))
    && SettledBefore(s.pending, i, done)
    && s.cancelled <= s.seen
  }

  lemma NotSettledYet(pending: seq<Pending>, i: nat, done: seq<Uuid>)
    requires DistinctIds(pending) && i < |pending| && SettledBefore(pending, i, done)
    ensures pending[i].uuid !in DoneSet(done)
  {
  }

  lemma AddedUnsettled(s: State, s': State, done: seq<Uuid>, i: nat, added: seq<Pending>)
    requires Listed(s') && s'.pending == s.pending + added && i < |s.pending| && SettledBefore(s.pending, i, done)
    ensures forall x :: x in added ==> x.uuid !in DoneSet(done) + {s.pending[i].uuid}
  {
    forall x | x in added ensures x.uuid !in DoneSet(done) + {s.pending[i].uuid} {
      var k :| 0 <= k < |added| && added[k] == x;
      assert s'.pending[|s.pending| + k] == x;
      forall m | 0 <= m < |s.pending| ensures s.pending[m].uuid != x.uuid {
        assert s'.pending[m] == s.pending[m];
      }
    }
  }

  lemma SettledNext(pending: seq<Pending>, added: seq<Pending>, i: nat, done: seq<Uuid>)
    requires i < |pending| && pending[i].ConflictEntry? && SettledBefore(pending, i, done)
    ensures SettledBefore(pending + added, i + 1, done + [pending[i].uuid])
  {
    var done' := done + [pending[i].uuid];
    forall u | u in done' ensures exists k :: 0 <= k < i + 1 && (pending + added)[k].uuid == u && (pending + added)[k].ConflictEntry? {
      if u in done {
        var k :| 0 <= k < i && pending[k].uuid == u && pending[k].ConflictEntry?;
        assert (pending + added)[k] == pending[k];
      } else {
        assert (pending + added)[i] == pending[i];
      }
    }
  }

  lemma SettledSkip(pending: seq<Pending>, i: nat, done: seq<Uuid>)
    requires i < |pending| && SettledBefore(pending, i, done)
    ensures SettledBefore(pending, i + 1, done)
  {
    forall u | u in done ensures exists k :: 0 <= k < i + 1 && pending[k].uuid == u && pending[k].ConflictEntry? {
      var k :| 0 <= k < i && pending[k].uuid == u && pending[k].ConflictEntry?;
    }
  }

  // One visit of a ripe conflict.
  lemma Visit(s: State, online: set<ClientId>, i: nat, done: seq<Uuid>)
    requires Walking(s, i, done) && i < |s.pending| && s.pending[i].ConflictEntry?
    ensures var (s', ok) := ConflictTimeout(s, online, s.pending[i]);
      && Walking(s', i + 1, if ok then done + [s.pending[i].uuid] else done)
      && Progress(s, s', AddedBy(s, s'))
      && (forall x :: x in AddedBy(s, s') ==> x.CancelLiveEntry?)
  {
    hide *;
    WalkingParts(s, i, done);
    var p := s.pending[i];
    var (s', ok) := ConflictTimeout(s, online, p);
    var added := AddedBy(s, s');
    ConflictStep(s, online, p);
    CoveredParts(s, s', ok, ClaimOf(p), added);
    if ok {
      NotSettledYet(s.pending, i, done);
      AddedUnsettled(s, s', done, i, added);
      SettleOnce(s, s', p, DoneSet(done), added);
      SettledNext(s.pending, added, i, done);
      DoneNext(done, p.uuid);
      WalkingFrom(s', i + 1, done + [p.uuid]);
    } else {
      StandOnce(s, s', ClaimOf(p), DoneSet(done), added);
      SettledSkip(s.pending, i, done);
      WalkingFrom(s', i + 1, done);
    }
  }

  lemma WalkingParts(s: State, i: nat, done: seq<Uuid>)
    requires Walking(s, i, done)
    ensures Sound(s.book) && Supply(s) && Listed(s) && DistinctIds(s.pending)
    ensures i <= |s.pending| && OnceApartFrom(s, DoneSet(done)) && SettledBefore(s.pending, i, done)
    ensures s.cancelled <= s.seen
  {
  }

  lemma WalkingFrom(s: State, i: nat, done: seq<Uuid>)
    requires Sound(s.book) && Supply(s) && Listed(s) && i <= |s.pending|
    requires OnceApartFrom(s, DoneSet(done)) && SettledBefore(s.pending, i, done)
    requires s.cancelled <= s.seen
    ensures Walking(s, i, done)
  {
  }

  lemma DoneNext(done: seq<Uuid>, u: Uuid)
    ensures DoneSet(done + [u]) == DoneSet(done) + {u}
  {
  }

  lemma CoveredParts(s: State, s': State, ok: bool, claim: multiset<Uuid>, added: seq<Pending>)
    requires Covered(s, s', ok, claim, added)
    ensures Progress(s, s', added) && s'.pending == s.pending + added && s'.seen == s.seen && s'.cancelled == s.cancelled
    ensures forall x :: x in added ==> x.CancelLiveEntry?
  {
  }

  lemma ProgressTwice(s: State, s1: State, s2: State)
    requires Progress(s, s1, AddedBy(s, s1)) && Progress(s1, s2, AddedBy(s1, s2))
    requires forall x :: x in AddedBy(s, s1) ==> x.CancelLiveEntry?
    requires forall x :: x in AddedBy(s1, s2) ==> x.CancelLiveEntry?
    ensures Progress(s, s2, AddedBy(s, s2))
    ensures forall x :: x in AddedBy(s, s2) ==> x.CancelLiveEntry?
  {
    var a, b := AddedBy(s, s1), AddedBy(s1, s2);
    assert s2.pending == s.pending + (a + b);
    assert AddedBy(s, s2) == a + b;
  }

  lemma ProgressNone(s: State)
    ensures Progress(s, s, AddedBy(s, s)) && AddedBy(s, s) == []
  {
  }

  // The walk visits every conflict of the list once, keeps the invariant with the completed entries set
  // aside, and leaves the list as it was plus entries waiting for a CancelLive answer.
  lemma {:induction false} WalkEffect(s: State, online: set<ClientId>, i: nat, done: seq<Uuid>)
    requires Walking(s, i, done)
    ensures i <= |s.pending|
    ensures var (s', done') := Walk(s, online, i, done);
      && Walking(s', |s'.pending|, done')
      && Progress(s, s', AddedBy(s, s'))
      && (forall x :: x in AddedBy(s, s') ==> x.CancelLiveEntry?)
      && done <= done'
    decreases if i <= |s.pending| then Work(s.pending, i) else 0
  {
    hide *;
    WalkingParts(s, i, done);
    ProgressNone(s);
    if i == |s.pending| {
      WalkEnds(s, online, done);
    } else {
      WalkStep(s, online, i, done);
      var p := s.pending[i];
      if p.ConflictEntry? && Ripe(s.book, p) {
        var (s1, ok) := ConflictTimeout(s, online, p);
        Visit(s, online, i, done);
        var done1 := if ok then done + [p.uuid] else done;
        WalkEffect(s1, online, i + 1, done1);
        ProgressTwice(s, s1, Walk(s1, online, i + 1, done1).0);
      } else {
        SettledSkip(s.pending, i, done);
        WalkingFrom(s, i + 1, done);
        WalkEffect(s, online, i + 1, done);
      }
    }
  }

  lemma WalkEnds(s: State, online: set<ClientId>, done: seq<Uuid>)
    ensures Walk(s, online, |s.pending|, done) == (s, done)
  {
  }

  // One step of the walk, and why there are finitely many.
  lemma WalkStep(s: State, online: set<ClientId>, i: nat, done: seq<Uuid>)
    requires i < |s.pending|
    ensures var p := s.pending[i];
      if p.ConflictEntry? && Ripe(s.book, p) then
        var (s1, ok) := ConflictTimeout(s, online, p);
        && i + 1 <= |s1.pending|
        && Work(s1.pending, i + 1) < Work(s.pending, i)
        && Walk(s, online, i, done) == Walk(s1, online, i + 1, if ok then done + [p.uuid] else done)
      else Work(s.pending, i + 1) < Work(s.pending, i) && Walk(s, online, i, done) == Walk(s, online, i + 1, done)
  {
    var p := s.pending[i];
    if p.ConflictEntry? {
      ConflictTimeoutPending(s, online, p);
      WorkAppend(s.pending, CancelLiveEntry(Minted(s), p.request, p.parent), i + 1);
    }
  }

  // ---------------------------------------------------------------- the clean-up

  // The clean-up removes the settled entries and their timers, and nothing else.
  lemma {:induction false} RemoveAllIs(s: State, done: seq<Uuid>)
    requires Listed(s)
    ensures RemoveAll(s, done) == Cleaned(s, DoneSet(done)) && Listed(RemoveAll(s, done))
    decreases |done|
  {
    if done == [] {
      CleanedNone(s);
      assert DoneSet(done) == {};
    } else {
      RemoveAllStep(s, done);
      hide *;
      RemoveOneIs(s, done[0]);
      RemoveAllIs(RemovePending(s, done[0]), done[1..]);
      CleanedTwice(s, done[0], DoneSet(done[1..]));
    }
  }

  ghost function Cleaned(s: State, done: set<Uuid>): State {
    s.(pending := Survivors(s.pending, done), pendingTimers := s.pendingTimers - done)
  }

  lemma RemoveAllStep(s: State, done: seq<Uuid>)
    requires done != []
    ensures RemoveAll(s, done) == RemoveAll(RemovePending(s, done[0]), done[1..])
    ensures DoneSet(done) == {done[0]} + DoneSet(done[1..])
  {
    assert done == [done[0]] + done[1..];
  }

  lemma CleanedNone(s: State)
    ensures Cleaned(s, {}) == s
  {
    SurvivorsAll(s.pending, {});
    assert s.pendingTimers - {} == s.pendingTimers;
  }

  lemma CleanedTwice(s: State, u: Uuid, done: set<Uuid>)
    ensures Cleaned(Cleaned(s, {u}), done) == Cleaned(s, {u} + done)
  {
    SurvivorsTwice(s.pending, {u}, done);
    assert s.pendingTimers - {u} - done == s.pendingTimers - ({u} + done);
  }

  lemma SurvivorIds(pending: seq<Pending>, done: set<Uuid>)
    ensures Ids(Survivors(pending, done)) == Ids(pending) - done
  {
    var rest := Survivors(pending, done);
    forall u ensures u in Ids(rest) <==> u in Ids(pending) - done {
      if u in Ids(rest) {
        var i :| 0 <= i < |rest| && rest[i].uuid == u;
        assert rest[i] in rest;
        var j :| 0 <= j < |pending| && pending[j] == rest[i];
      }
      if u in Ids(pending) - done {
        var j :| 0 <= j < |pending| && pending[j].uuid == u;
        assert pending[j] in rest;
        var i :| 0 <= i < |rest| && rest[i] == pending[j];
      }
    }
  }

  lemma CleanedListed(s: State, done: set<Uuid>)
    requires Listed(s)
    ensures Listed(Cleaned(s, done))
  {
    SurvivorIds(s.pending, done);
    SurvivorsDistinct(s.pending, done);
    hide Ids, EntryOk;
    assert (s.pendingTimers - done).Keys == s.pendingTimers.Keys - done;
  }

  lemma AbsentIds(pending: seq<Pending>, u: Uuid)
    requires FindPending(pending, u).None?
    ensures u !in Ids(pending)
  {
    forall i | 0 <= i < |pending| ensures pending[i].uuid != u {
      assert pending[i] in pending;
    }
  }

  lemma RemoveOneEquals(s: State, u: Uuid)
    requires DistinctIds(s.pending) && s.pendingTimers.Keys == Ids(s.pending)
    ensures RemovePending(s, u) == Cleaned(s, {u})
  {
    RemoveFirstIs(s.pending, u);
    if FindPending(s.pending, u).None? {
      AbsentIds(s.pending, u);
      SurvivorsAll(s.pending, {u});
      hide Survivors, Ids;
      assert s.pendingTimers - {u} == s.pendingTimers;
    }
  }

  // Removing one id removes its entry and its timer, or changes nothing when there is none.
  lemma RemoveOneIs(s: State, u: Uuid)
    requires Listed(s)
    ensures RemovePending(s, u) == Cleaned(s, {u}) && Listed(RemovePending(s, u))
  {
    CleanedListed(s, {u});
    hide EntryOk, Survivors, RemovePending, Cleaned;
    RemoveOneEquals(s, u);
  }

  // ---------------------------------------------------------------- the whole loop

  lemma InvWalking(s: State)
    requires Inv(s)
    ensures Walking(s, 0, [])
  {
    SurvivorsAll(s.pending, {});
    assert DoneSet([]) == {};
  }

  lemma CleanedSupply(s: State, done: set<Uuid>)
    requires Supply(s)
    ensures Supply(Cleaned(s, done))
  {
    SurvivorIds(s.pending, done);
    hide Ids, Survivors, Supply;
    SupplyKeeps(s, Cleaned(s, done));
  }

  lemma CleanedOnce(s: State, done: set<Uuid>)
    requires OnceApartFrom(s, done)
    ensures var s' := Cleaned(s, done);
      && Once(Claims(s'.pending) + s'.granted, s'.seen, s'.cancelled)
      && s'.book == s.book && s'.seen == s.seen && s'.cancelled == s.cancelled
  {
  }

  lemma RemovalInv(s: State, done: seq<Uuid>)
    requires Walking(s, |s.pending|, done)
    ensures Inv(RemoveAll(s, done))
  {
    hide *;
    WalkingParts(s, |s.pending|, done);
    RemoveAllIs(s, done);
    CleanedSupply(s, DoneSet(done));
    CleanedOnce(s, DoneSet(done));
    InvFrom(RemoveAll(s, done));
  }

  // The loop ends with the old list, minus exactly the conflicts whose timeout completed, in order,
  // plus the entries its timeouts appended; and the invariant holds again.
  lemma ReevaluateEffect(s: State, online: set<ClientId>)
    requires Inv(s)
    ensures var (walked, done) := Walk(s, online, 0, []);
      var s', added := Reevaluate(s, online), AddedBy(s, walked);
      && Inv(s')
      && s'.pending == Survivors(s.pending, DoneSet(done)) + added
      && (forall x :: x in added ==> x.CancelLiveEntry?)
      && (forall u :: u in done ==> exists p :: p in s.pending && p.ConflictEntry? && p.uuid == u)
  {
    InvWalking(s);
    WalkEffect(s, online, 0, []);
    var (walked, done) := Walk(s, online, 0, []);
    RemovalInv(walked, done);
    WalkingParts(walked, |walked.pending|, done);
    RemoveAllIs(walked, done);
    SettledAreConflicts(s, walked, done);
    SurvivorsAppend(s.pending, AddedBy(s, walked), DoneSet(done));
    SurvivorsAll(AddedBy(s, walked), DoneSet(done));
  }

  // Only conflicts of the original list are ever settled: what the walk appends is of another kind.
  lemma SettledAreConflicts(s: State, walked: State, done: seq<Uuid>)
    requires Progress(s, walked, AddedBy(s, walked)) && DistinctIds(walked.pending)
    requires SettledBefore(walked.pending, |walked.pending|, done)
    requires forall x :: x in AddedBy(s, walked) ==> x.CancelLiveEntry?
    ensures forall u :: u in done ==> exists p :: p in s.pending && p.ConflictEntry? && p.uuid == u
    ensures forall x :: x in AddedBy(s, walked) ==> x.uuid !in DoneSet(done)
  {
    var added := AddedBy(s, walked);
    assert walked.pending == s.pending + added;
    hide Progress, DistinctIds, AddedBy;
    forall u | u in done ensures exists p :: p in s.pending && p.ConflictEntry? && p.uuid == u {
      var k :| 0 <= k < |walked.pending| && walked.pending[k].uuid == u && walked.pending[k].ConflictEntry?;
      OldOrAdded(s.pending, added, k);
    }
    forall x | x in added ensures x.uuid !in DoneSet(done) {
      AddedNotSettled(s.pending, added, done, x);
    }
  }

  lemma OldOrAdded(pending: seq<Pending>, added: seq<Pending>, k: nat)
    requires k < |pending + added|
    ensures var p := (pending + added)[k]; p in pending || p in added
  {
  }

  lemma AddedNotSettled(pending: seq<Pending>, added: seq<Pending>, done: seq<Uuid>, x: Pending)
    requires DistinctIds(pending + added) && SettledBefore(pending + added, |pending + added|, done)
    requires x in added && x.CancelLiveEntry?
    ensures x.uuid !in DoneSet(done)
  {
    var m :| 0 <= m < |added| && added[m] == x;
    assert (pending + added)[|pending| + m] == x;
  }
}
