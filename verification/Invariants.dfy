// What every event keeps about reservations, change by elementary change.
module Invariants {
  import opened Domain
  import opened Tuners
  import opened Registry
  import opened LivePlacement
  import Timers

  // All ACTIVE reservations of a tuner are on one locator.
  predicate Tuned(h: Holdings) {
    forall t, u :: t in h && u in h && h[t].phase == ACTIVE && h[u].phase == ACTIVE ==> h[t].locator == h[u].locator
  }

  ghost predicate AllTuned(s: Book) {
    forall id :: id in s.tuners ==> Tuned(s.tuners[id])
  }

  // A tuner to which a reservation can be added: the late count of addReservation will pass.
  predicate Uncrowded(h: Holdings) {
    |ActiveTokens(h)| <= 2
  }

  ghost predicate Roomy(s: Book, id: TunerId) {
    id in s.tuners && Uncrowded(s.tuners[id])
  }

  // Adding fails only before it inserts: on a clash, or not at all.
  predicate TakesWhole(h: Holdings, r: Reservation) {
    Clashes(h, r) || Uncrowded(h)
  }

  // A running start clock is set for the start of the window.
  ghost predicate StartsOnTime(c: Timers.Clockwork, r: Reservation, t: Token) {
    c.armed ==> c.task == Some(t) && c.future == r.start
  }

  // A running expiration clock is set for the end of the window, or for a later moment that has passed.
  ghost predicate ExpiresOnTime(c: Timers.Clockwork, r: Reservation, t: Token, now: nat) {
    c.armed ==> c.task == Some(t) && (c.future == r.End() || r.End() <= c.future <= now)
  }

  // The timers of a held reservation match its window, it is not ACTIVE before its start,
  // and it was started once if it is ACTIVE and never otherwise.
  ghost predicate TimelyFor(s: Book, id: TunerId, t: Token)
    requires Holds(s, id, t)
  {
    var r := s.tuners[id][t];
    && t in s.startTimers && StartsOnTime(s.startTimers[t], r, t)
    && t in s.expireTimers && ExpiresOnTime(s.expireTimers[t], r, t, s.now)
    && (r.phase == ACTIVE ==> r.start <= s.now)
    && t in s.activations && s.activations[t] == if r.phase == ACTIVE then 1 else 0
  }

  ghost predicate Timely(s: Book) {
    forall id, t :: Holds(s, id, t) ==> TimelyFor(s, id, t)
  }

  ghost predicate Sound(s: Book) {
    && Coherent(s)
    && AllWellKept(s)
    && OneLive(s)
    && AllTuned(s)
    && Timely(s)
    && Reservable(s, s.local)
    && s.deviceId != ""
  }

  lemma SoundParts(s: Book)
    requires Sound(s)
    ensures Coherent(s) && OneHome(s) && OwnName(s) && KeysAgree(s)
    ensures AllWellKept(s) && OneLive(s) && AllTuned(s) && Timely(s)
    ensures Reservable(s, s.local) && s.local in s.tuners && s.deviceId != ""
  {
  }

  // ---------------------------------------------------------------- inserting

  // A Live may go where it is the only one, of its tuner and of its device.
  ghost predicate RoomForLive(s: Book, r: Reservation, id: TunerId) {
    r.activity == Live ==>
      && (forall i, t :: HoldsLive(s, i, t) ==> i != id && s.tuners[i][t].device != r.device)
      && (id == s.local ==> r.device == s.deviceId)
  }

  ghost predicate Insertable(s: Book, r: Reservation, id: TunerId) {
    && id in s.tuners
    && !IsHeld(s, r.token)
    && r.token != ""
    && r.phase == IDLE
    && WellKept(r)
    && RoomForLive(s, r, id)
  }

  lemma PutAt(s: Book, r: Reservation, id: TunerId, client: ClientId, i: TunerId, t: Token)
    requires id in s.tuners
    requires Holds(Put(s, r, id, client), i, t)
    ensures var s' := Put(s, r, id, client);
      if i == id && t == r.token then s'.tuners[i][t] == r
      else Holds(s, i, t) && s'.tuners[i][t] == s.tuners[i][t]
  {
  }

  lemma PutWellKept(s: Book, r: Reservation, id: TunerId, client: ClientId)
    requires AllWellKept(s) && id in s.tuners && WellKept(r)
    ensures AllWellKept(Put(s, r, id, client))
  {
    var s' := Put(s, r, id, client);
    forall i, t | Holds(s', i, t) ensures WellKept(s'.tuners[i][t]) {
      PutAt(s, r, id, client, i, t);
    }
  }

  lemma PutOneLive(s: Book, r: Reservation, id: TunerId, client: ClientId)
    requires OneLive(s) && id in s.tuners && RoomForLive(s, r, id)
    ensures OneLive(Put(s, r, id, client))
  {
    var s' := Put(s, r, id, client);
    forall i, t, i', t' | HoldsLive(s', i, t) && HoldsLive(s', i', t')
      && (i == i' || s'.tuners[i][t].device == s'.tuners[i'][t'].device)
      ensures t == t'
    {
      PutAt(s, r, id, client, i, t);
      PutAt(s, r, id, client, i', t');
      assert t != r.token || i != id ==> HoldsLive(s, i, t);
      assert t' != r.token || i' != id ==> HoldsLive(s, i', t');
    }
  }

  lemma PutTuned(s: Book, r: Reservation, id: TunerId, client: ClientId)
    requires AllTuned(s) && id in s.tuners && r.phase == IDLE
    ensures AllTuned(Put(s, r, id, client))
  {
    var h := s.tuners[id];
    assert Tuned(h);
    assert Tuned(h[r.token := r]);
  }

  lemma PutTimely(s: Book, r: Reservation, id: TunerId, client: ClientId)
    requires Timely(s) && id in s.tuners && r.phase == IDLE && !IsHeld(s, r.token)
    ensures Timely(Put(s, r, id, client))
  {
    var s' := Put(s, r, id, client);
    forall i, t | Holds(s', i, t) ensures TimelyFor(s', i, t) {
      PutAt(s, r, id, client, i, t);
      if t != r.token { assert TimelyFor(s, i, t); }
    }
  }

  lemma PutReservable(s: Book, r: Reservation, id: TunerId, client: ClientId)
    requires Reservable(s, s.local) && id in s.tuners && RoomForLive(s, r, id)
    ensures Reservable(Put(s, r, id, client), s.local)
  {
    var s' := Put(s, r, id, client);
    forall t | HoldsLive(s', s.local, t) ensures s'.tuners[s.local][t].device == s.deviceId {
      PutAt(s, r, id, client, s.local, t);
      if id != s.local || t != r.token { assert HoldsLive(s, s.local, t); }
    }
  }

  lemma PutSound(s: Book, r: Reservation, id: TunerId, client: ClientId)
    requires Sound(s) && Insertable(s, r, id)
    ensures Sound(Put(s, r, id, client))
  {
    PutCoherent(s, r, id, client);
    PutWellKept(s, r, id, client);
    PutOneLive(s, r, id, client);
    PutTuned(s, r, id, client);
    PutTimely(s, r, id, client);
    PutReservable(s, r, id, client);
  }

  // Where adding fails only before it inserts, a sound book stays sound; the tuner may still refuse.
  lemma InsertSound(s: Book, r: Reservation, id: TunerId, client: ClientId)
    requires Sound(s) && Insertable(s, r, id) && TakesWhole(s.tuners[id], r)
    ensures Sound(Insert(s, r, id, client).0)
    ensures Insert(s, r, id, client) ==
      if Clashes(s.tuners[id], r) then (s, Refused) else (Put(s, r, id, client), Added)
  {
    if !Clashes(s.tuners[id], r) {
      InsertAdds(s, r, id, client);
      PutSound(s, r, id, client);
    }
  }

  // ---------------------------------------------------------------- removing

  lemma DropAt(s: Book, t: Token, i: TunerId, u: Token)
    requires Holds(Drop(s, t), i, u)
    ensures Holds(s, i, u) && u != t && Drop(s, t).tuners[i][u] == s.tuners[i][u]
  {
  }

  lemma DropTuned(s: Book, t: Token)
    requires AllTuned(s)
    ensures AllTuned(Drop(s, t))
  {
    var s' := Drop(s, t);
    forall i | i in s'.tuners ensures Tuned(s'.tuners[i]) {
      assert Tuned(s.tuners[i]);
    }
  }

  lemma DropLives(s: Book, t: Token)
    requires OneLive(s) && Reservable(s, s.local)
    ensures OneLive(Drop(s, t)) && Reservable(Drop(s, t), s.local)
  {
    var s' := Drop(s, t);
    assert forall i, u :: HoldsLive(s', i, u) ==> HoldsLive(s, i, u) && s'.tuners[i][u] == s.tuners[i][u];
  }

  lemma DropTimely(s: Book, t: Token)
    requires Timely(s)
    ensures Timely(Drop(s, t))
  {
    var s' := Drop(s, t);
    forall i, u | Holds(s', i, u) ensures TimelyFor(s', i, u) {
      DropAt(s, t, i, u);
      assert TimelyFor(s, i, u);
    }
  }

  lemma DropWellKept(s: Book, t: Token)
    requires AllWellKept(s)
    ensures AllWellKept(Drop(s, t))
  {
    var s' := Drop(s, t);
    forall i, u | Holds(s', i, u) ensures WellKept(s'.tuners[i][u]) {
      DropAt(s, t, i, u);
    }
  }

  lemma DropSound(s: Book, t: Token)
    requires Sound(s)
    ensures Sound(Drop(s, t))
  {
    DropCoherent(s, t);
    DropWellKept(s, t);
    DropLives(s, t);
    DropTuned(s, t);
    DropTimely(s, t);
  }

  // ---------------------------------------------------------------- the reserved tuner

  lemma LocalSame(s: Book, local: TunerId)
    ensures var s' := s.(local := local);
      && (forall id, t :: Holds(s', id, t) <==> Holds(s, id, t))
      && (forall t :: IsHeld(s', t) <==> IsHeld(s, t))
  {
    forall t ensures IsHeld(s.(local := local), t) <==> IsHeld(s, t) {
      HeldAlike(s, s.(local := local), t);
    }
  }

  lemma LocalCoherent(s: Book, local: TunerId)
    requires Coherent(s)
    ensures Coherent(s.(local := local))
  {
    LocalSame(s, local);
  }

  lemma LocalLives(s: Book, local: TunerId)
    requires OneLive(s) && Reservable(s, local)
    ensures OneLive(s.(local := local)) && Reservable(s.(local := local), local)
  {
    assert forall id, t :: HoldsLive(s.(local := local), id, t) <==> HoldsLive(s, id, t);
  }

  lemma LocalTimely(s: Book, local: TunerId)
    requires Timely(s) && AllWellKept(s)
    ensures Timely(s.(local := local)) && AllWellKept(s.(local := local))
  {
    var s' := s.(local := local);
    forall id, t | Holds(s', id, t) ensures TimelyFor(s', id, t) && WellKept(s'.tuners[id][t]) {
      assert Holds(s, id, t) && TimelyFor(s, id, t);
    }
  }

  lemma LocalSound(s: Book, local: TunerId)
    requires Sound(s) && Reservable(s, local)
    ensures Sound(s.(local := local))
  {
    LocalCoherent(s, local);
    LocalLives(s, local);
    LocalTimely(s, local);
  }
}
