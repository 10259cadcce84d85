// What a lost connection takes with it.
module Disconnection {
  import opened Domain
  import opened Registry
  import opened Invariants

  type Conn = nat

  // The tokens of a set of clients, as recorded in the attributes.
  ghost function OwnedBy(s: Book, clients: set<ClientId>): set<Token> {
    set t | t in s.attrs && s.attrs[t] in clients
  }

  // Releasing a whole set of tokens.
  ghost function DropSet(s: Book, ts: set<Token>): Book {
    s.(tuners := map id | id in s.tuners :: s.tuners[id] - ts,
       preStartTimers := s.preStartTimers - ts,
       startTimers := s.startTimers - ts,
       expireTimers := s.expireTimers - ts,
       attrs := s.attrs - ts,
       activations := s.activations - ts)
  }

  lemma MinusTwice<V>(m: map<Token, V>, t: Token, ts: set<Token>)
    requires t in ts
    ensures m - {t} - (ts - {t}) == m - ts
  {
  }

  lemma DropSetTuners(s: Book, t: Token, ts: set<Token>)
    requires t in ts
    ensures DropSet(Drop(s, t), ts - {t}).tuners == DropSet(s, ts).tuners
  {
    forall id | id in s.tuners ensures s.tuners[id] - {t} - (ts - {t}) == s.tuners[id] - ts {
      MinusTwice(s.tuners[id], t, ts);
    }
  }

  // Releasing one token first makes no difference.
  lemma DropSetStep(s: Book, t: Token, ts: set<Token>)
    requires t in ts
    ensures DropSet(s, ts) == DropSet(Drop(s, t), ts - {t})
  {
    DropSetTuners(s, t, ts);
    MinusTwice(s.preStartTimers, t, ts);
    MinusTwice(s.startTimers, t, ts);
    MinusTwice(s.expireTimers, t, ts);
    MinusTwice(s.attrs, t, ts);
    MinusTwice(s.activations, t, ts);
  }

  lemma DropSetNone(s: Book)
    ensures DropSet(s, {}) == s
  {
    var s' := DropSet(s, {});
    forall id | id in s.tuners ensures s'.tuners[id] == s.tuners[id] {}
    assert s'.tuners == s.tuners;
    MinusNone(s.preStartTimers);
    MinusNone(s.startTimers);
    MinusNone(s.expireTimers);
    MinusNone(s.attrs);
    MinusNone(s.activations);
  }

  lemma MinusNone<V>(m: map<Token, V>)
    ensures m - {} == m
  {
  }

  lemma {:induction false} DropSetSound(s: Book, ts: set<Token>)
    requires Sound(s)
    ensures Sound(DropSet(s, ts))
    decreases |ts|
  {
    hide *;
    if ts == {} {
      DropSetNone(s);
    } else {
      var t :| t in ts;
      DropSound(s, t);
      DropSetSound(Drop(s, t), ts - {t});
      DropSetStep(s, t, ts);
    }
  }

  lemma DropSetHolds(s: Book, ts: set<Token>)
    ensures var s' := DropSet(s, ts);
      && s'.tuners.Keys == s.tuners.Keys
      && (forall i, u :: Holds(s', i, u) <==> Holds(s, i, u) && u !in ts)
      && (forall i, u :: Holds(s', i, u) ==> s'.tuners[i][u] == s.tuners[i][u])
      && (forall u :: IsHeld(s', u) ==> IsHeld(s, u))
  {
    var s' := DropSet(s, ts);
    forall u | IsHeld(s', u) ensures IsHeld(s, u) {
      var i :| Holds(s', i, u);
      assert Holds(s, i, u);
    }
  }

  ghost predicate SameFor(s: Book, s': Book, t: Token) {
    && (forall i :: Holds(s', i, t) <==> Holds(s, i, t))
    && (forall i :: Holds(s, i, t) && Holds(s', i, t) ==> s'.tuners[i][t] == s.tuners[i][t])
    && (t in s.startTimers && t in s'.startTimers ==> s'.startTimers[t] == s.startTimers[t])
    && (t in s.preStartTimers && t in s'.preStartTimers ==> s'.preStartTimers[t] == s.preStartTimers[t])
    && (t in s.expireTimers && t in s'.expireTimers ==> s'.expireTimers[t] == s.expireTimers[t])
    && (t in s'.startTimers <==> t in s.startTimers)
    && (t in s'.preStartTimers <==> t in s.preStartTimers)
    && (t in s'.expireTimers <==> t in s.expireTimers)
    && (t in s'.attrs <==> t in s.attrs)
    && (t in s.attrs && t in s'.attrs ==> s'.attrs[t] == s.attrs[t])
  }

  lemma OthersUntouched(s: Book, ts: set<Token>, t: Token)
    requires t !in ts
    ensures SameFor(s, DropSet(s, ts), t)
  {
  }

  // Releasing what a set of clients owns leaves none of it, and leaves everyone else's reservations,
  // timers and attributes as they were.
  lemma ReleaseClientsEffect(s: Book, clients: set<ClientId>)
    requires Sound(s)
    ensures var s' := DropSet(s, OwnedBy(s, clients));
      && Sound(s')
      && (forall t :: IsHeld(s', t) ==> t in s'.attrs && s'.attrs[t] !in clients)
      && (forall t :: t in s.attrs && s.attrs[t] !in clients ==> SameFor(s, s', t))
  {
    var ts := OwnedBy(s, clients);
    var s' := DropSet(s, ts);
    DropSetSound(s, ts);
    SoundParts(s');
    forall t | t in s.attrs && s.attrs[t] !in clients ensures SameFor(s, s', t) {
      OthersUntouched(s, ts, t);
    }
    OwnersLeft(s, clients);
    hide Sound, SameFor;
  }

  lemma OwnersLeft(s: Book, clients: set<ClientId>)
    requires KeysAgree(DropSet(s, OwnedBy(s, clients)))
    ensures var s' := DropSet(s, OwnedBy(s, clients));
      forall t :: IsHeld(s', t) ==> t in s'.attrs && s'.attrs[t] !in clients
  {
  }
}
