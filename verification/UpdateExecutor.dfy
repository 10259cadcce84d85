// Re-evaluating pending conflicts after an update, step by step on the manager.
module UpdateExecutor {
  import opened Domain
  import opened Registry
  import opened Protocol
  import opened Reevaluation
  import opened Management
  import opened RequestExecutor

  method IsRipe(m: Manager, p: Pending) returns (grantConflict: bool)
    ensures grantConflict <==> p.ConflictEntry? && Ripe(m.View(), p)
  {
    hide IsHeld, Lookup, Manager.View;
    grantConflict := false;
    if p.ConflictEntry? {
      var liveNow := m.GetReservation(p.live.token);
      if liveNow.Some? {
        if |p.conflicts| == 1 && liveNow.value.locator == p.conflicts[0].locator {
          grantConflict := true;
        }
      } else {
        grantConflict := true;
      }
    }
  }

  // One turn of the loop.
  method VisitEntry(m: Manager, online: set<ClientId>, it: nat, done: seq<Uuid>) returns (list: seq<Uuid>)
    requires m.Apart() && it < |m.pendingRequests|
    modifies m, m.tuners.Values
    ensures it + 1 <= |m.pendingRequests| && m.pendingRequests == m.StateView().pending
    ensures Walk(old(m.StateView()), online, it, done) == Walk(m.StateView(), online, it + 1, list)
    ensures Work(m.pendingRequests, it + 1) < Work(old(m.pendingRequests), it)
  {
    ghost var s := m.StateView();
    m.StateIs();
    hide *;
    WalkStep(s, online, it, done);
    var p := m.pendingRequests[it];
    var grantConflict := IsRipe(m, p);
    assert m.StateView() == s && m.View() == s.book && m.pendingRequests == s.pending;
    list := done;
    if grantConflict {
      var ok := ConflictTimedOut(m, online, p);
      m.StateIs();
      if ok {
        list := list + [p.uuid];
      }
    }
  }

  // The walk over a list that grows while it is walked, then the removal of what completed.
  method OnReservationUpdated(m: Manager, online: set<ClientId>)
    requires m.Apart()
    modifies m, m.tuners.Values
    ensures m.StateView() == Reevaluate(old(m.StateView()), online)
  {
    ReevaluateIs(m.StateView(), online);
    hide *;
    var timedOut := WalkPending(m, online);
    RemoveTimedOut(m, timedOut);
  }

  lemma ReevaluateIs(s: State, online: set<ClientId>)
    ensures var walked := Walk(s, online, 0, []);
      Reevaluate(s, online) == RemoveAll(walked.0, walked.1)
  {
    hide Walk, RemoveAll;
  }

  method WalkPending(m: Manager, online: set<ClientId>) returns (timedOut: seq<Uuid>)
    requires m.Apart()
    modifies m, m.tuners.Values
    ensures (m.StateView(), timedOut) == Walk(old(m.StateView()), online, 0, [])
  {
    ghost var s := m.StateView();
    m.StateIs();
    hide *;
    timedOut := [];
    var it := 0;
    while it < |m.pendingRequests|
      invariant it <= |m.pendingRequests| && m.pendingRequests == m.StateView().pending
      invariant Walk(s, online, 0, []) == Walk(m.StateView(), online, it, timedOut)
      decreases Work(m.pendingRequests, it)
    {
      timedOut := VisitEntry(m, online, it, timedOut);
      it := it + 1;
    }
    WalkEnds(m.StateView(), online, timedOut);
  }

  method RemoveTimedOut(m: Manager, timedOut: seq<Uuid>)
    modifies m, m.tuners.Values
    ensures m.StateView() == RemoveAll(old(m.StateView()), timedOut)
  {
    ghost var s := m.StateView();
    hide *;
    assert timedOut[0..] == timedOut && timedOut[|timedOut|..] == [];
    for i := 0 to |timedOut|
      invariant RemoveAll(s, timedOut) == RemoveAll(m.StateView(), timedOut[i..])
    {
      RemoveNext(m.StateView(), timedOut, i);
      m.RemovePendingRequest(timedOut[i]);
    }
    RemoveAllNone(m.StateView());
  }

  lemma RemoveNext(s: State, done: seq<Uuid>, i: nat)
    requires i < |done|
    ensures RemoveAll(s, done[i..]) == RemoveAll(RemovePending(s, done[i]), done[i + 1..])
  {
    assert done[i..][1..] == done[i + 1..];
    hide RemovePending;
  }

  lemma RemoveAllNone(s: State)
    ensures RemoveAll(s, []) == s
  {
  }
}
