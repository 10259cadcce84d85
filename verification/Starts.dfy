// What a start does to its tuner, reservation by reservation.
module Starts {
  import opened Domain
  import opened Tuners
  import opened Registry
  import opened LivePlacement
  import opened Plain
  import opened Lifecycle
  import Runs

  // The tuner with one more reservation running.
  function Running1(h: Holdings, t: Token): Holdings
    requires t in h
  {
    h[t := h[t].(phase := ACTIVE)]
  }

  // Viewers follow the recording: while something is recorded, a Live that runs is on the channel of the first
  // Record that runs. Nothing else changes.
  ghost predicate Follows(h: Holdings, h': Holdings) {
    h'.Keys == h.Keys && forall u :: u in h ==>
      if Is(h[u], Live, ACTIVE) && Running(h, Record)
      then h'[u] == h[u].(locator := h'[u].locator) && EarliestOn(h, Record, ACTIVE, h'[u].locator)
      else h'[u] == h[u]
  }

  lemma SyncedFollows(h: Holdings)
    requires forall u :: u in h ==> WellKept(h[u])
    ensures Follows(h, Synced(h))
  {
    StateMeans(h);
    RecordLocatorIs(h);
    LivesRun(h);
    hide StateOf, RecordLocator, EarliestOn, Running;
  }

  lemma LivesRun(h: Holdings)
    ensures forall u :: u in h && Is(h[u], Live, ACTIVE) ==> Running(h, Live)
  {
  }

  lemma RecordLocatorIs(h: Holdings)
    requires forall u :: u in h ==> WellKept(h[u])
    ensures Running(h, Record) ==> RecordLocator(h) != "" && EarliestOn(h, Record, ACTIVE, RecordLocator(h))
  {
    var found := FindReservation(h, Record, ACTIVE);
    FirstOnMeans(h, Record, ACTIVE, RecordLocator(h));
    if Running(h, Record) {
      var t :| t in h && h[t].activity == Record && h[t].phase == ACTIVE;
      assert Fits(h[t], Record, ACTIVE, "");
      assert WellKept(h[found.value]);
    }
    hide EarliestOn;
  }

  // A reservation that starts runs, and the tuner's viewers follow its recording.
  lemma StartExact(s: Book, t: Token)
    requires AllWellKept(s) && IsHeld(s, t) && Lookup(s, t).phase == IDLE
    ensures var id := HomeOf(s, t);
      && Start(s, t).tuners.Keys == s.tuners.Keys
      && (forall i :: i in s.tuners && i != id ==> Start(s, t).tuners[i] == s.tuners[i])
      && Follows(Running1(s.tuners[id], t), Start(s, t).tuners[id])
  {
    var id := HomeOf(s, t);
    KeptOn(s, id);
    var h := s.tuners[id];
    StillKept(h, t);
    Runs.StartTuners(s, t);
    hide *;
    SyncedFollows(Running1(h, t));
    StartedIs(s, t);
  }

  lemma StillKept(h: Holdings, t: Token)
    requires t in h && forall u :: u in h ==> WellKept(h[u])
    ensures forall u :: u in Running1(h, t) ==> WellKept(Running1(h, t)[u])
  {
  }

  lemma StartedIs(s: Book, t: Token)
    requires IsHeld(s, t)
    ensures StartedTuner(s, t) == Synced(Running1(s.tuners[HomeOf(s, t)], t))
  {
    hide Synced, IsHeld, HomeOf;
  }
}
