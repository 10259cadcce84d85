// The start, duration and expiry arithmetic, with the source's clock reads and integer widths.
module Times {
  import opened Domain
  import opened Registry
  import Timers

  const TWO63: nat := 0x8000_0000_0000_0000

  // One millisecond before now, in 64-bit arithmetic.
  function JustBefore(now: nat): nat {
    if now > 0 then now - 1 else 0xFFFF_FFFF_FFFF_FFFF
  }

  // The adjusted window of a Record granted without a search. The clock is read up to three times.
  // A first recording on its tuner starts at once; one already under way starts now.
  function AdjustedStart(state: TunerState, start: nat, t1: nat, t2: nat, t3: nat): nat {
    var first := if state == FreeState || state == LiveState then JustBefore(t1) else start;
    if start < t2 then t3 else first
  }

  function AdjustedDuration(start: nat, duration: nat, start': nat): nat {
    if start' > start then
      if start' > start + duration then 0 else start + duration - start'
    else duration + start - start'
  }

  function Adjusted(state: TunerState, r: Reservation, t1: nat, t2: nat, t3: nat): Reservation {
    var start := AdjustedStart(state, r.start, t1, t2, t3);
    r.(start := start, duration := AdjustedDuration(r.start, r.duration, start))
  }

  // Whatever the start becomes, the end stays, or moves to the start if the Record was already over.
  lemma AdjustedEnd(state: TunerState, r: Reservation, t1: nat, t2: nat, t3: nat)
    ensures var r' := Adjusted(state, r, t1, t2, t3);
      r'.End() == if r'.start > r.End() then r'.start else r.End()
  {
  }

  // ---------------------------------------------------------------- remaining time in 64 bits

  const TWO64: nat := 0x1_0000_0000_0000_0000
  const MAX64: nat := TWO63 - 1

  function Int64(x: int): int {
    var low := x % TWO64;
    if low < TWO63 then low else low - TWO64
  }

  // getExpirationTime: what is left of the window, in signed 64-bit arithmetic, not below zero.
  function RemainingTime(start: nat, duration: nat, now: nat): nat {
    var left := Int64(Int64(Int64(start) - Int64(now)) + Int64(duration));
    if left < 0 then 0 else left
  }

  lemma Int64Fits(x: int)
    requires -0x8000_0000_0000_0000 <= x < TWO63
    ensures Int64(x) == x
  {
  }

  lemma Int64TooBig(x: int)
    requires TWO63 <= x < TWO63 + TWO63
    ensures Int64(x) == x - TWO64 < 0
  {
  }

  // The remaining time is right exactly when it fits; otherwise it reads as already over.
  lemma RemainingExactIff(start: nat, duration: nat, now: nat)
    requires start < TWO63 && duration < TWO63 && now < TWO63
    ensures var left := start + duration - now;
      RemainingTime(start, duration, now) == (if left > 0 then left else 0) <==> left < TWO63
  {
    Int64Fits(start);
    Int64Fits(now);
    Int64Fits(duration);
    Int64Fits(start - now);
    var left := start - now + duration;
    if left < TWO63 { Int64Fits(left); } else { Int64TooBig(left); }
    hide Int64;
  }

  // The deadline of the relative expiration timer is the end of the window.
  lemma ExpiryIsEnd(r: Reservation, now: nat)
    requires r.start < TWO63 && r.duration < TWO63 && now < TWO63 && r.End() - now < TWO63
    ensures RemainingTime(r.start, r.duration, now) == Remaining(now, r)
    ensures Timers.SetIn(r.token, Remaining(now, r), now).future == if r.End() > now then r.End() else now
  {
    RemainingExactIff(r.start, r.duration, now);
    hide RemainingTime;
  }

  // The duration of a Live that names none.
  function DefaultLiveDuration(now: nat): int {
    MAX64 - 2 * now
  }

  // It is usable and overflows nowhere when the window starts at most twice the clock of the
  // decoder: the end is a 64-bit time and the remaining time is right at every later reading.
  lemma DefaultLiveFits(start: nat, now: nat, later: nat)
    requires 2 * now < MAX64 && start <= 2 * now && later < TWO63
    ensures var duration := DefaultLiveDuration(now);
      && 0 < duration < TWO63 && start + duration < TWO63
      && RemainingTime(start, duration, later) == if start + duration > later then start + duration - later else 0
  {
    RemainingExactIff(start, DefaultLiveDuration(now), later);
    hide RemainingTime;
  }

  // The clock is read once more when the timer is set; the sum is a 64-bit time exactly when the two
  // readings are no further apart than the window starts before twice the decoder's clock.
  lemma DefaultLiveDeadlineIff(start: nat, now: nat, read: nat, again: nat)
    requires 2 * now < MAX64 && start <= 2 * now && read <= again < TWO63
    requires read < start + DefaultLiveDuration(now)
    ensures again + RemainingTime(start, DefaultLiveDuration(now), read) < TWO63 <==> again - read <= 2 * now - start
  {
    DefaultLiveFits(start, now, read);
    hide RemainingTime;
  }
}
