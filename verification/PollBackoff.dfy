/** The client's poll cadence (`_poll_ceiling`, `_next_poll_delay`), in seconds over the reals. */
module PollBackoff {
  import opened TaskTypes

  const MIN_POLL_INTERVAL := 0.02

  // The client setting is validated to be positive.
  type Setting = s: real | s > 0.0 witness 0.5

  function Min(a: real, b: real): real { if a <= b then a else b }
  function Max(a: real, b: real): real { if a <= b then b else a }

  function PollCeiling(advertised: Option<real>, setting: Setting): real {
    match advertised
    case Some(ms) => if ms > 0.0 then Max(ms / 1000.0, MIN_POLL_INTERVAL) else setting
    case None => setting
  }

  // The delay before the next poll, and the backoff for the round after.
  function NextPollDelay(advertised: Option<real>, setting: Setting, backoff: real): (real, real) {
    var ceiling := PollCeiling(advertised, setting);
    (Min(backoff, ceiling), Min(backoff * 2.0, ceiling))
  }

  /** The backoff once the server has advertised `ads`, one per round, and the time slept by then. */
  function Backoff(ads: seq<Option<real>>, setting: Setting): real {
    if ads == [] then MIN_POLL_INTERVAL
    else NextPollDelay(ads[|ads| - 1], setting, Backoff(ads[..|ads| - 1], setting)).1
  }

  function Delay(ads: seq<Option<real>>, advertised: Option<real>, setting: Setting): real {
    NextPollDelay(advertised, setting, Backoff(ads, setting)).0
  }

  function TimeSlept(ads: seq<Option<real>>, setting: Setting): real {
    if ads == [] then 0.0
    else
      var n := |ads| - 1;
      TimeSlept(ads[..n], setting) + Delay(ads[..n], ads[n], setting)
  }

  // The least any round sleeps.
  function Least(setting: Setting): (m: real)
    ensures m > 0.0
  {
    Min(MIN_POLL_INTERVAL, setting)
  }

  lemma CeilingAtLeast(advertised: Option<real>, setting: Setting)
    ensures PollCeiling(advertised, setting) >= Least(setting)
  {}

  lemma {:induction false} BackoffBounds(ads: seq<Option<real>>, setting: Setting)
    ensures Least(setting) <= Backoff(ads, setting) <= TimeSlept(ads, setting) + MIN_POLL_INTERVAL
  {
    if ads != [] {
      var n := |ads| - 1;
      BackoffBounds(ads[..n], setting);
      CeilingAtLeast(ads[n], setting);
    }
  }

  /** Every delay is at least the smaller of the floor and the setting, so the client never spins. */
  lemma DelayAtLeast(ads: seq<Option<real>>, advertised: Option<real>, setting: Setting)
    ensures Delay(ads, advertised, setting) >= Least(setting)
  {
    BackoffBounds(ads, setting);
    CeilingAtLeast(advertised, setting);
  }

  /** The latency bound, for every sequence of advertised intervals: with t the time slept before a poll, the
      next poll comes no later than 2t + floor, and no later than t + the ceiling in force. */
  lemma PollLatency(ads: seq<Option<real>>, advertised: Option<real>, setting: Setting)
    ensures var t, t' := TimeSlept(ads, setting), TimeSlept(ads + [advertised], setting);
            && t < t' <= Min(2.0 * t + MIN_POLL_INTERVAL, t + PollCeiling(advertised, setting))
  {
    BackoffBounds(ads, setting);
    DelayAtLeast(ads, advertised, setting);
    assert (ads + [advertised])[..|ads|] == ads;
  }

  /** A task that ends at time `done`, between two polls, is noticed by 2 * done + floor, and within one ceiling. */
  lemma NoticedSoon(ads: seq<Option<real>>, advertised: Option<real>, setting: Setting, done: real)
    requires TimeSlept(ads, setting) < done <= TimeSlept(ads + [advertised], setting)
    ensures TimeSlept(ads + [advertised], setting) <=
            Min(2.0 * done + MIN_POLL_INTERVAL, done + PollCeiling(advertised, setting))
  {
    PollLatency(ads, advertised, setting);
  }

  function Pow2(k: nat): real {
    if k == 0 then 1.0 else 2.0 * Pow2(k - 1)
  }

  function Same(advertised: Option<real>, k: nat): seq<Option<real>> {
    seq(k, i => advertised)
  }

  lemma {:induction false} ConstantBackoff(advertised: Option<real>, setting: Setting, k: nat)
    requires k > 0
    ensures Backoff(Same(advertised, k), setting) ==
            Min(MIN_POLL_INTERVAL * Pow2(k), PollCeiling(advertised, setting))
  {
    assert Same(advertised, k)[..k - 1] == Same(advertised, k - 1);
    CeilingAtLeast(advertised, setting);
    if k == 1 {
      assert Pow2(1) == 2.0;
    } else {
      ConstantBackoff(advertised, setting, k - 1);
    }
  }

  /** Against a constant ceiling c the k-th delay is min(floor * 2^k, c). */
  lemma ConstantDelay(advertised: Option<real>, setting: Setting, k: nat)
    ensures Delay(Same(advertised, k), advertised, setting) ==
            Min(MIN_POLL_INTERVAL * Pow2(k), PollCeiling(advertised, setting))
  {
    if k > 0 { ConstantBackoff(advertised, setting, k); }
  }

  /** "The ceiling is never below MIN_POLL_INTERVAL" holds if and only if the server advertises a positive
      interval or the setting is not below the floor itself. */
  lemma CeilingFloor(advertised: Option<real>, setting: Setting)
    ensures PollCeiling(advertised, setting) >= MIN_POLL_INTERVAL <==>
            (advertised.Some? && advertised.value > 0.0) || setting >= MIN_POLL_INTERVAL
  {}

  /** The ceiling is the advertised number of milliseconds, in seconds, but never below 20 ms; and the setting if no
      positive number is advertised. */
  lemma CeilingMeans(advertised: Option<real>, setting: Setting)
    ensures advertised.Some? && advertised.value >= 20.0 ==> PollCeiling(advertised, setting) * 1000.0 == advertised.value
    ensures advertised.Some? && 0.0 < advertised.value < 20.0 ==> PollCeiling(advertised, setting) * 1000.0 == 20.0
    ensures advertised.None? || advertised.value <= 0.0 ==> PollCeiling(advertised, setting) == setting
  {}

  // A setting the validation accepts and the ceiling falls short of the floor with.
  lemma CeilingBelowFloor()
    ensures PollCeiling(None, 0.01) < MIN_POLL_INTERVAL
  {}
}
