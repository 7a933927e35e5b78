/** The provider limiter and the routing protocol agree on what happens to a call that gets a slot. */
module LimitedLegs {
  import opened Common
  import opened Errors
  import opened Legs
  import Limiter

  /** The longest wait a call tells the limiter when it starts to wait: the rest of its deadline. */
  function MaxWait(deadline: Option<real>, started: real): Option<real> {
    if deadline.Some? then Some(deadline.value - started) else None
  }

  /** A call that begins at `started` and gets a slot at `now`, with the buckets as they are then, takes
      the protocol's step for the limiter's own wait: refused exactly if the limiter rejects it, and
      otherwise ready at the instant the limiter admits it. */
  lemma SlotWaitIsTheLimiters(c: ProviderConfig, started: real, now: real, entered: Scene, s: Scene,
                              a: Limiter.Bucket, b: Limiter.Bucket, tokens: real)
    requires entered.leg.phase.Entered? && !Expired(entered.leg.deadline, started) && started <= now
    requires s.leg == Next(c, started, entered, Begin).leg && EnabledIn(c, now, s, SlotGranted(0.0))
    requires Limiter.Good(a) && Limiter.Good(b) && tokens >= 0.0
    ensures var wait := Limiter.RateWait(a, b, tokens, now);
      && EnabledIn(c, now, s, SlotGranted(wait))
      && var s' := Next(c, now, s, SlotGranted(wait));
         if Limiter.WaitTooLong(wait, MaxWait(entered.leg.deadline, started), started, now)
         then s'.leg.phase == Done(Failed(RateLimit)) && s'.limiter == s.limiter
         else s'.leg.phase == WaitingRate(now + wait) && s'.limiter.used == s.limiter.used + 1
  {
    var r1, r2 := Limiter.Reserve(a, 1.0, now), Limiter.Reserve(b, tokens, now);
    WaitNotNegative(r1);
    WaitNotNegative(r2);
  }

  lemma WaitNotNegative(b: Limiter.Bucket)
    requires b.rate > 0.0
    ensures Limiter.Wait(b) >= 0.0
  {
    if b.tokens < 0.0 {
      assert -b.tokens / b.rate >= 0.0;
    }
  }
}
