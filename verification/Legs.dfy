/** One provider call ("leg"): from the moment a breaker admits it until it is settled. Each step is
    what the call does between two awaits; the environment chooses how every await ends. */
module Legs {
  import opened Common
  import opened Errors
  import Breaker

  datatype Outcome = Answered | Failed(kind: ErrorKind) | Cancelled

  /** Where a leg is suspended. From `WaitingRate` to `Streaming` it holds a concurrency slot. */
  datatype Phase =
    | Entered
    | WaitingSlot(giveUp: Option<real>)
    | WaitingRate(until: real)
    | Ready
    | Calling(timer: real)
    | Sleeping(until: real)
    | Streaming
    | Done(outcome: Outcome)

  /** `probe` is the breaker's opening count when the leg was admitted half-open. `attempts` are the
      start times of its upstream attempts; `settled`, `taken` and `returned` count what it did to the
      breaker and to the slot. */
  datatype Leg = Leg(provider: string, deadline: Option<real>, allowed: int, streaming: bool, probe: Option<nat>,
                     phase: Phase, attempts: seq<real>, settled: nat, taken: nat, returned: nat, cancelling: bool)

  datatype ProviderConfig = ProviderConfig(breaker: Breaker.Config, capacity: nat, timeout: real, retry: bool)

  /** A provider's limiter: slots in use, and requests counted active (only these can be released). */
  datatype Limiter = Limiter(used: nat, active: nat)

  /** What one leg can touch: its provider's breaker and limiter. */
  datatype Scene = Scene(leg: Leg, breaker: Breaker.State, limiter: Limiter)

  datatype Event =
    | Begin | SlotGranted(wait: real) | SlotTimedOut | RateWaited | Attempt
    | Answer | Break(kind: ErrorKind, backoff: Option<real>) | TimeUp(backoff: Option<real>)
    | Wake | EndOfStream | Cancel

  predicate Expired(deadline: Option<real>, now: real) {
    deadline.Some? && now >= deadline.value
  }

  /** `Deadline.clamp` of a timeout. */
  function Clamp(deadline: Option<real>, now: real, timeout: real): real {
    if deadline.Some? && deadline.value - now < timeout then
      if deadline.value <= now then 0.0 else deadline.value - now
    else timeout
  }

  function ReleaseSlot(l: Limiter): Limiter {
    if l.active > 0 && l.used > 0 then Limiter(l.used - 1, l.active - 1) else l
  }

  /** End the leg without a slot: only the breaker is settled, by `release`. */
  function Refuse(s: Scene, o: Outcome): Scene {
    s.(leg := s.leg.(phase := Done(o), settled := s.leg.settled + 1), breaker := Breaker.Release(s.breaker))
  }

  /** End the leg and return its slot; the breaker becomes `b`. */
  function Finish(s: Scene, o: Outcome, b: Breaker.State): Scene {
    var leg := s.leg.(phase := Done(o), settled := s.leg.settled + 1, returned := s.leg.returned + 1);
    Scene(leg, b, ReleaseSlot(s.limiter))
  }

  function FinishError(c: ProviderConfig, now: real, s: Scene, k: ErrorKind): Scene {
    Finish(s, Failed(k),
      if k in BREAKER_COUNTED then Breaker.Failure(c.breaker, s.breaker, now) else Breaker.Release(s.breaker))
  }

  /** The retry loop after attempt `|attempts|` failed with `k`; `backoff` is none when the provider
      asked for a longer wait than allowed. */
  function RetryOrFail(c: ProviderConfig, now: real, s: Scene, k: ErrorKind, backoff: Option<real>): Scene {
    if c.retry && k in RETRYABLE && |s.leg.attempts| < s.leg.allowed
       && backoff.Some? && !Expired(s.leg.deadline, now + backoff.value)
    then s.(leg := s.leg.(phase := Sleeping(now + backoff.value)))
    else FinishError(c, now, s, k)
  }

  predicate Holds(leg: Leg) {
    leg.phase.WaitingRate? || Runs(leg)
  }

  predicate Runs(leg: Leg) {
    leg.phase.Ready? || leg.phase.Calling? || leg.phase.Sleeping? || leg.phase.Streaming?
  }

  predicate EnabledIn(c: ProviderConfig, now: real, s: Scene, ev: Event) {
    match ev
    case Begin => s.leg.phase.Entered?
    case SlotGranted(wait) =>
      s.leg.phase.WaitingSlot? && s.limiter.used < c.capacity && wait >= 0.0
      && (s.leg.phase.giveUp.Some? ==> now <= s.leg.phase.giveUp.value)
    case SlotTimedOut =>
      s.leg.phase.WaitingSlot? && s.leg.phase.giveUp.Some? && now >= s.leg.phase.giveUp.value
    case RateWaited => s.leg.phase.WaitingRate? && now >= s.leg.phase.until
    case Attempt => s.leg.phase.Ready?
    case Answer => s.leg.phase.Calling?
    case Break(_, backoff) =>
      (s.leg.phase.Calling? || s.leg.phase.Streaming?) && (backoff.Some? ==> backoff.value >= 0.0)
    case TimeUp(backoff) =>
      s.leg.phase.Calling? && now >= s.leg.phase.timer && (backoff.Some? ==> backoff.value >= 0.0)
    case Wake => s.leg.phase.Sleeping? && now >= s.leg.phase.until
    case EndOfStream => s.leg.phase.Streaming?
    case Cancel => s.leg.cancelling && (s.leg.phase.WaitingSlot? || (Holds(s.leg) && !s.leg.phase.Ready?))
  }

  /** What the call does with the event, at time `now`. */
  function Next(c: ProviderConfig, now: real, s: Scene, ev: Event): Scene
    requires EnabledIn(c, now, s, ev)
  {
    var leg := s.leg;
    match ev
    case Begin =>
      if Expired(leg.deadline, now) then Refuse(s, Failed(Deadline))
      else s.(leg := leg.(phase := WaitingSlot(leg.deadline)))
    case SlotGranted(wait) =>
      if leg.phase.giveUp.Some? && now + wait > leg.phase.giveUp.value then
        Refuse(s.(leg := leg.(taken := leg.taken + 1, returned := leg.returned + 1)), Failed(RateLimit))
      else
        s.(leg := leg.(phase := WaitingRate(now + wait), taken := leg.taken + 1),
           limiter := s.limiter.(used := s.limiter.used + 1))
    case SlotTimedOut => Refuse(s, Failed(RateLimit))
    case RateWaited =>
      s.(leg := leg.(phase := Ready), limiter := s.limiter.(active := s.limiter.active + 1))
    case Attempt =>
      var seconds := Clamp(leg.deadline, now, c.timeout);
      if seconds <= 0.0 then FinishError(c, now, s, Deadline)
      else s.(leg := leg.(phase := Calling(now + seconds), attempts := leg.attempts + [now]))
    case Answer =>
      if leg.streaming then s.(leg := leg.(phase := Streaming))
      else Finish(s, Answered, Breaker.Success(c.breaker, s.breaker, now))
    case Break(kind, backoff) =>
      if leg.phase.Streaming? then FinishError(c, now, s, kind) else RetryOrFail(c, now, s, kind, backoff)
    case TimeUp(backoff) =>
      RetryOrFail(c, now, s, if Expired(leg.deadline, now) then Deadline else Timeout, backoff)
    case Wake => s.(leg := leg.(phase := Ready))
    case EndOfStream => Finish(s, Answered, Breaker.Success(c.breaker, s.breaker, now))
    case Cancel =>
      if leg.phase.WaitingSlot? then Refuse(s, Cancelled)
      else if leg.phase.WaitingRate? then
        // acquire() itself gives the slot back; the request was never counted active
        Refuse(s.(leg := leg.(returned := leg.returned + 1),
                  limiter := s.limiter.(used := if s.limiter.used > 0 then s.limiter.used - 1 else 0)), Cancelled)
      else Finish(s, Cancelled, Breaker.Release(s.breaker))
  }

  // ----- What every step of a leg keeps ------------------------------------------------

  function B(b: bool): nat { if b then 1 else 0 }

  /** The instant by which a suspended leg moves on by itself. */
  function Timer(leg: Leg): Option<real> {
    match leg.phase
    case WaitingSlot(g) => g
    case WaitingRate(u) => Some(u)
    case Calling(t) => Some(t)
    case Sleeping(u) => Some(u)
    case _ => None
  }

  /** Settled once exactly when done; a slot returned once for each one taken; no attempt started at or
      after the deadline, nor more than allowed; and every timer within the deadline. */
  ghost predicate LegInv(leg: Leg) {
    && leg.settled == B(leg.phase.Done?)
    && leg.taken == leg.returned + B(Holds(leg)) && leg.taken <= 1
    && (leg.phase.Entered? || leg.phase.WaitingSlot? ==> leg.taken == 0 && leg.attempts == [])
    && (leg.phase.WaitingRate? ==> leg.attempts == [])
    && (leg.phase.Ready? || leg.phase.Sleeping? ==> leg.attempts == [] || |leg.attempts| < leg.allowed)
    && (leg.attempts == [] || |leg.attempts| == 1 || |leg.attempts| <= leg.allowed)
    && (leg.deadline.Some? ==> forall t <- leg.attempts :: t < leg.deadline.value)
    && (leg.deadline.Some? && (Timer(leg).Some? || leg.phase.WaitingSlot?) ==>
          Timer(leg).Some? && Timer(leg).value <= leg.deadline.value)
  }

  /** A leg changes its breaker only when it settles: it records a success exactly if it was answered, and a
      failure exactly if it ran and the provider was at fault. */
  ghost predicate BreakerMove(c: ProviderConfig, now: real, s: Scene, s': Scene) {
    match s'.leg.phase
    case Done(Answered) => s'.breaker == Breaker.Success(c.breaker, s.breaker, now)
    case Done(Failed(k)) =>
      s'.breaker == if Runs(s.leg) && ProvidersFault(k) then Breaker.Failure(c.breaker, s.breaker, now)
                    else Breaker.Release(s.breaker)
    case Done(Cancelled) => s'.breaker == Breaker.Release(s.breaker)
    case _ => s'.breaker == s.breaker
  }

  ghost predicate SameCall(a: Leg, b: Leg) {
    a.provider == b.provider && a.deadline == b.deadline && a.allowed == b.allowed
    && a.streaming == b.streaming && a.probe == b.probe && a.cancelling == b.cancelling
  }

  /** The leg keeps its invariant and its identity, the breaker moves only on settling, and the
      limiter counts exactly the slot the leg gained or gave up. */
  ghost predicate GoodStep(c: ProviderConfig, now: real, s: Scene, s': Scene) {
    && LegInv(s'.leg) && SameCall(s.leg, s'.leg) && BreakerMove(c, now, s, s') && !s.leg.phase.Done?
    && (s.leg.phase.Streaming? ==> s'.leg.phase.Done?) && (s'.leg.phase.Streaming? ==> s.leg.streaming)
    && s'.limiter.used <= c.capacity
    && s'.limiter.used + B(Holds(s.leg)) == s.limiter.used + B(Holds(s'.leg))
    && s'.limiter.active + B(Runs(s.leg)) == s.limiter.active + B(Runs(s'.leg))
  }

  /** The limiter counts this leg's slot, and its activity, if it has them. */
  ghost predicate Accounted(c: ProviderConfig, s: Scene) {
    && s.limiter.used <= c.capacity
    && (Holds(s.leg) ==> s.limiter.used > 0)
    && (Runs(s.leg) ==> s.limiter.active > 0)
  }

  lemma FinishIsGood(c: ProviderConfig, now: real, s: Scene, o: Outcome, b: Breaker.State)
    requires LegInv(s.leg) && Accounted(c, s) && Runs(s.leg) && BreakerMove(c, now, s, Finish(s, o, b))
    ensures GoodStep(c, now, s, Finish(s, o, b))
  {
  }

  lemma RetryOrFailIsGood(c: ProviderConfig, now: real, s: Scene, k: ErrorKind, backoff: Option<real>)
    requires LegInv(s.leg) && Accounted(c, s) && s.leg.phase.Calling?
    ensures GoodStep(c, now, s, RetryOrFail(c, now, s, k, backoff))
  {
    if RetryOrFail(c, now, s, k, backoff).leg.phase.Done? {
      var b := if k in BREAKER_COUNTED then Breaker.Failure(c.breaker, s.breaker, now) else Breaker.Release(s.breaker);
      FinishIsGood(c, now, s, Failed(k), b);
    }
  }

  lemma StepKeepsLeg(c: ProviderConfig, now: real, s: Scene, ev: Event)
    requires EnabledIn(c, now, s, ev) && LegInv(s.leg) && Accounted(c, s)
    ensures GoodStep(c, now, s, Next(c, now, s, ev))
  {
    match ev
    case Attempt =>
      if Clamp(s.leg.deadline, now, c.timeout) <= 0.0 {
        FinishIsGood(c, now, s, Failed(Deadline), Breaker.Release(s.breaker));
      }
    case Answer =>
      if !s.leg.streaming {
        FinishIsGood(c, now, s, Answered, Breaker.Success(c.breaker, s.breaker, now));
      }
    case Break(k, backoff) =>
      if s.leg.phase.Streaming? {
        var b := if k in BREAKER_COUNTED then Breaker.Failure(c.breaker, s.breaker, now) else Breaker.Release(s.breaker);
        FinishIsGood(c, now, s, Failed(k), b);
      } else {
        RetryOrFailIsGood(c, now, s, k, backoff);
      }
    case TimeUp(backoff) =>
      RetryOrFailIsGood(c, now, s, if Expired(s.leg.deadline, now) then Deadline else Timeout, backoff);
    case EndOfStream => FinishIsGood(c, now, s, Answered, Breaker.Success(c.breaker, s.breaker, now));
    case Cancel =>
      if Runs(s.leg) {
        FinishIsGood(c, now, s, Cancelled, Breaker.Release(s.breaker));
      } else {
        BeforeRunningIsGood(c, now, s, ev);
      }
    case _ => BeforeRunningIsGood(c, now, s, ev);
  }

  lemma BeforeRunningIsGood(c: ProviderConfig, now: real, s: Scene, ev: Event)
    requires EnabledIn(c, now, s, ev) && LegInv(s.leg) && Accounted(c, s)
    requires !Runs(s.leg) || ev.Wake?
    ensures GoodStep(c, now, s, Next(c, now, s, ev))
  {
  }

  /** An upstream attempt starts only before the deadline, and has the provider's timeout or what is left of
      the deadline, whichever is shorter. */
  lemma AttemptsWithinDeadline(c: ProviderConfig, now: real, s: Scene)
    requires EnabledIn(c, now, s, Attempt)
    ensures var s', left := Next(c, now, s, Attempt), if s.leg.deadline.Some? then s.leg.deadline.value - now else c.timeout;
      if left > 0.0 && c.timeout > 0.0 then
        s'.leg.phase == Calling(now + Min(c.timeout, left)) && s'.leg.attempts == s.leg.attempts + [now]
      else s'.leg.phase == Done(Failed(Deadline)) && s'.leg.attempts == s.leg.attempts
  {
  }

  /** When an attempt fails the call waits for another one if and only if retries are on, the error is transient,
      attempts are left, the provider asked for no longer wait than allowed and the wait ends before the deadline;
      otherwise the call fails with that error. */
  lemma RetriedIff(c: ProviderConfig, now: real, s: Scene, ev: Event)
    requires EnabledIn(c, now, s, ev) && s.leg.phase.Calling? && (ev.Break? || ev.TimeUp?)
    ensures var leg := Next(c, now, s, ev).leg;
      var past := s.leg.deadline.Some? && s.leg.deadline.value <= now;
      var k := if ev.Break? then ev.kind else if past then Deadline else Timeout;
      if && c.retry && Transient(k) && |s.leg.attempts| < s.leg.allowed && ev.backoff.Some?
         && (s.leg.deadline.Some? ==> now + ev.backoff.value < s.leg.deadline.value)
      then leg.phase == Sleeping(now + ev.backoff.value)
      else leg.phase == Done(Failed(k))
  {
  }

  /** What ended a call: it was answered, or its stream ran out; it was cancelled; or it failed with the error
      of its last attempt or of its stream, at its deadline, or waiting for a slot. */
  lemma EndsBy(c: ProviderConfig, now: real, s: Scene, ev: Event)
    requires EnabledIn(c, now, s, ev) && c.timeout > 0.0
    ensures var leg := Next(c, now, s, ev).leg;
      var past := s.leg.deadline.Some? && s.leg.deadline.value <= now;
      && (leg.phase == Done(Answered) <==> ev.EndOfStream? || (ev.Answer? && !s.leg.streaming))
      && (leg.phase == Done(Cancelled) <==> ev.Cancel?)
      && (leg.phase.Streaming? <==> ev.Answer? && s.leg.streaming)
      && (leg.phase.Done? && leg.phase.outcome.Failed? ==>
            var k := leg.phase.outcome.kind;
            match ev
            case Break(kind, _) => k == kind
            case TimeUp(_) => k == if past then Deadline else Timeout
            case Begin => past && k.Deadline?
            case Attempt => past && k.Deadline?
            case SlotTimedOut => k.RateLimit?
            case SlotGranted(wait) => s.leg.phase.giveUp.Some? && now + wait > s.leg.phase.giveUp.value && k.RateLimit?
            case _ => false)
      && (ev.SlotTimedOut? || ((ev.Begin? || ev.Attempt?) && past) || (ev.Break? && s.leg.phase.Streaming?) ==>
            leg.phase.Done?)
  {
  }

  /** A leg whose timer has come can always move on its own; so can one about to run and, once its
      cancellation is under way, one suspended at an await. */
  lemma LegCanMove(c: ProviderConfig, now: real, s: Scene) returns (ev: Event)
    requires LegInv(s.leg)
    requires
      || s.leg.phase.Entered? || s.leg.phase.Ready?
      || (Timer(s.leg).Some? && now >= Timer(s.leg).value)
      || (s.leg.cancelling && !s.leg.phase.Done?)
    ensures EnabledIn(c, now, s, ev)
  {
    match s.leg.phase
    case Entered => ev := Begin;
    case Ready => ev := Attempt;
    case WaitingSlot(_) => ev := if s.leg.cancelling then Cancel else SlotTimedOut;
    case WaitingRate(_) => ev := if s.leg.cancelling then Cancel else RateWaited;
    case Calling(_) => ev := if s.leg.cancelling then Cancel else TimeUp(None);
    case Sleeping(_) => ev := if s.leg.cancelling then Cancel else Wake;
    case Streaming => ev := Cancel;
  }
}
