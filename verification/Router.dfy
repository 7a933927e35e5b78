/** The routing protocol: requests walk their candidates, opening legs directly, as hedged pairs or as
    streams, while time passes and other requests interleave at every await. */
module Router {
  import opened Common
  import opened Errors
  import opened Legs
  import Breaker

  type Id = (nat, nat)  // request and position among its candidates

  datatype Final = Returned | Raised | Aborted

  datatype ReqPhase =
    | Looping                                                      // about to try candidate `index`
    | Direct                                                       // awaiting the leg at `index`
    | HedgeFirst(until: real)                                      // the same, for at most the hedge delay
    | PrimaryOnly                                                  // the partner was refused: awaiting the primary
    | Hedged(first: Option<ErrorKind>, second: Option<ErrorKind>)  // both legs run; errors seen so far
    | StreamOpen                                                   // first chunk delivered
    | Draining(final: Final)                                       // waiting for cancelled legs
    | Finished(final: Final)

  datatype Request = Request(cands: seq<string>, arrived: real, deadline: Option<real>, hedge: Option<real>,
                             streaming: bool, index: nat, skip: set<string>, phase: ReqPhase)

  datatype RouterConfig = RouterConfig(providers: map<string, ProviderConfig>, maxRetry: int, beforeFailover: int, failover: bool)

  datatype Sys = Sys(now: real, breakers: map<string, Breaker.State>, limiters: map<string, Limiter>,
                     reqs: map<nat, Request>, legs: map<Id, Leg>)

  datatype SysEvent =
    | Arrive(rid: nat, cands: seq<string>, seconds: Option<real>, hedge: Option<real>, streaming: bool)
    | LegMoves(id: Id, event: Event)
    | Loop(rid: nat)
    | Resume(rid: nat)
    | HedgeTimer(rid: nat)
    | Collect(rid: nat, second: bool)
    | Abort(rid: nat)
    | Tick(dt: real)

  /** Attempts granted to the candidate at `pos` of `n`; 0 falls back to the retry manager's own limit. */
  function Allowed(c: RouterConfig, pos: nat, n: nat): int {
    var a := if pos + 1 < n && c.beforeFailover < c.maxRetry then c.beforeFailover else c.maxRetry;
    if a == 0 then c.maxRetry else a
  }

  function NewLeg(c: RouterConfig, r: Request, pos: nat, b: Breaker.State): Leg
    requires pos < |r.cands|
  {
    Leg(r.cands[pos], r.deadline, Allowed(c, pos, |r.cands|), r.streaming,
        if b.phase.HalfOpen? then Some(b.totalOpened) else None, Entered, [], 0, 0, 0, false)
  }

  // ----- Well-formed systems -------------------------------------------------------------

  ghost predicate Known(c: RouterConfig, s: Sys) {
    && s.breakers.Keys == s.limiters.Keys == c.providers.Keys
    && (forall rid <- s.reqs :: RequestOk(c, s.reqs[rid]))
    && (forall id <- s.legs :: LegBelongs(c, s, id))
  }

  ghost predicate RequestOk(c: RouterConfig, r: Request) {
    && (forall p <- r.cands :: p in c.providers)
    && r.index <= |r.cands|
    && (r.hedge.Some? ==> !r.streaming)
  }

  /** Every leg was opened for a candidate of its own request, with that candidate's allowance. */
  ghost predicate LegBelongs(c: RouterConfig, s: Sys, id: Id)
    requires id in s.legs
  {
    && id.0 in s.reqs && id.1 < |s.reqs[id.0].cands|
    && s.legs[id].provider == s.reqs[id.0].cands[id.1] && s.legs[id].provider in c.providers
    && s.legs[id].deadline == s.reqs[id.0].deadline
    && s.legs[id].allowed == Allowed(c, id.1, |s.reqs[id.0].cands|)
    && s.legs[id].streaming == s.reqs[id.0].streaming
  }

  // ----- Steps ------------------------------------------------------------------------------

  function SceneOf(s: Sys, id: Id): Scene
    requires id in s.legs && s.legs[id].provider in s.breakers && s.legs[id].provider in s.limiters
  {
    Scene(s.legs[id], s.breakers[s.legs[id].provider], s.limiters[s.legs[id].provider])
  }

  function WithScene(s: Sys, id: Id, scene: Scene): Sys {
    var p := scene.leg.provider;
    s.(legs := s.legs[id := scene.leg], breakers := s.breakers[p := scene.breaker],
       limiters := s.limiters[p := scene.limiter])
  }

  function WithRequest(s: Sys, rid: nat, r: Request): Sys {
    s.(reqs := s.reqs[rid := r])
  }

  predicate CanHedge(r: Request) {
    && r.hedge.Some? && r.index + 1 < |r.cands| && !r.streaming
    && r.cands[r.index + 1] !in r.skip && r.cands[r.index + 1] != r.cands[r.index]
  }

  /** One turn of the candidate loop. */
  function LoopStep(c: RouterConfig, s: Sys, rid: nat): Sys
    requires Known(c, s) && rid in s.reqs && s.reqs[rid].phase.Looping?
  {
    var r := s.reqs[rid];
    if r.index == |r.cands| then WithRequest(s, rid, r.(phase := Finished(Raised)))
    else
      var p := r.cands[r.index];
      if p in r.skip then WithRequest(s, rid, r.(index := r.index + 1))
      else
        var b := Breaker.Allow(c.providers[p].breaker, s.breakers[p], s.now);
        var t := s.(breakers := s.breakers[p := b]);
        if !Breaker.WouldAllow(c.providers[p].breaker, s.breakers[p], s.now) then
          WithRequest(t, rid, r.(index := r.index + 1))
        else
          var phase := if CanHedge(r) then HedgeFirst(s.now + r.hedge.value) else Direct;
          WithRequest(t.(legs := t.legs[(rid, r.index) := NewLeg(c, r, r.index, b)]), rid, r.(phase := phase))
  }

  /** A failed candidate: give up, or go on with the next one. */
  function AfterError(c: RouterConfig, r: Request, k: ErrorKind): Request {
    if k.Deadline? || !(c.failover && k in FAILOVER) then r.(phase := Finished(Raised))
    else r.(phase := Looping, index := r.index + 1)
  }

  predicate LegDone(s: Sys, id: Id) {
    id in s.legs ==> s.legs[id].phase.Done?
  }

  predicate CanResume(s: Sys, rid: nat) {
    && rid in s.reqs
    && var r := s.reqs[rid];
       match r.phase
       case Direct => (rid, r.index) in s.legs && (LegDone(s, (rid, r.index)) || s.legs[(rid, r.index)].phase.Streaming?)
       case HedgeFirst(_) => (rid, r.index) in s.legs && LegDone(s, (rid, r.index))
       case PrimaryOnly => (rid, r.index) in s.legs && LegDone(s, (rid, r.index))
       case StreamOpen => (rid, r.index) in s.legs && LegDone(s, (rid, r.index))
       case Draining(_) => LegDone(s, (rid, r.index)) && LegDone(s, (rid, r.index + 1))
       case _ => false
  }

  /** The awaited leg is in phase `p`: it ended, or delivered the first chunk of a stream. */
  function Resumed(c: RouterConfig, r: Request, p: Phase): Request {
    match p
    case Done(Answered) => r.(phase := Finished(Returned))
    case Done(Failed(k)) => if r.phase.StreamOpen? then r.(phase := Finished(Raised)) else AfterError(c, r, k)
    case Done(Cancelled) => r.(phase := Finished(Aborted))
    case _ => r.(phase := StreamOpen)
  }

  function ResumeStep(c: RouterConfig, s: Sys, rid: nat): Sys
    requires CanResume(s, rid)
  {
    var r := s.reqs[rid];
    if r.phase.Draining? then WithRequest(s, rid, r.(phase := Finished(r.phase.final)))
    else WithRequest(s, rid, Resumed(c, r, s.legs[(rid, r.index)].phase))
  }

  predicate HedgeTimerDue(s: Sys, rid: nat) {
    && rid in s.reqs && s.reqs[rid].phase.HedgeFirst? && s.now >= s.reqs[rid].phase.until
    && (rid, s.reqs[rid].index) in s.legs && !LegDone(s, (rid, s.reqs[rid].index))
  }

  /** The primary is still running after the hedge delay: ask the partner too, if its breaker lets it. */
  function HedgeStep(c: RouterConfig, s: Sys, rid: nat): Sys
    requires Known(c, s) && HedgeTimerDue(s, rid) && s.reqs[rid].index + 1 < |s.reqs[rid].cands|
  {
    var r := s.reqs[rid];
    var p := r.cands[r.index + 1];
    var b := Breaker.Allow(c.providers[p].breaker, s.breakers[p], s.now);
    var t := s.(breakers := s.breakers[p := b]);
    if !Breaker.WouldAllow(c.providers[p].breaker, s.breakers[p], s.now) then
      WithRequest(t, rid, r.(phase := PrimaryOnly))
    else
      WithRequest(t.(legs := t.legs[(rid, r.index + 1) := NewLeg(c, r, r.index + 1, b)]), rid,
                  r.(skip := r.skip + {p}, phase := Hedged(None, None)))
  }

  function CancelLeg(s: Sys, id: Id): Sys {
    if id in s.legs then s.(legs := s.legs[id := s.legs[id].(cancelling := true)]) else s
  }

  function CancelBoth(s: Sys, rid: nat, index: nat): Sys {
    CancelLeg(CancelLeg(s, (rid, index)), (rid, index + 1))
  }

  /** Cancel what is left of the current legs and wait for them to end. */
  function Drain(s: Sys, rid: nat, final: Final): Sys
    requires rid in s.reqs
  {
    WithRequest(CancelBoth(s, rid, s.reqs[rid].index), rid, s.reqs[rid].(phase := Draining(final)))
  }

  predicate CanCollect(s: Sys, rid: nat, second: bool) {
    && rid in s.reqs && s.reqs[rid].phase.Hedged?
    && var r := s.reqs[rid];
       var id := (rid, if second then r.index + 1 else r.index);
       && (if second then r.phase.second.None? else r.phase.first.None?)
       && id in s.legs && LegDone(s, id)
  }

  /** One leg of a hedged pair failed with `k`; when both have, the primary's error decides, unless
      one of the two is the deadline. */
  function PairFailed(c: RouterConfig, r: Request, second: bool, k: ErrorKind): Request
    requires r.phase.Hedged?
  {
    var e1 := if second then r.phase.first else Some(k);
    var e2 := if second then Some(k) else r.phase.second;
    if e1.None? || e2.None? then r.(phase := Hedged(e1, e2))
    else AfterError(c, r, if e2.value.Deadline? then Deadline else e1.value)
  }

  /** One leg of a hedged pair has ended. */
  function CollectStep(c: RouterConfig, s: Sys, rid: nat, second: bool): Sys
    requires CanCollect(s, rid, second)
  {
    var r := s.reqs[rid];
    match s.legs[(rid, if second then r.index + 1 else r.index)].phase.outcome
    case Answered => Drain(s, rid, Returned)
    case Cancelled => Drain(s, rid, Aborted)
    case Failed(k) => WithRequest(s, rid, PairFailed(c, r, second, k))
  }

  /** The caller is cancelled or disconnects. During the first hedge wait the primary is left running. */
  predicate CanAbort(s: Sys, rid: nat) {
    rid in s.reqs && !s.reqs[rid].phase.Finished? && !s.reqs[rid].phase.Looping?
  }

  function AbortStep(s: Sys, rid: nat): Sys
    requires CanAbort(s, rid)
  {
    var r := s.reqs[rid];
    if r.phase.HedgeFirst? then WithRequest(s, rid, r.(phase := Finished(Aborted)))
    else Drain(s, rid, Aborted)
  }

  // ----- Time ----------------------------------------------------------------------------------

  predicate LegUrgent(s: Sys, id: Id)
    requires id in s.legs
  {
    s.legs[id].phase.Entered? || s.legs[id].phase.Ready? || (s.legs[id].cancelling && !s.legs[id].phase.Done?)
  }

  predicate ReqUrgent(s: Sys, rid: nat)
    requires rid in s.reqs
  {
    s.reqs[rid].phase.Looping? || CanResume(s, rid) || CanCollect(s, rid, false) || CanCollect(s, rid, true)
  }

  /** Timers are exact: time passes only while nothing is ready to run, and never past a timer. */
  predicate CanTick(s: Sys, dt: real) {
    && dt > 0.0
    && (forall id <- s.legs :: !LegUrgent(s, id) && (Timer(s.legs[id]).Some? ==> s.now + dt <= Timer(s.legs[id]).value))
    && (forall rid <- s.reqs :: !ReqUrgent(s, rid)
          && (s.reqs[rid].phase.HedgeFirst? ==> s.now + dt <= s.reqs[rid].phase.until))
  }

  // ----- Runs ----------------------------------------------------------------------------------

  predicate CanArrive(c: RouterConfig, s: Sys, ev: SysEvent)
    requires ev.Arrive?
  {
    && ev.rid !in s.reqs && ev.cands != [] && (forall p <- ev.cands :: p in c.providers)
    && (ev.hedge.Some? ==> !ev.streaming && ev.hedge.value >= 0.0)
  }

  function NewRequest(now: real, cands: seq<string>, seconds: Option<real>, hedge: Option<real>, streaming: bool): Request {
    var deadline := if seconds.Some? then Some(now + seconds.value) else None;
    Request(cands, now, deadline, hedge, streaming, 0, {}, Looping)
  }

  ghost predicate EnabledAt(c: RouterConfig, s: Sys, ev: SysEvent) {
    match ev
    case Arrive(_, _, _, _, _) => CanArrive(c, s, ev)
    case LegMoves(id, e) =>
      id in s.legs && Known(c, s) && EnabledIn(c.providers[s.legs[id].provider], s.now, SceneOf(s, id), e)
    case Loop(rid) => Known(c, s) && rid in s.reqs && s.reqs[rid].phase.Looping?
    case Resume(rid) => CanResume(s, rid)
    case HedgeTimer(rid) => Known(c, s) && HedgeTimerDue(s, rid) && s.reqs[rid].index + 1 < |s.reqs[rid].cands|
    case Collect(rid, second) => CanCollect(s, rid, second)
    case Abort(rid) => CanAbort(s, rid)
    case Tick(dt) => CanTick(s, dt)
  }

  ghost function Step(c: RouterConfig, s: Sys, ev: SysEvent): Sys
    requires EnabledAt(c, s, ev)
  {
    match ev
    case Arrive(rid, cands, seconds, hedge, streaming) =>
      WithRequest(s, rid, NewRequest(s.now, cands, seconds, hedge, streaming))
    case LegMoves(id, e) =>
      WithScene(s, id, Next(c.providers[s.legs[id].provider], s.now, SceneOf(s, id), e))
    case Loop(rid) => LoopStep(c, s, rid)
    case Resume(rid) => ResumeStep(c, s, rid)
    case HedgeTimer(rid) => HedgeStep(c, s, rid)
    case Collect(rid, second) => CollectStep(c, s, rid, second)
    case Abort(rid) => AbortStep(s, rid)
    case Tick(dt) => s.(now := s.now + dt)
  }

  function Start(c: RouterConfig): Sys {
    Sys(0.0, map p | p in c.providers :: Breaker.FRESH, map p | p in c.providers :: Limiter(0, 0), map[], map[])
  }

  /** A run: from the start, event after event, each enabled when it happens. */
  ghost predicate IsRun(c: RouterConfig, evs: seq<SysEvent>, ss: seq<Sys>) {
    && |ss| == |evs| + 1 && ss[0] == Start(c)
    && forall i :: 0 <= i < |evs| ==> EnabledAt(c, ss[i], evs[i]) && ss[i + 1] == Step(c, ss[i], evs[i])
  }
}
