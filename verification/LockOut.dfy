/** When a breaker locks its provider out: the runs that get there, and why there is no way back. */
module LockOut {
  import opened Common
  import opened Errors
  import opened Legs
  import opened Router
  import opened RouterSafety
  import opened RouterTheorems
  import opened AttemptLimits
  import Breaker

  /** A provider that can be called. */
  predicate Callable(c: RouterConfig, p: string) {
    p in c.providers && c.providers[p].capacity >= 1 && c.providers[p].timeout > 0.0
  }

  /** Whenever nothing of `p` is in flight, in any run, its breaker admits a call now or after the rest of
      its reset timeout. */
  ghost predicate NeverLocks(c: RouterConfig, p: string) {
    forall evs: seq<SysEvent>, ss: seq<Sys>, i: nat ::
      IsRun(c, evs, ss) && i < |ss| && Idle(ss[i], p) ==>
        p in c.providers && p in ss[i].breakers && Admits(c.providers[p].breaker, ss[i].breakers[p], ss[i].now)
  }

  /** Nothing of `p` is in flight, and its breaker refuses every call at whatever time. */
  ghost predicate LockedOut(c: RouterConfig, s: Sys, p: string) {
    && p in c.providers && p in s.breakers && Idle(s, p)
    && forall t: real :: !Breaker.WouldAllow(c.providers[p].breaker, s.breakers[p], t)
  }

  // ---- a provider that fails ---------------------------------------------------------------------------

  /** The first `n` requests each had one call, to `p`, at time 0, and all calls have ended. */
  ghost predicate Quiet(c: RouterConfig, s: Sys, p: string, n: nat) {
    && Reached(c, s) && s.now == 0.0 && (forall rid <- s.reqs :: rid < n) && Idle(s, p)
    && p in s.breakers && p in s.limiters && s.limiters[p] == Limiter(0, 0)
  }

  /** Request `n` waits for its call to `p`, in phase `ph`; nothing else of `p` is in flight. */
  ghost predicate Underway(c: RouterConfig, s: Sys, p: string, n: nat, ph: Phase, b: Breaker.State, l: Limiter) {
    && Reached(c, s) && s.now == 0.0 && (forall rid <- s.reqs :: rid <= n)
    && (n, 0) in s.legs && p in s.breakers && s.breakers[p] == b && p in s.limiters && s.limiters[p] == l
    && (forall id <- s.legs :: id != (n, 0) && s.legs[id].provider == p ==> s.legs[id].phase.Done?)
    && var leg := s.legs[(n, 0)];
       leg.provider == p && leg.phase == ph && leg.deadline == None && !leg.streaming
  }

  lemma CallSteps(c: RouterConfig, s: Sys, p: string, n: nat, ph: Phase, b: Breaker.State, l: Limiter, e: Event)
    returns (s': Sys)
    requires Underway(c, s, p, n, ph, b, l) && p in c.providers
    requires EnabledIn(c.providers[p], 0.0, SceneOf(s, (n, 0)), e)
    ensures var t := Next(c.providers[p], 0.0, SceneOf(s, (n, 0)), e);
      && t.leg.provider == p
      && (t.leg.deadline == None && !t.leg.streaming ==> Underway(c, s', p, n, t.leg.phase, t.breaker, t.limiter))
      && s'.legs.Keys == s.legs.Keys && (n, 0) in s'.legs && s'.legs[(n, 0)] == t.leg
  {
    ReachedKnown(c, s);
    var ev := LegMoves((n, 0), e);
    s' := Step(c, s, ev);
    SameProvider(c.providers[p], SceneOf(s, (n, 0)), e);
    hide Known, EnabledIn, Next;
    assert EnabledAt(c, s, ev);
    hide Reached;
    ReachedNext(c, s, ev);
  }

  lemma Arrives(c: RouterConfig, s: Sys, p: string, n: nat) returns (s': Sys)
    requires Quiet(c, s, p, n) && p in c.providers
    ensures Reached(c, s') && s' == s.(reqs := s.reqs[n := NewRequest(0.0, [p], None, None, false)])
  {
    hide Reached;
    var ev := Arrive(n, [p], None, None, false);
    s' := Step(c, s, ev);
    ReachedNext(c, s, ev);
  }

  /** A new request calls `p`, whose breaker is closed. */
  lemma Calls(c: RouterConfig, s: Sys, p: string, n: nat) returns (s': Sys)
    requires Quiet(c, s, p, n) && Callable(c, p) && s.breakers[p].phase.Closed?
    ensures Underway(c, s', p, n, Entered, s.breakers[p], Limiter(0, 0))
  {
    var s1 := Arrives(c, s, p, n);
    ReachedKnown(c, s1);
    hide Reached;
    s' := Step(c, s1, Loop(n));
    ReachedNext(c, s1, Loop(n));
    hide Known;
    assert s'.legs.Keys == s.legs.Keys + {(n, 0)};
  }

  /** It gets its slot and its rate at once. */
  lemma GetsReady(c: RouterConfig, s: Sys, p: string, n: nat, b: Breaker.State) returns (s': Sys)
    requires Underway(c, s, p, n, Entered, b, Limiter(0, 0)) && Callable(c, p)
    ensures Underway(c, s', p, n, Ready, b, Limiter(1, 1))
  {
    hide Reached;
    var s1 := CallSteps(c, s, p, n, Entered, b, Limiter(0, 0), Begin);
    var s2 := CallSteps(c, s1, p, n, WaitingSlot(None), b, Limiter(0, 0), SlotGranted(0.0));
    s' := CallSteps(c, s2, p, n, WaitingRate(0.0), b, Limiter(1, 0), RateWaited);
  }

  /** Its attempt fails with an error of the provider's own, and is not retried. */
  lemma Breaks(c: RouterConfig, s: Sys, p: string, n: nat, b: Breaker.State, k: ErrorKind) returns (s': Sys)
    requires Underway(c, s, p, n, Ready, b, Limiter(1, 1)) && Callable(c, p) && ProvidersFault(k)
    ensures Underway(c, s', p, n, Done(Failed(k)), Breaker.Failure(c.providers[p].breaker, b, 0.0), Limiter(0, 0))
  {
    hide Reached, Breaker.Failure;
    var s1 := CallSteps(c, s, p, n, Ready, b, Limiter(1, 1), Attempt);
    s' := CallSteps(c, s1, p, n, Calling(c.providers[p].timeout), b, Limiter(1, 1), Break(k, None));
  }

  lemma Fails(c: RouterConfig, s: Sys, p: string, n: nat, k: ErrorKind) returns (s': Sys)
    requires Quiet(c, s, p, n) && Callable(c, p) && ProvidersFault(k) && s.breakers[p].phase.Closed?
    ensures Quiet(c, s', p, n + 1) && p in s'.breakers
    ensures s'.breakers[p] == Breaker.Failure(c.providers[p].breaker, s.breakers[p], 0.0)
  {
    var b := s.breakers[p];
    hide Reached, Quiet, Callable, Breaker.Failure;
    var s1 := Calls(c, s, p, n);
    var s2 := GetsReady(c, s1, p, n, b);
    s' := Breaks(c, s2, p, n, b, k);
    CallEnded(c, s', p, n, Failed(k), Breaker.Failure(c.providers[p].breaker, b, 0.0));
  }

  lemma CallEnded(c: RouterConfig, s: Sys, p: string, n: nat, o: Outcome, b: Breaker.State)
    requires Underway(c, s, p, n, Done(o), b, Limiter(0, 0))
    ensures Quiet(c, s, p, n + 1)
  {
    hide Reached;
  }

  /** Failure after failure, of whichever kind, until the breaker opens. */
  lemma {:induction false} FailsOften(c: RouterConfig, s: Sys, p: string, n: nat, k: ErrorKind) returns (s': Sys, n': nat)
    requires Quiet(c, s, p, n) && Callable(c, p) && ProvidersFault(k) && s.breakers[p].phase.Closed?
    ensures Quiet(c, s', p, n') && s'.breakers[p].phase.Open?
    decreases c.providers[p].breaker.threshold - s.breakers[p].failures
  {
    hide Quiet;
    s' := Fails(c, s, p, n, k);
    n' := n + 1;
    if s'.breakers[p].phase.Closed? {
      s', n' := FailsOften(c, s', p, n', k);
    }
  }

  lemma RefusedAlways(cfg: Breaker.Config, b: Breaker.State, now: real)
    requires forall t: real :: !Breaker.WouldAllow(cfg, b, t)
    ensures !b.phase.Closed? && !Admits(cfg, b, now)
  {
    assert !Breaker.WouldAllow(cfg, b, now) && !Breaker.WouldAllow(cfg, b, b.openedAt + cfg.reset);
  }

  lemma OpenLocks(cfg: Breaker.Config, b: Breaker.State, t: real)
    requires cfg.maxProbes < 1 && !b.phase.Closed?
    ensures !Breaker.WouldAllow(cfg, b, t)
  {
  }

  /** Without half-open calls, whatever errors of its own the provider fails with, a run gets to a state where it
      is locked out. */
  lemma LocksOut(c: RouterConfig, p: string, k: ErrorKind) returns (s: Sys)
    requires Callable(c, p) && ProvidersFault(k) && c.providers[p].breaker.maxProbes < 1
    ensures Reached(c, s) && LockedOut(c, s, p) && !Admits(c.providers[p].breaker, s.breakers[p], s.now)
  {
    ReachedStart(c);
    var n: nat;
    s, n := FailsOften(c, Start(c), p, 0, k);
    hide Reached;
    forall t: real ensures !Breaker.WouldAllow(c.providers[p].breaker, s.breakers[p], t) {
      OpenLocks(c.providers[p].breaker, s.breakers[p], t);
    }
    RefusedAlways(c.providers[p].breaker, s.breakers[p], s.now);
  }

  /** No breaker ever locks its idle provider out if and only if half-open calls are allowed. */
  lemma NeverLocksIff(c: RouterConfig, p: string)
    requires Callable(c, p)
    ensures NeverLocks(c, p) <==> c.providers[p].breaker.maxProbes >= 1
  {
    if c.providers[p].breaker.maxProbes >= 1 {
      forall evs: seq<SysEvent>, ss: seq<Sys>, i: nat | IsRun(c, evs, ss) && i < |ss| && Idle(ss[i], p)
        ensures p in ss[i].breakers && Admits(c.providers[p].breaker, ss[i].breakers[p], ss[i].now)
      {
        hide IsRun, Idle, Admits;
        NeverLockedOut(c, evs, ss, i, p);
      }
    } else {
      var s := LocksOut(c, p, Auth);
      hide IsRun, Idle, Admits;
      var evs, ss :| |ss| >= 1 && IsRun(c, evs, ss) && ss[|ss| - 1] == s;
      assert Idle(ss[|ss| - 1], p);
    }
  }

  // ---- no way back ------------------------------------------------------------------------------------------

  /** Nothing of `p` is in flight, and its breaker is not closed. */
  ghost predicate Shut(s: Sys, p: string) {
    Idle(s, p) && p in s.breakers && !s.breakers[p].phase.Closed?
  }

  lemma LockedIsShut(c: RouterConfig, s: Sys, p: string)
    requires p in c.providers && c.providers[p].breaker.maxProbes < 1
    ensures LockedOut(c, s, p) <==> Shut(s, p)
  {
    if Shut(s, p) {
      forall t: real ensures !Breaker.WouldAllow(c.providers[p].breaker, s.breakers[p], t) {
        OpenLocks(c.providers[p].breaker, s.breakers[p], t);
      }
    }
    hide Idle;
    if LockedOut(c, s, p) {
      RefusedAlways(c.providers[p].breaker, s.breakers[p], s.now);
    }
  }

  /** The legs of `p` in `s'` are those in `s`, or cancelled since. */
  ghost predicate SameCalls(s: Sys, s': Sys, p: string) {
    forall id <- s'.legs :: s'.legs[id].provider == p ==>
      id in s.legs && s.legs[id].provider == p && s'.legs[id].phase == s.legs[id].phase
  }

  lemma StaysShut(s: Sys, s': Sys, p: string)
    requires Shut(s, p) && SameCalls(s, s', p) && p in s'.breakers && !s'.breakers[p].phase.Closed?
    ensures Shut(s', p)
  {
  }

  /** A call that has ended takes no step, and every step leaves a call with its provider. */
  lemma StepOfOne(c: ProviderConfig, now: real, s: Scene, e: Event)
    requires EnabledIn(c, now, s, e)
    ensures !s.leg.phase.Done? && Next(c, now, s, e).leg.provider == s.leg.provider
  {
  }

  lemma LegMovesShut(c: RouterConfig, s: Sys, id: Id, e: Event, p: string)
    requires EnabledAt(c, s, LegMoves(id, e)) && Shut(s, p)
    ensures Shut(Step(c, s, LegMoves(id, e)), p)
  {
    var cfg, scene := c.providers[s.legs[id].provider], SceneOf(s, id);
    StepOfOne(cfg, s.now, scene, e);
    hide Known, Next, EnabledIn;
    var t := Next(cfg, s.now, scene, e);
    assert Step(c, s, LegMoves(id, e)) == WithScene(s, id, t);
    StaysShut(s, WithScene(s, id, t), p);
  }

  lemma LoopShut(c: RouterConfig, s: Sys, rid: nat, p: string)
    requires Known(c, s) && rid in s.reqs && s.reqs[rid].phase.Looping? && Shut(s, p)
    requires p in c.providers && c.providers[p].breaker.maxProbes < 1
    ensures Shut(LoopStep(c, s, rid), p)
  {
    OpenLocks(c.providers[p].breaker, s.breakers[p], s.now);
    var s' := LoopStep(c, s, rid);
    assert RequestOk(c, s.reqs[rid]);
    hide Known, RequestOk, CanHedge;
    StaysShut(s, s', p);
  }

  lemma HedgeShut(c: RouterConfig, s: Sys, rid: nat, p: string)
    requires Known(c, s) && HedgeTimerDue(s, rid) && s.reqs[rid].index + 1 < |s.reqs[rid].cands| && Shut(s, p)
    requires p in c.providers && c.providers[p].breaker.maxProbes < 1
    ensures Shut(HedgeStep(c, s, rid), p)
  {
    OpenLocks(c.providers[p].breaker, s.breakers[p], s.now);
    var s' := HedgeStep(c, s, rid);
    assert RequestOk(c, s.reqs[rid]);
    hide Known, RequestOk, HedgeTimerDue;
    StaysShut(s, s', p);
  }

  lemma DrainShut(s: Sys, rid: nat, final: Final, p: string)
    requires rid in s.reqs && Shut(s, p)
    ensures Shut(Drain(s, rid, final), p)
  {
    CancelBothMarks(s, rid, s.reqs[rid].index);
    hide CancelBoth;
    StaysShut(s, Drain(s, rid, final), p);
  }

  lemma CollectShut(c: RouterConfig, s: Sys, rid: nat, second: bool, p: string)
    requires CanCollect(s, rid, second) && Shut(s, p)
    ensures Shut(CollectStep(c, s, rid, second), p)
  {
    DrainShut(s, rid, Returned, p);
    DrainShut(s, rid, Aborted, p);
    CollectShape(c, s, rid, second);
    hide Drain, CollectStep, PairFailed, CanCollect;
  }

  lemma StepShut(c: RouterConfig, s: Sys, ev: SysEvent, p: string)
    requires Known(c, s) && EnabledAt(c, s, ev) && Shut(s, p)
    requires p in c.providers && c.providers[p].breaker.maxProbes < 1
    ensures Shut(Step(c, s, ev), p)
  {
    hide Known, LoopStep, HedgeStep, CollectStep, Drain, CanCollect, CanResume, CanTick, HedgeTimerDue, Next, EnabledIn;
    match ev
    case LegMoves(id, e) => LegMovesShut(c, s, id, e, p);
    case Loop(rid) => LoopShut(c, s, rid, p);
    case HedgeTimer(rid) => HedgeShut(c, s, rid, p);
    case Collect(rid, second) => CollectShut(c, s, rid, second, p);
    case Abort(rid) => DrainShut(s, rid, Aborted, p);
    case _ => assert Step(c, s, ev).legs == s.legs && Step(c, s, ev).breakers == s.breakers;
  }

  lemma InvKnown(c: RouterConfig, s: Sys)
    requires Inv(c, s)
    ensures Known(c, s)
  {
  }

  /** A provider that is locked out stays so for the rest of the run, whatever happens. */
  lemma {:induction false} LockedForGood(c: RouterConfig, evs: seq<SysEvent>, ss: seq<Sys>, i: nat, j: nat, p: string)
    requires IsRun(c, evs, ss) && i <= j < |ss| && LockedOut(c, ss[i], p)
    ensures LockedOut(c, ss[j], p)
  {
    hide LockedOut, Shut, Inv, EnabledAt, Step, Start;
    LockedNeedsNoProbes(c, evs, ss, i, p);
    if i < j {
      LockedForGood(c, evs, ss, i, j - 1, p);
      EveryRun(c, evs, ss, j - 1);
      assert EnabledAt(c, ss[j - 1], evs[j - 1]) && ss[j - 1 + 1] == Step(c, ss[j - 1], evs[j - 1]);
      LockedIsShut(c, ss[j - 1], p);
      assert Known(c, ss[j - 1]) by { InvKnown(c, ss[j - 1]); }
      StepShut(c, ss[j - 1], evs[j - 1], p);
      LockedIsShut(c, ss[j], p);
    }
  }

  lemma LockedNeedsNoProbes(c: RouterConfig, evs: seq<SysEvent>, ss: seq<Sys>, i: nat, p: string)
    requires IsRun(c, evs, ss) && i < |ss| && LockedOut(c, ss[i], p)
    ensures p in c.providers && c.providers[p].breaker.maxProbes < 1
  {
    var cfg := c.providers[p].breaker;
    RefusedAlways(cfg, ss[i].breakers[p], ss[i].now);
    hide IsRun, Admits, Idle;
    if cfg.maxProbes >= 1 {
      NeverLockedOut(c, evs, ss, i, p);
    }
  }
}
