/** For which settings the bound on upstream attempts holds: runs that break it at any other setting. */
module AttemptLimits {
  import opened Common
  import opened Errors
  import opened Legs
  import opened Router
  import opened RouterSafety
  import opened RouterTheorems
  import Breaker

  /** The bound on a request's upstream attempts, over all its candidates. */
  predicate Bounded(c: RouterConfig, s: Sys, rid: nat)
    requires rid in s.reqs
  {
    var n := |s.reqs[rid].cands|;
    Tries(s, rid, n) <= (n - 1) * Fewer(c.maxRetry, c.beforeFailover) + c.maxRetry
  }

  /** It holds for every request in every state of every run. */
  ghost predicate AlwaysBounded(c: RouterConfig) {
    forall evs: seq<SysEvent>, ss: seq<Sys>, i: nat, rid: nat ::
      IsRun(c, evs, ss) && i < |ss| && rid in ss[i].reqs && ss[i].reqs[rid].cands != [] ==> Bounded(c, ss[i], rid)
  }

  /** A provider that can be called and is retried. */
  predicate Usable(c: RouterConfig, p: string) {
    p in c.providers && c.providers[p].capacity >= 1 && c.providers[p].timeout > 0.0 && c.providers[p].retry
  }

  // ---- building runs -----------------------------------------------------------------------------------

  ghost predicate Reached(c: RouterConfig, s: Sys) {
    exists evs: seq<SysEvent>, ss: seq<Sys> :: |ss| >= 1 && IsRun(c, evs, ss) && ss[|ss| - 1] == s
  }

  lemma ReachedKnown(c: RouterConfig, s: Sys)
    requires Reached(c, s)
    ensures Known(c, s)
  {
    var evs, ss :| |ss| >= 1 && IsRun(c, evs, ss) && ss[|ss| - 1] == s;
    EveryRun(c, evs, ss, |ss| - 1);
  }

  lemma ReachedStart(c: RouterConfig)
    ensures Reached(c, Start(c))
  {
    assert IsRun(c, [], [Start(c)]);
  }

  lemma ReachedNext(c: RouterConfig, s: Sys, ev: SysEvent)
    requires Reached(c, s) && EnabledAt(c, s, ev)
    ensures Reached(c, Step(c, s, ev))
  {
    hide EnabledAt, Step, Start;
    var evs, ss :| |ss| >= 1 && IsRun(c, evs, ss) && ss[|ss| - 1] == s;
    var evs', ss' := evs + [ev], ss + [Step(c, s, ev)];
    forall i | 0 <= i < |evs'| ensures EnabledAt(c, ss'[i], evs'[i]) && ss'[i + 1] == Step(c, ss'[i], evs'[i]) {
      if i < |evs| {
        assert ss'[i] == ss[i] && ss'[i + 1] == ss[i + 1];
      }
    }
    assert IsRun(c, evs', ss');
  }

  lemma ReachedBounded(c: RouterConfig, s: Sys, rid: nat)
    requires AlwaysBounded(c) && Reached(c, s) && rid in s.reqs && s.reqs[rid].cands != []
    ensures Bounded(c, s, rid)
  {
    hide IsRun, Bounded;
    var evs, ss :| |ss| >= 1 && IsRun(c, evs, ss) && ss[|ss| - 1] == s;
    assert Bounded(c, ss[|ss| - 1], rid);
  }

  // ---- one request, alone ---------------------------------------------------------------------------------

  function Alone(cands: seq<string>, k: nat, phase: ReqPhase): Request {
    Request(cands, 0.0, None, None, false, k, {}, phase)
  }

  /** Nothing has happened at `p` yet. */
  predicate Untouched(s: Sys, p: string) {
    p in s.breakers && s.breakers[p] == Breaker.FRESH && p in s.limiters && s.limiters[p] == Limiter(0, 0)
  }

  /** Request 0 awaits its call of candidate `k`, which is in phase `ph` after `m` attempts. */
  ghost predicate Trying(c: RouterConfig, s: Sys, cands: seq<string>, k: nat, ph: Phase, m: nat) {
    && Reached(c, s) && s.now == 0.0 && k < |cands| && s.reqs == map[0 := Alone(cands, k, Direct)]
    && (0, k) in s.legs && cands[k] in s.breakers && cands[k] in s.limiters
    && var leg := s.legs[(0, k)];
       leg.provider == cands[k] && leg.phase == ph && |leg.attempts| == m && leg.allowed == Allowed(c, k, |cands|)
       && leg.deadline == None && !leg.streaming
  }

  /** Only the call of candidate `k` and its provider differ between `s` and `s'`. */
  ghost predicate OnlyAt(s: Sys, s': Sys, cands: seq<string>, k: nat)
    requires k < |cands|
  {
    && s'.legs.Keys == s.legs.Keys + {(0, k)} && s'.breakers.Keys == s.breakers.Keys && s'.limiters.Keys == s.limiters.Keys
    && (forall id <- s.legs :: id != (0, k) ==> s'.legs[id] == s.legs[id])
    && (forall p <- s.breakers :: p != cands[k] ==> s'.breakers[p] == s.breakers[p])
    && (forall p <- s.limiters :: p != cands[k] ==> s'.limiters[p] == s.limiters[p])
  }

  /** One step of the call. */
  lemma CallMoves(c: RouterConfig, s: Sys, cands: seq<string>, k: nat, ph: Phase, m: nat, e: Event) returns (s': Sys)
    requires Trying(c, s, cands, k, ph, m) && cands[k] in c.providers
    requires EnabledIn(c.providers[cands[k]], 0.0, SceneOf(s, (0, k)), e)
    ensures var t := Next(c.providers[cands[k]], 0.0, SceneOf(s, (0, k)), e);
      && t.leg.provider == cands[k]
      && s' == WithScene(s, (0, k), t) && Reached(c, s') && OnlyAt(s, s', cands, k)
      && s'.reqs == s.reqs && s'.now == 0.0 && s'.legs[(0, k)] == t.leg
      && s'.breakers[cands[k]] == t.breaker && s'.limiters[cands[k]] == t.limiter
  {
    ReachedKnown(c, s);
    var ev := LegMoves((0, k), e);
    s' := Step(c, s, ev);
    SameProvider(c.providers[cands[k]], SceneOf(s, (0, k)), e);
    hide Known, EnabledIn, Next;
    assert EnabledAt(c, s, ev);
    hide Reached;
    ReachedNext(c, s, ev);
  }

  lemma SameProvider(c: ProviderConfig, s: Scene, e: Event)
    requires EnabledIn(c, 0.0, s, e)
    ensures Next(c, 0.0, s, e).leg.provider == s.leg.provider
  {
  }

  lemma Loops(c: RouterConfig, s: Sys, cands: seq<string>, k: nat) returns (s': Sys)
    requires Reached(c, s) && s.now == 0.0 && k < |cands| && s.reqs == map[0 := Alone(cands, k, Looping)]
    requires Usable(c, cands[k]) && Untouched(s, cands[k])
    ensures Trying(c, s', cands, k, Entered, 0) && OnlyAt(s, s', cands, k) && Untouched(s', cands[k])
  {
    ReachedKnown(c, s);
    hide Reached;
    s' := Step(c, s, Loop(0));
    ReachedNext(c, s, Loop(0));
    assert s'.reqs == map[0 := Alone(cands, k, Direct)];
  }

  /** A call that gets its slot and its rate at once. */
  lemma Opens(c: RouterConfig, s: Sys, cands: seq<string>, k: nat) returns (s': Sys)
    requires Reached(c, s) && s.now == 0.0 && k < |cands| && s.reqs == map[0 := Alone(cands, k, Looping)]
    requires Usable(c, cands[k]) && Untouched(s, cands[k])
    ensures Trying(c, s', cands, k, Ready, 0) && OnlyAt(s, s', cands, k)
  {
    hide Reached, Untouched;
    var s1 := Loops(c, s, cands, k);
    s' := GetsSlot(c, s1, cands, k);
  }

  lemma GetsSlot(c: RouterConfig, s: Sys, cands: seq<string>, k: nat) returns (s': Sys)
    requires Trying(c, s, cands, k, Entered, 0) && Usable(c, cands[k]) && Untouched(s, cands[k])
    ensures Trying(c, s', cands, k, Ready, 0) && OnlyAt(s, s', cands, k)
  {
    hide Reached;
    var s1 := CallMoves(c, s, cands, k, Entered, 0, Begin);
    var s2 := CallMoves(c, s1, cands, k, WaitingSlot(None), 0, SlotGranted(0.0));
    s' := CallMoves(c, s2, cands, k, WaitingRate(0.0), 0, RateWaited);
  }

  lemma Attempts(c: RouterConfig, s: Sys, cands: seq<string>, k: nat, m: nat) returns (s': Sys)
    requires Trying(c, s, cands, k, Ready, m) && Usable(c, cands[k])
    ensures Trying(c, s', cands, k, Calling(c.providers[cands[k]].timeout), m + 1) && OnlyAt(s, s', cands, k)
  {
    hide Reached;
    s' := CallMoves(c, s, cands, k, Ready, m, Attempt);
  }

  /** A failed attempt that is not the last one allowed is tried again. */
  lemma Retries(c: RouterConfig, s: Sys, cands: seq<string>, k: nat, m: nat) returns (s': Sys)
    requires k < |cands| && Usable(c, cands[k]) && 0 < m < Allowed(c, k, |cands|)
    requires Trying(c, s, cands, k, Calling(c.providers[cands[k]].timeout), m)
    ensures Trying(c, s', cands, k, Ready, m) && OnlyAt(s, s', cands, k)
  {
    hide Reached;
    var timeout := c.providers[cands[k]].timeout;
    var s1 := CallMoves(c, s, cands, k, Calling(timeout), m, Break(ServerError, Some(0.0)));
    s' := CallMoves(c, s1, cands, k, Sleeping(0.0), m, Wake);
  }

  /** So a call can use up its attempts. */
  lemma {:induction false} Exhausts(c: RouterConfig, s: Sys, cands: seq<string>, k: nat, m: nat, n: nat) returns (s': Sys)
    requires Trying(c, s, cands, k, Ready, m) && Usable(c, cands[k]) && m < n && (n == m + 1 || n <= Allowed(c, k, |cands|))
    ensures Trying(c, s', cands, k, Calling(c.providers[cands[k]].timeout), n) && OnlyAt(s, s', cands, k)
    decreases n - m
  {
    hide Reached, Allowed;
    s' := Attempts(c, s, cands, k, m);
    if m + 1 < n {
      var s1 := Retries(c, s', cands, k, m + 1);
      s' := Exhausts(c, s1, cands, k, m + 1, n);
    }
  }

  /** The last failure allowed moves the request on to its next candidate. */
  lemma FailsOver(c: RouterConfig, s: Sys, cands: seq<string>, k: nat, m: nat) returns (s': Sys)
    requires k < |cands| && Usable(c, cands[k]) && c.failover && m >= Allowed(c, k, |cands|)
    requires Trying(c, s, cands, k, Calling(c.providers[cands[k]].timeout), m)
    ensures Reached(c, s') && s'.now == 0.0 && s'.reqs == map[0 := Alone(cands, k + 1, Looping)]
    ensures OnlyAt(s, s', cands, k) && (0, k) in s'.legs && |s'.legs[(0, k)].attempts| == m
  {
    hide Reached;
    var s1 := CallMoves(c, s, cands, k, Calling(c.providers[cands[k]].timeout), m, Break(ServerError, Some(0.0)));
    hide Next, EnabledIn;
    assert s1.legs[(0, k)].phase == Done(Failed(ServerError)) by { FailedCall(c.providers[cands[k]], SceneOf(s, (0, k))); }
    s' := Step(c, s1, Resume(0));
    ReachedNext(c, s1, Resume(0));
    assert s'.reqs == map[0 := Alone(cands, k + 1, Looping)];
  }

  lemma FailedCall(c: ProviderConfig, s: Scene)
    requires s.leg.phase.Calling? && |s.leg.attempts| >= s.leg.allowed
    ensures EnabledIn(c, 0.0, s, Break(ServerError, Some(0.0)))
    ensures var t := Next(c, 0.0, s, Break(ServerError, Some(0.0)));
            t.leg.phase == Done(Failed(ServerError)) && t.leg.attempts == s.leg.attempts
  {
  }

  // ---- the runs that break the bound -------------------------------------------------------------------------

  lemma ArrivesAlone(c: RouterConfig, cands: seq<string>) returns (s: Sys)
    requires cands != [] && forall p <- cands :: p in c.providers
    ensures Reached(c, s) && s.now == 0.0 && s.reqs == map[0 := Alone(cands, 0, Looping)] && s.legs == map[]
    ensures forall p <- c.providers :: Untouched(s, p)
  {
    ReachedStart(c);
    var ev := Arrive(0, cands, None, None, false);
    hide Reached;
    s := Step(c, Start(c), ev);
    ReachedNext(c, Start(c), ev);
    assert s.reqs == map[0 := Alone(cands, 0, Looping)];
  }

  /** One candidate, and not even one attempt allowed: one is made all the same. */
  lemma OneTooMany(c: RouterConfig, p: string)
    requires Usable(c, p) && c.maxRetry <= 0
    ensures !AlwaysBounded(c)
  {
    var cands := [p];
    hide Reached, AlwaysBounded;
    var s0 := ArrivesAlone(c, cands);
    var s1 := Opens(c, s0, cands, 0);
    var s2 := Attempts(c, s1, cands, 0, 0);
    hide Untouched;
    assert Tries(s2, 0, 1) == Tries(s2, 0, 0) + 1;
    if AlwaysBounded(c) {
      ReachedBounded(c, s2, 0);
    }
  }

  /** The attempts the first of two candidates makes before failover: at a setting of 0 the full number,
      below 0 still one. */
  function FirstOfTwo(c: RouterConfig): int {
    if c.beforeFailover == 0 then c.maxRetry else 1
  }

  /** Two candidates: the first makes its attempts, fails over, and the second makes the full number. */
  lemma TwoTooMany(c: RouterConfig, p: string, q: string)
    requires Usable(c, p) && Usable(c, q) && p != q && c.failover && c.maxRetry >= 1 && c.beforeFailover <= 0
    ensures !AlwaysBounded(c)
  {
    var cands := [p, q];
    var first := FirstOfTwo(c);
    hide Reached, AlwaysBounded, OnlyAt, Untouched;
    var s0 := ArrivesAlone(c, cands);
    var s1 := Opens(c, s0, cands, 0);
    var s2 := Exhausts(c, s1, cands, 0, 0, first);
    var s3 := FailsOver(c, s2, cands, 0, first);
    UntouchedStays(s0, s1, s2, s3, cands);
    var s4 := Opens(c, s3, cands, 1);
    var s5 := Exhausts(c, s4, cands, 1, 0, c.maxRetry);
    FirstStays(s3, s4, s5, cands);
    assert Tries(s5, 0, 2) == Tries(s5, 0, 1) + c.maxRetry;
    assert Tries(s5, 0, 1) == Tries(s5, 0, 0) + first;
    if AlwaysBounded(c) {
      ReachedBounded(c, s5, 0);
    }
  }

  lemma UntouchedStays(s0: Sys, s1: Sys, s2: Sys, s3: Sys, cands: seq<string>)
    requires |cands| == 2 && cands[0] != cands[1] && Untouched(s0, cands[1])
    requires OnlyAt(s0, s1, cands, 0) && OnlyAt(s1, s2, cands, 0) && OnlyAt(s2, s3, cands, 0)
    ensures Untouched(s3, cands[1])
  {
  }

  lemma FirstStays(s3: Sys, s4: Sys, s5: Sys, cands: seq<string>)
    requires |cands| == 2 && OnlyAt(s3, s4, cands, 1) && OnlyAt(s4, s5, cands, 1) && (0, 0) in s3.legs
    ensures (0, 0) in s5.legs && s5.legs[(0, 0)] == s3.legs[(0, 0)]
  {
  }

  /** The bound on attempts holds in every run if and only if both settings allow an attempt. */
  lemma BoundedIff(c: RouterConfig, p: string, q: string)
    requires Usable(c, p) && Usable(c, q) && p != q && c.failover
    ensures AlwaysBounded(c) <==> c.maxRetry >= 1 && c.beforeFailover >= 1
  {
    if c.maxRetry >= 1 && c.beforeFailover >= 1 {
      forall evs: seq<SysEvent>, ss: seq<Sys>, i: nat, rid: nat |
        IsRun(c, evs, ss) && i < |ss| && rid in ss[i].reqs && ss[i].reqs[rid].cands != []
        ensures Bounded(c, ss[i], rid)
      {
        hide IsRun;
        AttemptsBounded(c, evs, ss, i, rid);
      }
    } else if c.maxRetry <= 0 {
      OneTooMany(c, p);
    } else {
      TwoTooMany(c, p, q);
    }
  }
}
