/** What every interleaving of requests keeps: settlement, slots, probes, deadlines and attempts. */
module RouterSafety {
  import opened Common
  import opened Errors
  import opened Legs
  import opened Router
  import Breaker

  // ----- Counting legs -------------------------------------------------------------------

  function Where(legs: map<Id, Leg>, f: Leg -> bool): set<Id> {
    set id | id in legs && f(legs[id])
  }

  function Count(legs: map<Id, Leg>, f: Leg -> bool): nat {
    |Where(legs, f)|
  }

  lemma CountUpdate(legs: map<Id, Leg>, id: Id, x: Leg, f: Leg -> bool)
    ensures Count(legs[id := x], f) + B(id in legs && f(legs[id])) == Count(legs, f) + B(f(x))
  {
    var before, after := Where(legs, f), Where(legs[id := x], f);
    var rest := before - {id};
    assert after == if f(x) then rest + {id} else rest;
    assert before == if id in before then rest + {id} else rest;
  }

  lemma CountPositive(legs: map<Id, Leg>, id: Id, f: Leg -> bool)
    requires id in legs && f(legs[id])
    ensures Count(legs, f) > 0
  {
    assert id in Where(legs, f);
  }

  function HoldsAt(p: string): Leg -> bool {
    (l: Leg) => l.provider == p && Holds(l)
  }

  function RunsAt(p: string): Leg -> bool {
    (l: Leg) => l.provider == p && Runs(l)
  }

  /** Unsettled legs that `p`'s breaker admitted during its half-open phase number `k`. */
  function ProbeAt(p: string, k: nat): Leg -> bool {
    (l: Leg) => l.provider == p && !l.phase.Done? && l.probe == Some(k)
  }

  // ----- The invariant -------------------------------------------------------------------

  ghost predicate SlotsCounted(c: RouterConfig, s: Sys, p: string)
    requires p in c.providers && p in s.limiters
  {
    && s.limiters[p].used == Count(s.legs, HoldsAt(p)) <= c.providers[p].capacity
    && s.limiters[p].active == Count(s.legs, RunsAt(p))
  }

  ghost predicate ProbesCounted(s: Sys, p: string)
    requires p in s.breakers
  {
    var b := s.breakers[p];
    && b.openedAt <= s.now
    && (b.phase.HalfOpen? ==> b.probes <= Count(s.legs, ProbeAt(p, b.totalOpened)))
  }

  ghost predicate PlacedIn(r: Request, pos: nat)
    requires pos < |r.cands|
  {
    || pos < r.index
    || (pos == r.index && (!r.phase.Looping? || r.cands[pos] in r.skip))
    || (pos == r.index + 1 && !r.phase.Looping? && r.cands[pos] in r.skip)
  }

  /** Positions are used in order and once: a leg lies behind the loop, at it, or is the partner ahead. */
  ghost predicate Placed(s: Sys, id: Id)
    requires id in s.legs && id.0 in s.reqs && id.1 < |s.reqs[id.0].cands|
  {
    PlacedIn(s.reqs[id.0], id.1)
  }

  ghost predicate OnlyPending(legs: map<Id, Leg>, rid: nat, pos: set<nat>) {
    forall id <- legs :: id.0 == rid && !legs[id].phase.Done? ==> id.1 in pos
  }

  ghost predicate Awaits(legs: map<Id, Leg>, rid: nat, r: Request) {
    (rid, r.index) in legs && r.index < |r.cands| && OnlyPending(legs, rid, {r.index})
  }

  ghost predicate PairRuns(legs: map<Id, Leg>, rid: nat, r: Request)
    requires r.phase.Hedged?
  {
    && r.hedge.Some? && r.index + 1 < |r.cands| && (rid, r.index) in legs && (rid, r.index + 1) in legs
    && OnlyPending(legs, rid, {r.index, r.index + 1}) && (r.phase.first.None? || r.phase.second.None?)
    && (r.phase.first.Some? ==> legs[(rid, r.index)].phase.Done?)
    && (r.phase.second.Some? ==> legs[(rid, r.index + 1)].phase.Done?)
  }

  ghost predicate Drains(legs: map<Id, Leg>, rid: nat, r: Request) {
    && OnlyPending(legs, rid, {r.index, r.index + 1})
    && forall id <- legs :: id.0 == rid && !legs[id].phase.Done? ==> legs[id].cancelling
  }

  /** Which legs of a request may still be running in each of its phases. */
  ghost predicate ReqInv(legs: map<Id, Leg>, rid: nat, r: Request) {
    match r.phase
    case Looping => OnlyPending(legs, rid, {})
    case Direct => Awaits(legs, rid, r)
    case StreamOpen => Awaits(legs, rid, r) && r.streaming
                       && (legs[(rid, r.index)].phase.Streaming? || legs[(rid, r.index)].phase.Done?)
    case PrimaryOnly => Awaits(legs, rid, r) && r.hedge.Some?
    case HedgeFirst(_) => Awaits(legs, rid, r) && CanHedge(r)
    case Hedged(_, _) => PairRuns(legs, rid, r)
    case Draining(_) => Drains(legs, rid, r)
    case Finished(f) => f.Aborted? || OnlyPending(legs, rid, {})
  }

  /** Not over: neither finished nor already delivering a stream. */
  predicate Serving(r: Request) {
    !r.phase.Finished? && !r.phase.StreamOpen? && !(r.phase.Draining? && r.streaming)
  }

  ghost predicate InTime(now: real, r: Request) {
    r.deadline.Some? ==> now <= Max(r.deadline.value, r.arrived)
  }

  ghost predicate Timely(s: Sys) {
    && s.now >= 0.0
    && (forall rid <- s.reqs :: s.reqs[rid].arrived <= s.now && (Serving(s.reqs[rid]) ==> InTime(s.now, s.reqs[rid])))
    && (forall id <- s.legs :: id.0 in s.reqs && !s.legs[id].phase.Done? && !s.legs[id].phase.Streaming? ==>
          InTime(s.now, s.reqs[id.0]))
    && (forall id <- s.legs :: s.legs[id].phase.Streaming? ==> s.legs[id].streaming)
  }

  ghost predicate Accounts(c: RouterConfig, s: Sys) {
    forall p <- c.providers :: p in s.limiters && p in s.breakers && SlotsCounted(c, s, p) && ProbesCounted(s, p)
  }

  ghost predicate Inv(c: RouterConfig, s: Sys) {
    && Known(c, s) && Accounts(c, s) && Timely(s)
    && (forall id <- s.legs :: LegInv(s.legs[id]) && Placed(s, id))
    && (forall rid <- s.reqs :: ReqInv(s.legs, rid, s.reqs[rid]))
  }

  // ----- Accounts under each kind of change --------------------------------------------------

  /** Recording an outcome never raises the probe count, and leaves the half-open phase or lowers it. */
  lemma SettleProbes(c: Breaker.Config, b: Breaker.State, b': Breaker.State, now: real)
    requires b' in {Breaker.Success(c, b, now), Breaker.Failure(c, b, now), Breaker.Release(b)}
    requires b.openedAt <= now
    ensures b'.openedAt <= now
    ensures b'.phase.HalfOpen? ==>
      b.phase.HalfOpen? && b'.totalOpened == b.totalOpened && b'.probes == (if b.probes > 0 then b.probes - 1 else 0)
  {
  }

  lemma LegCounts(legs: map<Id, Leg>, id: Id, x: Leg, p: string, k: nat)
    ensures Count(legs[id := x], HoldsAt(p)) + B(id in legs && HoldsAt(p)(legs[id])) == Count(legs, HoldsAt(p)) + B(HoldsAt(p)(x))
    ensures Count(legs[id := x], RunsAt(p)) + B(id in legs && RunsAt(p)(legs[id])) == Count(legs, RunsAt(p)) + B(RunsAt(p)(x))
    ensures Count(legs[id := x], ProbeAt(p, k)) + B(id in legs && ProbeAt(p, k)(legs[id])) == Count(legs, ProbeAt(p, k)) + B(ProbeAt(p, k)(x))
  {
    CountUpdate(legs, id, x, HoldsAt(p));
    CountUpdate(legs, id, x, RunsAt(p));
    CountUpdate(legs, id, x, ProbeAt(p, k));
  }

  /** A leg that holds a slot is among those its limiter counts. */
  lemma LegIsAccounted(c: RouterConfig, s: Sys, id: Id)
    requires Known(c, s) && Accounts(c, s) && id in s.legs
    ensures Accounted(c.providers[s.legs[id].provider], SceneOf(s, id))
  {
    var p := s.legs[id].provider;
    assert LegBelongs(c, s, id) && SlotsCounted(c, s, p);
    if Holds(s.legs[id]) {
      CountPositive(s.legs, id, HoldsAt(p));
    }
    if Runs(s.legs[id]) {
      CountPositive(s.legs, id, RunsAt(p));
    }
  }

  lemma SlotsAfterLegStep(c: RouterConfig, s: Sys, id: Id, t: Scene, q: string)
    requires Known(c, s) && id in s.legs && q in c.providers && SlotsCounted(c, s, q)
    requires GoodStep(c.providers[s.legs[id].provider], s.now, SceneOf(s, id), t)
    ensures SlotsCounted(c, WithScene(s, id, t), q)
  {
    LegCounts(s.legs, id, t.leg, q, 0);
  }

  lemma ProbesAfterLegStep(c: RouterConfig, s: Sys, id: Id, t: Scene, q: string)
    requires Known(c, s) && id in s.legs && q in c.providers && ProbesCounted(s, q)
    requires GoodStep(c.providers[s.legs[id].provider], s.now, SceneOf(s, id), t)
    ensures ProbesCounted(WithScene(s, id, t), q)
  {
    var p, k := t.leg.provider, WithScene(s, id, t).breakers[q].totalOpened;
    LegCounts(s.legs, id, t.leg, q, k);
    if q == p && t.leg.phase.Done? {
      SettleProbes(c.providers[p].breaker, s.breakers[p], t.breaker, s.now);
      if s.legs[id].probe == Some(k) && t.breaker.phase.HalfOpen? {
        CountPositive(s.legs, id, ProbeAt(p, k));
      }
    }
  }

  lemma AccountsAfterLegStep(c: RouterConfig, s: Sys, id: Id, t: Scene)
    requires Known(c, s) && Accounts(c, s) && id in s.legs
    requires GoodStep(c.providers[s.legs[id].provider], s.now, SceneOf(s, id), t)
    ensures Accounts(c, WithScene(s, id, t))
  {
    var s' := WithScene(s, id, t);
    forall q <- c.providers
      ensures SlotsCounted(c, s', q) && ProbesCounted(s', q)
    {
      SlotsAfterLegStep(c, s, id, t, q);
      ProbesAfterLegStep(c, s, id, t, q);
    }
  }

  /** In `s'`, breaker `p` was asked and, if it admitted the call, leg `id` was opened. */
  ghost predicate Asked(c: RouterConfig, s: Sys, s': Sys, id: Id, leg: Leg) {
    var p := leg.provider;
    && p in c.providers && p in s.breakers && id !in s.legs && leg.phase.Entered?
    && var b := Breaker.Allow(c.providers[p].breaker, s.breakers[p], s.now);
       && s'.now == s.now && s'.limiters == s.limiters && s'.breakers == s.breakers[p := b]
       && leg.probe == (if b.phase.HalfOpen? then Some(b.totalOpened) else None)
       && s'.legs == if Breaker.WouldAllow(c.providers[p].breaker, s.breakers[p], s.now) then s.legs[id := leg] else s.legs
  }

  lemma SlotsAfterAdmission(c: RouterConfig, s: Sys, s': Sys, id: Id, leg: Leg, q: string)
    requires Asked(c, s, s', id, leg) && q in c.providers && q in s.limiters && SlotsCounted(c, s, q)
    ensures SlotsCounted(c, s', q)
  {
    LegCounts(s.legs, id, leg, q, 0);
  }

  lemma ProbesAfterAdmission(c: RouterConfig, s: Sys, s': Sys, id: Id, leg: Leg, q: string)
    requires Asked(c, s, s', id, leg) && q in c.providers && q in s.breakers && ProbesCounted(s, q)
    ensures ProbesCounted(s', q)
  {
    LegCounts(s.legs, id, leg, q, s'.breakers[q].totalOpened);
  }

  /** Asking a breaker, and opening the leg if it admits it, keeps the accounts. */
  lemma AccountsAfterAdmission(c: RouterConfig, s: Sys, s': Sys, id: Id, leg: Leg)
    requires Accounts(c, s) && Asked(c, s, s', id, leg)
    ensures Accounts(c, s')
  {
    forall q <- c.providers
      ensures SlotsCounted(c, s', q) && ProbesCounted(s', q)
    {
      SlotsAfterAdmission(c, s, s', id, leg, q);
      ProbesAfterAdmission(c, s, s', id, leg, q);
    }
  }

  lemma AccountsAfterCancel(c: RouterConfig, s: Sys, id: Id)
    requires Known(c, s) && Accounts(c, s)
    ensures Accounts(c, CancelLeg(s, id)) && Known(c, CancelLeg(s, id))
  {
    if id in s.legs {
      var s' := CancelLeg(s, id);
      CancelKeepsKnown(c, s, id);
      hide Known, Count;
      forall q <- c.providers
        ensures SlotsCounted(c, s', q) && ProbesCounted(s', q)
      {
        CancelCounts(s.legs, id, q, s.breakers[q].totalOpened);
        assert SlotsCounted(c, s, q) && ProbesCounted(s, q);
      }
    }
  }

  /** Marking a leg cancelled changes no count. */
  lemma CancelCounts(legs: map<Id, Leg>, id: Id, p: string, k: nat)
    requires id in legs
    ensures var legs' := legs[id := legs[id].(cancelling := true)];
      && Count(legs', HoldsAt(p)) == Count(legs, HoldsAt(p)) && Count(legs', RunsAt(p)) == Count(legs, RunsAt(p))
      && Count(legs', ProbeAt(p, k)) == Count(legs, ProbeAt(p, k))
  {
    hide Count;
    LegCounts(legs, id, legs[id].(cancelling := true), p, k);
  }

  lemma CancelKeepsKnown(c: RouterConfig, s: Sys, id: Id)
    requires Known(c, s) && id in s.legs
    ensures Known(c, CancelLeg(s, id))
  {
    var s' := CancelLeg(s, id);
    forall i <- s'.legs ensures LegBelongs(c, s', i) { assert LegBelongs(c, s, i); }
  }

  // ----- Each event keeps the invariant --------------------------------------------------------

  /** The part of the invariant about single legs. */
  ghost predicate LegsOk(c: RouterConfig, s: Sys) {
    && s.breakers.Keys == s.limiters.Keys == c.providers.Keys
    && (forall rid <- s.reqs :: RequestOk(c, s.reqs[rid]))
    && (forall id <- s.legs :: LegOk(c, s, id))
  }

  ghost predicate LegOk(c: RouterConfig, s: Sys, id: Id)
    requires id in s.legs
  {
    LegBelongs(c, s, id) && LegInv(s.legs[id]) && Placed(s, id)
  }

  ghost predicate ReqsOk(s: Sys) {
    forall rid <- s.reqs :: ReqInv(s.legs, rid, s.reqs[rid])
  }

  lemma InvParts(c: RouterConfig, s: Sys)
    ensures Inv(c, s) <==> LegsOk(c, s) && ReqsOk(s) && Accounts(c, s) && Timely(s)
  {
    if LegsOk(c, s) {
      forall id <- s.legs ensures LegBelongs(c, s, id) && LegInv(s.legs[id]) && Placed(s, id) { assert LegOk(c, s, id); }
    }
  }

  /** Request `rid` became `r`; only its own legs may have changed. */
  ghost predicate OnlyMoved(s: Sys, s': Sys, rid: nat, r: Request) {
    && s'.reqs == s.reqs[rid := r] && s'.now == s.now
    && s'.breakers.Keys == s.breakers.Keys && s'.limiters.Keys == s.limiters.Keys
    && (forall id: Id :: id.0 != rid ==> (id in s'.legs <==> id in s.legs) && (id in s.legs ==> s'.legs[id] == s.legs[id]))
  }

  lemma OtherRequestKept(legs: map<Id, Leg>, legs': map<Id, Leg>, rid: nat, r: Request)
    requires ReqInv(legs, rid, r)
    requires forall id: Id :: id.0 == rid ==> (id in legs' <==> id in legs) && (id in legs ==> legs'[id] == legs[id])
    ensures ReqInv(legs', rid, r)
  {
  }

  lemma OthersKept(c: RouterConfig, s: Sys, s': Sys, rid: nat, r: Request)
    requires LegsOk(c, s) && ReqsOk(s) && OnlyMoved(s, s', rid, r)
    requires RequestOk(c, r) && ReqInv(s'.legs, rid, r)
    requires forall id <- s'.legs :: id.0 == rid ==> LegOk(c, s', id)
    ensures LegsOk(c, s') && ReqsOk(s')
  {
    forall id <- s'.legs
      ensures LegOk(c, s', id)
    {
      if id.0 != rid {
        assert LegOk(c, s, id);
      }
    }
    forall other <- s'.reqs
      ensures ReqInv(s'.legs, other, s'.reqs[other])
    {
      if other != rid {
        OtherRequestKept(s.legs, s'.legs, other, s.reqs[other]);
      }
    }
  }

  /** A leg of `rid` keeps its timing: it is settled, streams a stream, or its request is in time. */
  ghost predicate LegTimely(s: Sys, r: Request, leg: Leg) {
    && (leg.phase.Streaming? ==> leg.streaming)
    && (leg.phase.Done? || leg.phase.Streaming? || InTime(s.now, r))
  }

  lemma TimelyKept(s: Sys, s': Sys, rid: nat, r: Request)
    requires Timely(s) && OnlyMoved(s, s', rid, r) && r.arrived <= s.now
    requires Serving(r) ==> InTime(s.now, r)
    requires forall id <- s'.legs :: id.0 == rid ==> LegTimely(s', r, s'.legs[id])
    ensures Timely(s')
  {
  }

  lemma AccountsIgnoreRequests(c: RouterConfig, s: Sys, rid: nat, r: Request)
    requires Accounts(c, s)
    ensures Accounts(c, WithRequest(s, rid, r))
  {
    var s' := WithRequest(s, rid, r);
    forall p <- c.providers ensures SlotsCounted(c, s', p) && ProbesCounted(s', p) {
      assert SlotsCounted(c, s, p) && ProbesCounted(s, p);
    }
  }

  lemma ArriveKeeps(c: RouterConfig, s: Sys, rid: nat, r: Request)
    requires LegsOk(c, s) && ReqsOk(s) && Accounts(c, s) && Timely(s)
    requires rid !in s.reqs && RequestOk(c, r) && r.phase.Looping? && r.arrived == s.now
    ensures var s' := WithRequest(s, rid, r); LegsOk(c, s') && ReqsOk(s') && Accounts(c, s') && Timely(s')
  {
    var s' := WithRequest(s, rid, r);
    forall id <- s.legs ensures id.0 != rid { assert LegOk(c, s, id); }
    OthersKept(c, s, s', rid, r);
    TimelyKept(s, s', rid, r);
    AccountsIgnoreRequests(c, s, rid, r);
  }

  /** A pending leg moved to `x`; nothing else about requests and legs changed. */
  ghost predicate LegMoved(s: Sys, s': Sys, id: Id, x: Leg) {
    && id in s.legs && s'.reqs == s.reqs && s'.legs == s.legs[id := x] && s'.now == s.now
    && !s.legs[id].phase.Done? && SameCall(s.legs[id], x)
    && (s.legs[id].phase.Streaming? ==> x.phase.Done?) && (x.phase.Streaming? ==> s.legs[id].streaming)
  }

  lemma RequestAfterLegMove(s: Sys, s': Sys, id: Id, x: Leg, rid: nat, r: Request)
    requires ReqInv(s.legs, rid, r) && LegMoved(s, s', id, x)
    ensures ReqInv(s'.legs, rid, r)
  {
    forall pos: set<nat> | OnlyPending(s.legs, rid, pos)
      ensures OnlyPending(s'.legs, rid, pos)
    {
      forall i <- s'.legs | i.0 == rid && !s'.legs[i].phase.Done? ensures i.1 in pos { assert i in s.legs; }
    }
  }

  lemma ReqsAfterLegMove(s: Sys, s': Sys, id: Id, x: Leg)
    requires ReqsOk(s) && LegMoved(s, s', id, x)
    ensures ReqsOk(s')
  {
    forall rid <- s'.reqs
      ensures ReqInv(s'.legs, rid, s'.reqs[rid])
    {
      RequestAfterLegMove(s, s', id, x, rid, s.reqs[rid]);
    }
  }

  lemma TimelyAfterLegMove(s: Sys, s': Sys, id: Id, x: Leg)
    requires Timely(s) && LegMoved(s, s', id, x)
    ensures Timely(s')
  {
  }

  lemma LegsAfterLegMove(c: RouterConfig, s: Sys, s': Sys, id: Id, x: Leg)
    requires LegsOk(c, s) && LegMoved(s, s', id, x) && LegInv(x)
    requires s'.breakers.Keys == s.breakers.Keys && s'.limiters.Keys == s.limiters.Keys
    ensures LegsOk(c, s')
  {
    forall i <- s'.legs
      ensures LegOk(c, s', i)
    {
      assert LegOk(c, s, i);
    }
  }

  lemma LegMovesKeeps(c: RouterConfig, s: Sys, id: Id, t: Scene)
    requires LegsOk(c, s) && ReqsOk(s) && Accounts(c, s) && Timely(s) && Known(c, s) && id in s.legs
    requires GoodStep(c.providers[s.legs[id].provider], s.now, SceneOf(s, id), t)
    ensures var s' := WithScene(s, id, t); LegsOk(c, s') && ReqsOk(s') && Accounts(c, s') && Timely(s')
  {
    hide LegsOk, ReqsOk, Accounts, Timely;
    var s' := WithScene(s, id, t);
    AccountsAfterLegStep(c, s, id, t);
    assert LegMoved(s, s', id, t.leg);
    LegsAfterLegMove(c, s, s', id, t.leg);
    ReqsAfterLegMove(s, s', id, t.leg);
    TimelyAfterLegMove(s, s', id, t.leg);
  }

  /** The fields of a request that never change. */
  ghost predicate SameRequest(r: Request, r': Request) {
    r'.cands == r.cands && r'.arrived == r.arrived && r'.deadline == r.deadline && r'.hedge == r.hedge && r'.streaming == r.streaming
  }

  /** Positions used under `r` are still accounted for under `r'`. */
  ghost predicate PositionsKept(r: Request, r': Request)
    requires r.cands == r'.cands
  {
    forall pos: nat :: pos < |r.cands| && PlacedIn(r, pos) ==> PlacedIn(r', pos)
  }

  /** Request `rid` may become `r`: nothing it was is lost. */
  ghost predicate MayBecome(c: RouterConfig, s: Sys, rid: nat, r: Request) {
    && rid in s.reqs && SameRequest(s.reqs[rid], r) && RequestOk(c, r) && PositionsKept(s.reqs[rid], r)
    && (Serving(r) ==> Serving(s.reqs[rid]))
  }

  lemma LegStays(c: RouterConfig, s: Sys, s': Sys, rid: nat, r: Request, id: Id)
    requires LegsOk(c, s) && Timely(s) && MayBecome(c, s, rid, r) && OnlyMoved(s, s', rid, r)
    requires id.0 == rid && id in s.legs && id in s'.legs
    requires s'.legs[id] == s.legs[id].(cancelling := s'.legs[id].cancelling)
    ensures LegOk(c, s', id) && LegTimely(s', r, s'.legs[id])
  {
    assert LegOk(c, s, id);
    assert PlacedIn(s.reqs[rid], id.1);
  }

  /** The request moves, its legs do not. */
  lemma SameLegs(c: RouterConfig, s: Sys, s': Sys, rid: nat, r: Request)
    requires LegsOk(c, s) && ReqsOk(s) && Timely(s) && MayBecome(c, s, rid, r) && OnlyMoved(s, s', rid, r)
    requires s'.legs == s.legs && ReqInv(s.legs, rid, r)
    ensures LegsOk(c, s') && ReqsOk(s') && Timely(s')
  {
    forall id <- s'.legs | id.0 == rid
      ensures LegOk(c, s', id) && LegTimely(s', r, s'.legs[id])
    {
      LegStays(c, s, s', rid, r, id);
    }
    OthersKept(c, s, s', rid, r);
    TimelyKept(s, s', rid, r);
  }

  /** The request opens a leg at a position not used before. */
  lemma OpensLeg(c: RouterConfig, s: Sys, s': Sys, rid: nat, r: Request, pos: nat, b: Breaker.State)
    requires LegsOk(c, s) && ReqsOk(s) && Timely(s) && MayBecome(c, s, rid, r) && OnlyMoved(s, s', rid, r)
    requires pos < |r.cands| && PlacedIn(r, pos) && Serving(s.reqs[rid]) && (rid, pos) !in s.legs
    requires s'.legs == s.legs[(rid, pos) := NewLeg(c, r, pos, b)] && ReqInv(s'.legs, rid, r)
    ensures LegsOk(c, s') && ReqsOk(s') && Timely(s')
  {
    forall id <- s'.legs | id.0 == rid
      ensures LegOk(c, s', id) && LegTimely(s', r, s'.legs[id])
    {
      if id != (rid, pos) {
        LegStays(c, s, s', rid, r, id);
      }
    }
    OthersKept(c, s, s', rid, r);
    TimelyKept(s, s', rid, r);
  }

  /** The two current legs of request `rid` are marked cancelled; no other leg changes. */
  ghost predicate Marked(legs: map<Id, Leg>, legs': map<Id, Leg>, rid: nat, index: nat) {
    && legs'.Keys == legs.Keys
    && forall id <- legs :: legs'[id] == legs[id].(cancelling := legs'[id].cancelling)
         && (if id.0 == rid && id.1 in {index, index + 1} then legs'[id].cancelling else legs'[id] == legs[id])
  }

  lemma CancelOneMarks(s: Sys, id: Id)
    ensures var t := CancelLeg(s, id);
      && t == s.(legs := t.legs) && t.legs.Keys == s.legs.Keys
      && forall j <- s.legs :: t.legs[j] == if j == id then s.legs[j].(cancelling := true) else s.legs[j]
  {
  }

  lemma CancelBothMarks(s: Sys, rid: nat, index: nat)
    ensures var t := CancelBoth(s, rid, index); t == s.(legs := t.legs) && Marked(s.legs, t.legs, rid, index)
  {
    hide CancelLeg;
    CancelOneMarks(s, (rid, index));
    CancelOneMarks(CancelLeg(s, (rid, index)), (rid, index + 1));
  }

  lemma MarkedDrains(legs: map<Id, Leg>, legs': map<Id, Leg>, rid: nat, r: Request)
    requires OnlyPending(legs, rid, {r.index, r.index + 1}) && Marked(legs, legs', rid, r.index)
    ensures Drains(legs', rid, r)
  {
  }

  /** The request cancels what is left of its current legs. */
  lemma CancelsLegs(c: RouterConfig, s: Sys, s': Sys, rid: nat, r: Request, final: Final)
    requires LegsOk(c, s) && ReqsOk(s) && Timely(s) && rid in s.reqs
    requires !s.reqs[rid].phase.Looping? && !s.reqs[rid].phase.Finished?
    requires OnlyPending(s.legs, rid, {r.index, r.index + 1}) && (Serving(s.reqs[rid]) || r.streaming)
    requires r == s.reqs[rid].(phase := Draining(final))
    requires Marked(s.legs, s'.legs, rid, r.index) && s' == WithRequest(s, rid, r).(legs := s'.legs)
    ensures LegsOk(c, s') && ReqsOk(s') && Timely(s')
  {
    assert OnlyMoved(s, s', rid, r);
    forall id <- s'.legs | id.0 == rid
      ensures LegOk(c, s', id) && LegTimely(s', r, s'.legs[id])
    {
      LegStays(c, s, s', rid, r, id);
    }
    MarkedDrains(s.legs, s'.legs, rid, r);
    OthersKept(c, s, s', rid, r);
    TimelyKept(s, s', rid, r);
  }

  lemma NotUsedYet(c: RouterConfig, s: Sys, rid: nat, pos: nat)
    requires LegsOk(c, s) && rid in s.reqs && pos < |s.reqs[rid].cands| && !PlacedIn(s.reqs[rid], pos)
    ensures (rid, pos) !in s.legs
  {
    forall id <- s.legs | id.0 == rid
      ensures id.1 < |s.reqs[rid].cands| && PlacedIn(s.reqs[rid], id.1)
    {
      assert LegOk(c, s, id);
    }
  }

  /** A looping request opens its first leg at `index`. */
  lemma FirstLegInv(legs: map<Id, Leg>, rid: nat, r: Request, leg: Leg)
    requires OnlyPending(legs, rid, {}) && r.index < |r.cands|
    requires r.phase.Direct? || (r.phase.HedgeFirst? && CanHedge(r))
    ensures ReqInv(legs[(rid, r.index) := leg], rid, r)
  {
  }

  /** The loop goes on to the next candidate, or gives up after the last. */
  ghost predicate Advanced(s: Sys, s': Sys, rid: nat, r: Request) {
    && rid in s.reqs && OnlyMoved(s, s', rid, r) && s'.legs == s.legs
    && if s.reqs[rid].index == |s.reqs[rid].cands| then r == s.reqs[rid].(phase := Finished(Raised))
       else r == s.reqs[rid].(index := s.reqs[rid].index + 1)
  }

  /** The loop opens a leg for its current candidate. */
  ghost predicate Opened(c: RouterConfig, s: Sys, s': Sys, rid: nat, r: Request, b: Breaker.State) {
    && rid in s.reqs && OnlyMoved(s, s', rid, r)
    && r.index < |r.cands| && r.cands[r.index] !in r.skip && s'.legs == s.legs[(rid, r.index) := NewLeg(c, r, r.index, b)]
    && r == s.reqs[rid].(phase := r.phase) && (r.phase.Direct? || (r.phase.HedgeFirst? && CanHedge(r)))
  }

  lemma LoopShape(c: RouterConfig, s: Sys, rid: nat) returns (b: Breaker.State)
    requires Known(c, s) && rid in s.reqs && s.reqs[rid].phase.Looping?
    ensures var s' := LoopStep(c, s, rid);
      rid in s'.reqs && (Advanced(s, s', rid, s'.reqs[rid]) || Opened(c, s, s', rid, s'.reqs[rid], b))
  {
    var r := s.reqs[rid];
    b := Breaker.FRESH;
    if r.index < |r.cands| {
      var p := r.cands[r.index];
      b := Breaker.Allow(c.providers[p].breaker, s.breakers[p], s.now);
    }
  }

  lemma AdvancedKeeps(c: RouterConfig, s: Sys, s': Sys, rid: nat, r: Request)
    requires LegsOk(c, s) && ReqsOk(s) && Timely(s) && Advanced(s, s', rid, r) && s.reqs[rid].phase.Looping?
    ensures LegsOk(c, s') && ReqsOk(s') && Timely(s')
  {
    assert ReqInv(s.legs, rid, s.reqs[rid]);
    SameLegs(c, s, s', rid, r);
  }

  lemma OpenedKeeps(c: RouterConfig, s: Sys, s': Sys, rid: nat, r: Request, b: Breaker.State)
    requires LegsOk(c, s) && ReqsOk(s) && Timely(s) && Opened(c, s, s', rid, r, b) && s.reqs[rid].phase.Looping?
    ensures LegsOk(c, s') && ReqsOk(s') && Timely(s')
  {
    assert ReqInv(s.legs, rid, s.reqs[rid]);
    NotUsedYet(c, s, rid, r.index);
    FirstLegInv(s.legs, rid, r, NewLeg(c, r, r.index, b));
    OpensLeg(c, s, s', rid, r, r.index, b);
  }

  lemma LoopKeeps(c: RouterConfig, s: Sys, s': Sys, rid: nat)
    requires Known(c, s) && LegsOk(c, s) && ReqsOk(s) && Timely(s) && rid in s.reqs && s.reqs[rid].phase.Looping?
    requires s' == LoopStep(c, s, rid)
    ensures LegsOk(c, s') && ReqsOk(s') && Timely(s')
  {
    var b := LoopShape(c, s, rid);
    if Advanced(s, s', rid, s'.reqs[rid]) {
      AdvancedKeeps(c, s, s', rid, s'.reqs[rid]);
    } else {
      OpenedKeeps(c, s, s', rid, s'.reqs[rid], b);
    }
  }

  lemma ResumedInv(c: RouterConfig, s: Sys, rid: nat)
    requires CanResume(s, rid) && ReqInv(s.legs, rid, s.reqs[rid]) && Timely(s) && LegsOk(c, s)
    requires !s.reqs[rid].phase.Draining?
    ensures var r' := Resumed(c, s.reqs[rid], s.legs[(rid, s.reqs[rid].index)].phase);
      MayBecome(c, s, rid, r') && ReqInv(s.legs, rid, r')
  {
    assert LegOk(c, s, (rid, s.reqs[rid].index));
  }

  lemma ResumeKeeps(c: RouterConfig, s: Sys, rid: nat)
    requires LegsOk(c, s) && ReqsOk(s) && Timely(s) && CanResume(s, rid)
    ensures var s' := ResumeStep(c, s, rid); LegsOk(c, s') && ReqsOk(s') && Timely(s')
  {
    var r, s' := s.reqs[rid], ResumeStep(c, s, rid);
    assert ReqInv(s.legs, rid, r);
    if !r.phase.Draining? {
      ResumedInv(c, s, rid);
    }
    SameLegs(c, s, s', rid, s'.reqs[rid]);
  }

  lemma PartnerLegInv(legs: map<Id, Leg>, rid: nat, r: Request, leg: Leg)
    requires Awaits(legs, rid, r) && r.hedge.Some? && r.index + 1 < |r.cands| && r.phase == Hedged(None, None)
    ensures ReqInv(legs[(rid, r.index + 1) := leg], rid, r)
  {
  }

  lemma PartnerNotUsed(c: RouterConfig, s: Sys, rid: nat)
    requires LegsOk(c, s) && ReqsOk(s) && rid in s.reqs && s.reqs[rid].phase.HedgeFirst?
    ensures (rid, s.reqs[rid].index + 1) !in s.legs
    ensures s.reqs[rid].index + 1 < |s.reqs[rid].cands| && s.reqs[rid].hedge.Some? && !s.reqs[rid].streaming
    ensures Awaits(s.legs, rid, s.reqs[rid])
  {
    assert ReqInv(s.legs, rid, s.reqs[rid]);
    NotUsedYet(c, s, rid, s.reqs[rid].index + 1);
  }

  lemma HedgeMoves(c: RouterConfig, s: Sys, rid: nat)
    requires Known(c, s) && LegsOk(c, s) && ReqsOk(s)
    requires HedgeTimerDue(s, rid) && s.reqs[rid].index + 1 < |s.reqs[rid].cands|
    ensures var s' := HedgeStep(c, s, rid); OnlyMoved(s, s', rid, s'.reqs[rid]) && MayBecome(c, s, rid, s'.reqs[rid])
  {
    PartnerNotUsed(c, s, rid);
  }

  lemma HedgeShape(c: RouterConfig, s: Sys, rid: nat) returns (b: Breaker.State)
    requires Known(c, s) && HedgeTimerDue(s, rid) && s.reqs[rid].index + 1 < |s.reqs[rid].cands|
    ensures rid in HedgeStep(c, s, rid).reqs
    ensures var r, s' := s.reqs[rid], HedgeStep(c, s, rid);
      if s'.reqs[rid].phase.Hedged? then
        && s'.reqs[rid] == r.(skip := r.skip + {r.cands[r.index + 1]}, phase := Hedged(None, None))
        && s'.legs == s.legs[(rid, r.index + 1) := NewLeg(c, s'.reqs[rid], r.index + 1, b)]
      else s'.reqs[rid] == r.(phase := PrimaryOnly) && s'.legs == s.legs
  {
    var p := s.reqs[rid].cands[s.reqs[rid].index + 1];
    b := Breaker.Allow(c.providers[p].breaker, s.breakers[p], s.now);
  }

  lemma HedgeKeeps(c: RouterConfig, s: Sys, rid: nat)
    requires Known(c, s) && LegsOk(c, s) && ReqsOk(s) && Timely(s)
    requires HedgeTimerDue(s, rid) && s.reqs[rid].index + 1 < |s.reqs[rid].cands|
    ensures var s' := HedgeStep(c, s, rid); LegsOk(c, s') && ReqsOk(s') && Timely(s')
  {
    hide LegsOk, ReqsOk, Timely, OnlyMoved, MayBecome, HedgeStep, NewLeg, Known;
    var r, s' := s.reqs[rid], HedgeStep(c, s, rid);
    var b := HedgeShape(c, s, rid);
    var r' := s'.reqs[rid];
    PartnerNotUsed(c, s, rid);
    HedgeMoves(c, s, rid);
    if r'.phase.Hedged? {
      PartnerLegInv(s.legs, rid, r', NewLeg(c, r', r.index + 1, b));
      OpensLeg(c, s, s', rid, r', r.index + 1, b);
    } else {
      SameLegs(c, s, s', rid, r');
    }
  }

  lemma PairFailedInv(c: RouterConfig, legs: map<Id, Leg>, rid: nat, r: Request, second: bool, k: ErrorKind)
    requires r.phase.Hedged? && ReqInv(legs, rid, r)
    requires if second then r.phase.second.None? else r.phase.first.None?
    requires legs[(rid, if second then r.index + 1 else r.index)].phase.Done?
    ensures ReqInv(legs, rid, PairFailed(c, r, second, k))
  {
  }

  lemma PairFailedKeeps(c: RouterConfig, s: Sys, s': Sys, rid: nat, second: bool, k: ErrorKind)
    requires LegsOk(c, s) && ReqsOk(s) && Timely(s) && CanCollect(s, rid, second)
    requires s' == WithRequest(s, rid, PairFailed(c, s.reqs[rid], second, k))
    ensures LegsOk(c, s') && ReqsOk(s') && Timely(s')
  {
    var r := s.reqs[rid];
    assert ReqInv(s.legs, rid, r);
    PairFailedInv(c, s.legs, rid, r, second, k);
    SameLegs(c, s, s', rid, PairFailed(c, r, second, k));
  }

  lemma CancelKeeps(c: RouterConfig, s: Sys, rid: nat, final: Final)
    requires LegsOk(c, s) && ReqsOk(s) && Timely(s) && rid in s.reqs
    requires !s.reqs[rid].phase.Looping? && !s.reqs[rid].phase.Finished? && !s.reqs[rid].phase.HedgeFirst?
    ensures var s' := Drain(s, rid, final); LegsOk(c, s') && ReqsOk(s') && Timely(s')
  {
    var r := s.reqs[rid];
    assert ReqInv(s.legs, rid, r);
    CancelBothMarks(s, rid, r.index);
    CancelsLegs(c, s, Drain(s, rid, final), rid, r.(phase := Draining(final)), final);
  }

  lemma CollectKeeps(c: RouterConfig, s: Sys, rid: nat, second: bool)
    requires LegsOk(c, s) && ReqsOk(s) && Timely(s) && CanCollect(s, rid, second)
    ensures var s' := CollectStep(c, s, rid, second); LegsOk(c, s') && ReqsOk(s') && Timely(s')
  {
    var r := s.reqs[rid];
    match s.legs[(rid, if second then r.index + 1 else r.index)].phase.outcome
    case Failed(k) => PairFailedKeeps(c, s, CollectStep(c, s, rid, second), rid, second, k);
    case Answered => CancelKeeps(c, s, rid, Returned);
    case Cancelled => CancelKeeps(c, s, rid, Aborted);
  }

  lemma AbortKeeps(c: RouterConfig, s: Sys, rid: nat)
    requires LegsOk(c, s) && ReqsOk(s) && Timely(s) && CanAbort(s, rid)
    ensures var s' := AbortStep(s, rid); LegsOk(c, s') && ReqsOk(s') && Timely(s')
  {
    var r, s' := s.reqs[rid], AbortStep(s, rid);
    assert ReqInv(s.legs, rid, r);
    if r.phase.HedgeFirst? {
      SameLegs(c, s, s', rid, s'.reqs[rid]);
    } else {
      CancelKeeps(c, s, rid, Aborted);
    }
  }

  lemma AccountsAfterCancelBoth(c: RouterConfig, s: Sys, rid: nat, r: Request)
    requires Known(c, s) && Accounts(c, s)
    ensures Accounts(c, WithRequest(CancelBoth(s, rid, r.index), rid, r))
  {
    AccountsAfterCancel(c, s, (rid, r.index));
    AccountsAfterCancel(c, CancelLeg(s, (rid, r.index)), (rid, r.index + 1));
    AccountsIgnoreRequests(c, CancelBoth(s, rid, r.index), rid, r);
  }

  lemma LoopAccounts(c: RouterConfig, s: Sys, rid: nat)
    requires Known(c, s) && LegsOk(c, s) && Accounts(c, s) && rid in s.reqs && s.reqs[rid].phase.Looping?
    ensures Accounts(c, LoopStep(c, s, rid))
  {
    var r, s' := s.reqs[rid], LoopStep(c, s, rid);
    if r.index < |r.cands| && r.cands[r.index] !in r.skip {
      var p := r.cands[r.index];
      NotUsedYet(c, s, rid, r.index);
      var leg := NewLeg(c, r, r.index, Breaker.Allow(c.providers[p].breaker, s.breakers[p], s.now));
      AccountsAfterAdmission(c, s, s', (rid, r.index), leg);
    } else {
      AccountsIgnoreRequests(c, s, rid, s'.reqs[rid]);
    }
  }

  lemma HedgeAsks(c: RouterConfig, s: Sys, rid: nat) returns (leg: Leg)
    requires Known(c, s) && HedgeTimerDue(s, rid) && s.reqs[rid].index + 1 < |s.reqs[rid].cands|
    requires (rid, s.reqs[rid].index + 1) !in s.legs
    ensures Asked(c, s, HedgeStep(c, s, rid), (rid, s.reqs[rid].index + 1), leg)
  {
    var r := s.reqs[rid];
    var p := r.cands[r.index + 1];
    leg := NewLeg(c, r, r.index + 1, Breaker.Allow(c.providers[p].breaker, s.breakers[p], s.now));
  }

  lemma HedgeAccounts(c: RouterConfig, s: Sys, rid: nat)
    requires Known(c, s) && Accounts(c, s)
    requires HedgeTimerDue(s, rid) && s.reqs[rid].index + 1 < |s.reqs[rid].cands|
    requires (rid, s.reqs[rid].index + 1) !in s.legs
    ensures Accounts(c, HedgeStep(c, s, rid))
  {
    var leg := HedgeAsks(c, s, rid);
    AccountsAfterAdmission(c, s, HedgeStep(c, s, rid), (rid, s.reqs[rid].index + 1), leg);
  }

  lemma DrainAccounts(c: RouterConfig, s: Sys, rid: nat, final: Final)
    requires Known(c, s) && Accounts(c, s) && rid in s.reqs
    ensures Accounts(c, Drain(s, rid, final))
  {
    AccountsAfterCancelBoth(c, s, rid, s.reqs[rid].(phase := Draining(final)));
  }

  lemma CollectShape(c: RouterConfig, s: Sys, rid: nat, second: bool)
    requires CanCollect(s, rid, second)
    ensures var s' := CollectStep(c, s, rid, second);
      || s' == Drain(s, rid, Returned) || s' == Drain(s, rid, Aborted)
      || exists k :: s' == WithRequest(s, rid, PairFailed(c, s.reqs[rid], second, k))
  {
  }

  lemma CollectAccounts(c: RouterConfig, s: Sys, s': Sys, rid: nat, second: bool)
    requires Known(c, s) && Accounts(c, s) && CanCollect(s, rid, second) && s' == CollectStep(c, s, rid, second)
    ensures Accounts(c, s')
  {
    CollectShape(c, s, rid, second);
    if s' == Drain(s, rid, Returned) {
      DrainAccounts(c, s, rid, Returned);
    } else if s' == Drain(s, rid, Aborted) {
      DrainAccounts(c, s, rid, Aborted);
    } else {
      AccountsIgnoreRequests(c, s, rid, s'.reqs[rid]);
    }
  }

  lemma AbortAccounts(c: RouterConfig, s: Sys, rid: nat)
    requires Known(c, s) && Accounts(c, s) && CanAbort(s, rid)
    ensures Accounts(c, AbortStep(s, rid))
  {
    if s.reqs[rid].phase.HedgeFirst? {
      AccountsIgnoreRequests(c, s, rid, s.reqs[rid].(phase := Finished(Aborted)));
    } else {
      DrainAccounts(c, s, rid, Aborted);
    }
  }

  // ----- Time --------------------------------------------------------------------------------

  /** While time can pass, a request that is being served waits for a leg with a running timer. */
  lemma ServingWaits(s: Sys, rid: nat, dt: real) returns (id: Id)
    requires rid in s.reqs && ReqInv(s.legs, rid, s.reqs[rid]) && CanTick(s, dt) && Serving(s.reqs[rid])
    ensures id.0 == rid && id in s.legs && !s.legs[id].phase.Done?
    ensures s.legs[id].phase.Streaming? ==> s.reqs[rid].phase.Draining? || s.reqs[rid].hedge.Some?
  {
    var r := s.reqs[rid];
    assert !ReqUrgent(s, rid);
    id := (rid, r.index);
    match r.phase
    case Hedged(_, _) =>
      assert !CanCollect(s, rid, false) && !CanCollect(s, rid, true);
      id := if r.phase.first.None? then (rid, r.index) else (rid, r.index + 1);
    case Draining(_) =>
      if LegDone(s, (rid, r.index)) { id := (rid, r.index + 1); }
    case _ =>
  }

  lemma TickTimely(c: RouterConfig, s: Sys, dt: real)
    requires LegsOk(c, s) && ReqsOk(s) && Timely(s) && CanTick(s, dt)
    ensures Timely(s.(now := s.now + dt))
  {
    var s' := s.(now := s.now + dt);
    forall id <- s.legs | !s.legs[id].phase.Done? && !s.legs[id].phase.Streaming?
      ensures InTime(s'.now, s.reqs[id.0])
    {
      assert LegOk(c, s, id) && !LegUrgent(s, id);
    }
    forall rid <- s.reqs | Serving(s.reqs[rid])
      ensures InTime(s'.now, s.reqs[rid])
    {
      var id := ServingWaits(s, rid, dt);
      assert LegOk(c, s, id) && !LegUrgent(s, id);
    }
  }

  lemma TickKeeps(c: RouterConfig, s: Sys, dt: real)
    requires LegsOk(c, s) && ReqsOk(s) && Accounts(c, s) && Timely(s) && CanTick(s, dt)
    ensures var s' := s.(now := s.now + dt); LegsOk(c, s') && ReqsOk(s') && Accounts(c, s') && Timely(s')
  {
    TickTimely(c, s, dt);
    TickAccounts(c, s, dt);
    TickLegs(c, s, dt);
    hide Timely, Accounts, LegsOk, CanTick;
  }

  lemma TickLegs(c: RouterConfig, s: Sys, dt: real)
    requires LegsOk(c, s)
    ensures LegsOk(c, s.(now := s.now + dt))
  {
    var s' := s.(now := s.now + dt);
    forall id <- s'.legs ensures LegOk(c, s', id) { assert LegOk(c, s, id); }
  }

  lemma TickAccounts(c: RouterConfig, s: Sys, dt: real)
    requires Accounts(c, s) && dt > 0.0
    ensures Accounts(c, s.(now := s.now + dt))
  {
    hide Count;
    var s' := s.(now := s.now + dt);
    forall p <- c.providers ensures SlotsCounted(c, s', p) && ProbesCounted(s', p) {
      assert SlotsCounted(c, s, p) && ProbesCounted(s, p);
    }
  }

  // ----- Every run -----------------------------------------------------------------------------

  ghost predicate Parts(c: RouterConfig, s: Sys) {
    LegsOk(c, s) && ReqsOk(s) && Accounts(c, s) && Timely(s)
  }

  lemma LoopEvent(c: RouterConfig, s: Sys, s': Sys, rid: nat)
    requires Known(c, s) && Parts(c, s) && rid in s.reqs && s.reqs[rid].phase.Looping?
    requires s' == LoopStep(c, s, rid)
    ensures Parts(c, s')
  {
    LoopKeeps(c, s, LoopStep(c, s, rid), rid);
    LoopAccounts(c, s, rid);
  }

  lemma ResumeEvent(c: RouterConfig, s: Sys, s': Sys, rid: nat)
    requires Parts(c, s) && CanResume(s, rid)
    requires s' == ResumeStep(c, s, rid)
    ensures Parts(c, s')
  {
    ResumeKeeps(c, s, rid);
    AccountsIgnoreRequests(c, s, rid, ResumeStep(c, s, rid).reqs[rid]);
  }

  lemma HedgeEvent(c: RouterConfig, s: Sys, s': Sys, rid: nat)
    requires Known(c, s) && Parts(c, s) && HedgeTimerDue(s, rid) && s.reqs[rid].index + 1 < |s.reqs[rid].cands|
    requires s' == HedgeStep(c, s, rid)
    ensures Parts(c, s')
  {
    PartnerNotUsed(c, s, rid);
    HedgeKeeps(c, s, rid);
    HedgeAccounts(c, s, rid);
  }

  lemma CollectEvent(c: RouterConfig, s: Sys, s': Sys, rid: nat, second: bool)
    requires Known(c, s) && Parts(c, s) && CanCollect(s, rid, second)
    requires s' == CollectStep(c, s, rid, second)
    ensures Parts(c, s')
  {
    CollectKeeps(c, s, rid, second);
    CollectAccounts(c, s, CollectStep(c, s, rid, second), rid, second);
  }

  lemma AbortEvent(c: RouterConfig, s: Sys, s': Sys, rid: nat)
    requires Known(c, s) && Parts(c, s) && CanAbort(s, rid)
    requires s' == AbortStep(s, rid)
    ensures Parts(c, s')
  {
    AbortKeeps(c, s, rid);
    AbortAccounts(c, s, rid);
  }

  lemma ArriveEvent(c: RouterConfig, s: Sys, s': Sys, rid: nat, r: Request)
    requires Parts(c, s) && rid !in s.reqs && RequestOk(c, r) && r.phase.Looping? && r.arrived == s.now
    requires s' == WithRequest(s, rid, r)
    ensures Parts(c, s')
  {
    ArriveKeeps(c, s, rid, r);
  }

  lemma TickEvent(c: RouterConfig, s: Sys, s': Sys, dt: real)
    requires Parts(c, s) && CanTick(s, dt) && s' == s.(now := s.now + dt)
    ensures Parts(c, s')
  {
    TickKeeps(c, s, dt);
  }

  lemma PartsAfter(c: RouterConfig, s: Sys, ev: SysEvent, s': Sys)
    requires Known(c, s) && Parts(c, s) && EnabledAt(c, s, ev) && s' == Step(c, s, ev)
    ensures Parts(c, s')
  {
    match ev
    case Arrive(rid, cands, seconds, hedge, streaming) =>
      ArriveEvent(c, s, s', rid, NewRequest(s.now, cands, seconds, hedge, streaming));
    case LegMoves(id, e) => LegEvent(c, s, s', id, e);
    case Loop(rid) => LoopEvent(c, s, s', rid);
    case Resume(rid) => ResumeEvent(c, s, s', rid);
    case HedgeTimer(rid) => HedgeEvent(c, s, s', rid);
    case Collect(rid, second) => CollectEvent(c, s, s', rid, second);
    case Abort(rid) => AbortEvent(c, s, s', rid);
    case Tick(dt) => TickEvent(c, s, s', dt);
  }

  lemma StepKeeps(c: RouterConfig, s: Sys, ev: SysEvent)
    requires Inv(c, s) && EnabledAt(c, s, ev)
    ensures Inv(c, Step(c, s, ev))
  {
    InvParts(c, s);
    PartsAfter(c, s, ev, Step(c, s, ev));
    InvParts(c, Step(c, s, ev));
  }

  lemma LegEvent(c: RouterConfig, s: Sys, s': Sys, id: Id, e: Event)
    requires Known(c, s) && LegsOk(c, s) && ReqsOk(s) && Accounts(c, s) && Timely(s)
    requires id in s.legs && EnabledIn(c.providers[s.legs[id].provider], s.now, SceneOf(s, id), e)
    requires s' == WithScene(s, id, Next(c.providers[s.legs[id].provider], s.now, SceneOf(s, id), e))
    ensures Parts(c, s')
  {
    var cfg := c.providers[s.legs[id].provider];
    assert LegOk(c, s, id);
    LegIsAccounted(c, s, id);
    StepKeepsLeg(cfg, s.now, SceneOf(s, id), e);
    LegMovesKeeps(c, s, id, Next(cfg, s.now, SceneOf(s, id), e));
  }

  lemma StartIsGood(c: RouterConfig)
    ensures Inv(c, Start(c))
  {
    var s := Start(c);
    forall p <- c.providers ensures SlotsCounted(c, s, p) && ProbesCounted(s, p) {
      assert Where(s.legs, HoldsAt(p)) == {} && Where(s.legs, RunsAt(p)) == {};
    }
  }

  /** The invariant holds in every state of every run. */
  lemma {:induction false} EveryRun(c: RouterConfig, evs: seq<SysEvent>, ss: seq<Sys>, i: nat)
    requires IsRun(c, evs, ss) && i < |ss|
    ensures Inv(c, ss[i])
  {
    if i == 0 {
      StartIsGood(c);
    } else {
      EveryRun(c, evs, ss, i - 1);
      StepKeeps(c, ss[i - 1], evs[i - 1]);
    }
  }
}
