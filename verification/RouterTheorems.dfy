/** What the routing protocol promises in every state of every run. */
module RouterTheorems {
  import opened Common
  import opened Errors
  import opened Legs
  import opened Router
  import opened RouterSafety
  import Breaker

  /** Each breaker admission is settled exactly once, when its leg ends, and a slot taken is returned
      exactly once, by then at the latest. */
  lemma SettledExactlyOnce(c: RouterConfig, evs: seq<SysEvent>, ss: seq<Sys>, i: nat, id: Id)
    requires IsRun(c, evs, ss) && i < |ss| && id in ss[i].legs
    ensures var leg := ss[i].legs[id];
      && leg.settled == (if leg.phase.Done? then 1 else 0)
      && leg.taken <= 1 && leg.returned == (if Holds(leg) then 0 else leg.taken)
  {
    EveryRun(c, evs, ss, i);
    hide IsRun, Known, Accounts, Timely, ReqInv, Placed;
    assert LegInv(ss[i].legs[id]);
  }

  /** The slots a limiter has given out are those of the legs holding one, never more than configured. */
  lemma SlotsNeverExceeded(c: RouterConfig, evs: seq<SysEvent>, ss: seq<Sys>, i: nat, p: string)
    requires IsRun(c, evs, ss) && i < |ss| && p in c.providers
    ensures p in ss[i].limiters && ss[i].limiters[p].used <= c.providers[p].capacity
    ensures |set id | id in ss[i].legs && ss[i].legs[id].provider == p && Holds(ss[i].legs[id])| == ss[i].limiters[p].used
  {
    EveryRun(c, evs, ss, i);
    SlotsWithin(c, ss[i], p);
  }

  lemma SlotsWithin(c: RouterConfig, s: Sys, p: string)
    requires Inv(c, s) && p in c.providers
    ensures p in s.limiters && s.limiters[p].used <= c.providers[p].capacity
    ensures |set id | id in s.legs && s.legs[id].provider == p && Holds(s.legs[id])| == s.limiters[p].used
  {
    assert SlotsCounted(c, s, p);
    hide Inv, HoldsAt, RunsAt, Where;
    WhereHeld(s.legs, p);
  }

  lemma WhereHeld(legs: map<Id, Leg>, p: string)
    ensures Where(legs, HoldsAt(p)) == set id | id in legs && legs[id].provider == p && Holds(legs[id])
  {
  }

  /** A half-open breaker counts no more probes than calls it admitted in this half-open phase are unsettled. */
  lemma ProbesAccounted(c: RouterConfig, evs: seq<SysEvent>, ss: seq<Sys>, i: nat, p: string)
    requires IsRun(c, evs, ss) && i < |ss| && p in c.providers
    ensures p in ss[i].breakers
    ensures var s, b := ss[i], ss[i].breakers[p];
      b.phase.HalfOpen? ==> b.probes <= |set id | id in s.legs && s.legs[id].provider == p && !s.legs[id].phase.Done?
                                                 && s.legs[id].probe == Some(b.totalOpened)|
  {
    EveryRun(c, evs, ss, i);
    ProbesWithin(c, ss[i], p);
  }

  lemma ProbesWithin(c: RouterConfig, s: Sys, p: string)
    requires Inv(c, s) && p in c.providers
    ensures p in s.breakers
    ensures var b := s.breakers[p];
      b.phase.HalfOpen? ==> b.probes <= |set id | id in s.legs && s.legs[id].provider == p && !s.legs[id].phase.Done?
                                                 && s.legs[id].probe == Some(b.totalOpened)|
  {
    assert ProbesCounted(s, p);
    hide Inv, ProbeAt, Where;
    WhereProbes(s.legs, p, s.breakers[p].totalOpened);
  }

  lemma WhereProbes(legs: map<Id, Leg>, p: string, k: nat)
    ensures Where(legs, ProbeAt(p, k)) ==
      set id | id in legs && legs[id].provider == p && !legs[id].phase.Done? && legs[id].probe == Some(k)
  {
  }

  ghost predicate Idle(s: Sys, p: string) {
    forall id <- s.legs :: s.legs[id].provider == p ==> s.legs[id].phase.Done?
  }

  ghost predicate Admits(cfg: Breaker.Config, b: Breaker.State, now: real) {
    if b.phase.Open? then b.openedAt <= now && forall t :: t - b.openedAt >= cfg.reset ==> Breaker.WouldAllow(cfg, b, t)
    else Breaker.WouldAllow(cfg, b, now)
  }

  lemma IdleCounts(c: RouterConfig, s: Sys, p: string)
    requires Inv(c, s) && p in c.providers && Idle(s, p)
    ensures s.limiters[p] == Limiter(0, 0)
    ensures s.breakers[p].openedAt <= s.now && (s.breakers[p].phase.HalfOpen? ==> s.breakers[p].probes == 0)
  {
    assert SlotsCounted(c, s, p) && ProbesCounted(s, p);
    NothingCounts(s.legs, p, s.breakers[p].totalOpened);
    hide Count, Idle, Known, Timely, ReqInv, LegInv, Placed;
  }

  lemma NothingCounts(legs: map<Id, Leg>, p: string, k: nat)
    requires forall id <- legs :: legs[id].provider == p ==> legs[id].phase.Done?
    ensures Count(legs, HoldsAt(p)) == 0 && Count(legs, RunsAt(p)) == 0 && Count(legs, ProbeAt(p, k)) == 0
  {
    hide Count;
    CountNone(legs, HoldsAt(p));
    CountNone(legs, RunsAt(p));
    CountNone(legs, ProbeAt(p, k));
  }

  lemma CountNone(legs: map<Id, Leg>, f: Leg -> bool)
    requires forall id <- legs :: !f(legs[id])
    ensures Count(legs, f) == 0
  {
    assert Where(legs, f) == {};
  }

  /** A provider with nothing in flight has all its slots, and its breaker admits the next call now or
      once the rest of its reset timeout has passed. */
  lemma NeverLockedOut(c: RouterConfig, evs: seq<SysEvent>, ss: seq<Sys>, i: nat, p: string)
    requires IsRun(c, evs, ss) && i < |ss| && p in c.providers && Idle(ss[i], p)
    requires c.providers[p].breaker.maxProbes >= 1
    ensures p in ss[i].limiters && ss[i].limiters[p] == Limiter(0, 0)
    ensures p in ss[i].breakers && Admits(c.providers[p].breaker, ss[i].breakers[p], ss[i].now)
  {
    EveryRun(c, evs, ss, i);
    IdleCounts(c, ss[i], p);
  }

  /** No upstream attempt starts at or after the deadline of its request. */
  lemma AttemptsBeforeDeadline(c: RouterConfig, evs: seq<SysEvent>, ss: seq<Sys>, i: nat, id: Id)
    requires IsRun(c, evs, ss) && i < |ss| && id in ss[i].legs
    ensures id.0 in ss[i].reqs && ss[i].legs[id].deadline == ss[i].reqs[id.0].deadline
    ensures ss[i].legs[id].deadline.Some? ==> forall t <- ss[i].legs[id].attempts :: t < ss[i].legs[id].deadline.value
  {
    EveryRun(c, evs, ss, i);
    assert LegBelongs(c, ss[i], id);
  }

  /** Past its deadline a request is over, or delivers a stream it opened in time; of its legs, even
      those of an abandoned hedge, only streaming ones are left. */
  lemma OverByDeadline(c: RouterConfig, evs: seq<SysEvent>, ss: seq<Sys>, i: nat, rid: nat)
    requires IsRun(c, evs, ss) && i < |ss| && rid in ss[i].reqs
    requires var r := ss[i].reqs[rid];
      r.deadline.Some? && ss[i].now > r.deadline.value && ss[i].now > r.arrived
    ensures var r := ss[i].reqs[rid];
      r.phase.Finished? || (r.streaming && (r.phase.StreamOpen? || r.phase.Draining?))
    ensures forall id <- ss[i].legs :: id.0 == rid ==> ss[i].legs[id].phase.Done? || ss[i].legs[id].phase.Streaming?
  {
    EveryRun(c, evs, ss, i);
    assert ReqInv(ss[i].legs, rid, ss[i].reqs[rid]);
  }

  /** Every provider called for a request is one of its candidates, hedge partners included. */
  lemma OnlyCandidatesCalled(c: RouterConfig, evs: seq<SysEvent>, ss: seq<Sys>, i: nat, id: Id)
    requires IsRun(c, evs, ss) && i < |ss| && id in ss[i].legs
    ensures id.0 in ss[i].reqs && id.1 < |ss[i].reqs[id.0].cands|
    ensures ss[i].legs[id].provider == ss[i].reqs[id.0].cands[id.1]
  {
    EveryRun(c, evs, ss, i);
    assert LegBelongs(c, ss[i], id);
  }

  // ----- Attempts ----------------------------------------------------------------------------

  /** Upstream attempts made for the first `k` candidates of a request. */
  function Tries(s: Sys, rid: nat, k: nat): nat {
    if k == 0 then 0
    else Tries(s, rid, k - 1) + if (rid, k - 1) in s.legs then |s.legs[(rid, k - 1)].attempts| else 0
  }

  function Fewer(x: int, y: int): int { if x <= y then x else y }

  lemma {:induction false} TriesBefore(c: RouterConfig, s: Sys, rid: nat, k: nat, m: int)
    requires Inv(c, s) && rid in s.reqs && k < |s.reqs[rid].cands|
    requires m == Fewer(c.maxRetry, c.beforeFailover) && m >= 1
    ensures Tries(s, rid, k) <= k * m
  {
    if k > 0 {
      TriesBefore(c, s, rid, k - 1, m);
      assert k * m == (k - 1) * m + m;
      if (rid, k - 1) in s.legs {
        assert LegBelongs(c, s, (rid, k - 1)) && LegInv(s.legs[(rid, k - 1)]);
      }
    }
  }

  /** Over all retries, failovers and hedges, `n` candidates cost at most `n - 1` times the attempts
      allowed before failover plus the full number for the last one. */
  lemma AttemptsBounded(c: RouterConfig, evs: seq<SysEvent>, ss: seq<Sys>, i: nat, rid: nat)
    requires IsRun(c, evs, ss) && i < |ss| && rid in ss[i].reqs && ss[i].reqs[rid].cands != []
    requires c.maxRetry >= 1 && c.beforeFailover >= 1
    ensures var n := |ss[i].reqs[rid].cands|;
      Tries(ss[i], rid, n) <= (n - 1) * Fewer(c.maxRetry, c.beforeFailover) + c.maxRetry
  {
    hide IsRun, Inv, Tries;
    EveryRun(c, evs, ss, i);
    TriesBounded(c, ss[i], rid, Fewer(c.maxRetry, c.beforeFailover));
  }

  lemma TriesBounded(c: RouterConfig, s: Sys, rid: nat, m: int)
    requires Inv(c, s) && rid in s.reqs && s.reqs[rid].cands != []
    requires m == Fewer(c.maxRetry, c.beforeFailover) && m >= 1
    ensures var n := |s.reqs[rid].cands|; Tries(s, rid, n) <= (n - 1) * m + c.maxRetry
  {
    var last := |s.reqs[rid].cands| - 1;
    TriesBefore(c, s, rid, last, m);
    if (rid, last) in s.legs {
      LastLeg(c, s, rid, last);
    }
    hide Inv, Fewer;
  }

  lemma LastLeg(c: RouterConfig, s: Sys, rid: nat, last: nat)
    requires Inv(c, s) && rid in s.reqs && last + 1 == |s.reqs[rid].cands| && (rid, last) in s.legs
    requires c.maxRetry >= 1
    ensures |s.legs[(rid, last)].attempts| <= c.maxRetry
  {
    assert LegBelongs(c, s, (rid, last)) && LegInv(s.legs[(rid, last)]);
    hide Known, Accounts, Timely, ReqInv, Placed;
  }

  // ----- The model is not stuck ------------------------------------------------------------------

  /** Time can pass up to the first timer of these legs, or for `bound` if none comes before. */
  lemma LegSlack(s: Sys, ids: set<Id>, bound: real) returns (dt: real)
    requires bound > 0.0
    requires forall id <- ids :: id in s.legs && (Timer(s.legs[id]).Some? ==> s.now < Timer(s.legs[id]).value)
    ensures 0.0 < dt <= bound
    ensures forall id <- ids :: Timer(s.legs[id]).Some? ==> s.now + dt <= Timer(s.legs[id]).value
    ensures dt == bound || exists id <- ids :: Timer(s.legs[id]) == Some(s.now + dt)
    decreases ids
  {
    if ids == {} {
      dt := bound;
    } else {
      var id :| id in ids;
      dt := LegSlack(s, ids - {id}, bound);
      if Timer(s.legs[id]).Some? && Timer(s.legs[id]).value < s.now + dt {
        dt := Timer(s.legs[id]).value - s.now;
      }
    }
  }

  lemma RequestSlack(s: Sys, rids: set<nat>, bound: real) returns (dt: real)
    requires bound > 0.0
    requires forall rid <- rids :: rid in s.reqs && (s.reqs[rid].phase.HedgeFirst? ==> s.now < s.reqs[rid].phase.until)
    ensures 0.0 < dt <= bound
    ensures forall rid <- rids :: s.reqs[rid].phase.HedgeFirst? ==> s.now + dt <= s.reqs[rid].phase.until
    ensures dt == bound || exists rid <- rids :: s.reqs[rid].phase.HedgeFirst? && s.reqs[rid].phase.until == s.now + dt
    decreases rids
  {
    if rids == {} {
      dt := bound;
    } else {
      var rid :| rid in rids;
      dt := RequestSlack(s, rids - {rid}, bound);
      if s.reqs[rid].phase.HedgeFirst? && s.reqs[rid].phase.until < s.now + dt {
        dt := s.reqs[rid].phase.until - s.now;
      }
    }
  }

  predicate LegDue(s: Sys, id: Id)
    requires id in s.legs
  {
    LegUrgent(s, id) || (Timer(s.legs[id]).Some? && s.now >= Timer(s.legs[id]).value)
  }

  predicate RequestDue(s: Sys, rid: nat)
    requires rid in s.reqs
  {
    ReqUrgent(s, rid) || (s.reqs[rid].phase.HedgeFirst? && s.now >= s.reqs[rid].phase.until)
  }

  lemma DueRequestMoves(c: RouterConfig, s: Sys, rid: nat) returns (ev: SysEvent)
    requires Inv(c, s) && rid in s.reqs && RequestDue(s, rid)
    ensures EnabledAt(c, s, ev) && !ev.Arrive? && !ev.Abort? && !ev.Tick?
  {
    var r := s.reqs[rid];
    assert ReqInv(s.legs, rid, r);
    if r.phase.Looping? {
      ev := Loop(rid);
    } else if CanResume(s, rid) {
      ev := Resume(rid);
    } else if CanCollect(s, rid, false) {
      ev := Collect(rid, false);
    } else if CanCollect(s, rid, true) {
      ev := Collect(rid, true);
    } else {
      ev := HedgeTimer(rid);
    }
  }

  lemma DueLegMoves(c: RouterConfig, s: Sys, id: Id) returns (ev: SysEvent)
    requires Inv(c, s) && id in s.legs && LegDue(s, id)
    ensures EnabledAt(c, s, ev) && !ev.Arrive? && !ev.Abort? && !ev.Tick?
  {
    assert LegBelongs(c, s, id);
    var e := LegCanMove(c.providers[s.legs[id].provider], s.now, SceneOf(s, id));
    ev := LegMoves(id, e);
  }

  ghost predicate SomeDue(s: Sys) {
    (exists id <- s.legs :: LegDue(s, id)) || (exists rid <- s.reqs :: RequestDue(s, rid))
  }

  lemma DueMoves(c: RouterConfig, s: Sys) returns (ev: SysEvent)
    requires Inv(c, s) && SomeDue(s)
    ensures EnabledAt(c, s, ev) && !ev.Arrive? && !ev.Abort? && !ev.Tick?
  {
    if id :| id in s.legs && LegDue(s, id) {
      ev := DueLegMoves(c, s, id);
    } else {
      var rid :| rid in s.reqs && RequestDue(s, rid);
      ev := DueRequestMoves(c, s, rid);
    }
  }

  /** With nothing due, time passes for `bound`, or until something is. */
  lemma TimePasses(s: Sys, bound: real) returns (dt: real)
    requires !SomeDue(s) && bound > 0.0
    ensures CanTick(s, dt) && dt <= bound
    ensures dt == bound || SomeDue(s.(now := s.now + dt))
  {
    assert forall id <- s.legs :: !LegDue(s, id);
    assert forall rid <- s.reqs :: !RequestDue(s, rid);
    var byLegs := LegSlack(s, s.legs.Keys, bound);
    dt := RequestSlack(s, s.reqs.Keys, byLegs);
    var t := s.(now := s.now + dt);
    if dt < byLegs {
      var rid :| rid in s.reqs.Keys && s.reqs[rid].phase.HedgeFirst? && s.reqs[rid].phase.until == t.now;
      assert RequestDue(t, rid);
    } else if dt < bound {
      var id :| id in s.legs.Keys && Timer(s.legs[id]) == Some(t.now);
      assert LegDue(t, id);
    }
  }

  /** Whatever state is reached, the protocol can go on by itself: a due leg or request can move, and
      when none is due time can pass. So deadlines are met by acting, not by stopping the clock. */
  lemma NeverStuck(c: RouterConfig, evs: seq<SysEvent>, ss: seq<Sys>, i: nat) returns (ev: SysEvent)
    requires IsRun(c, evs, ss) && i < |ss|
    ensures EnabledAt(c, ss[i], ev) && !ev.Arrive? && !ev.Abort?
  {
    EveryRun(c, evs, ss, i);
    if SomeDue(ss[i]) {
      ev := DueMoves(c, ss[i]);
    } else {
      var dt := TimePasses(ss[i], 1.0);
      ev := Tick(dt);
    }
  }
}
