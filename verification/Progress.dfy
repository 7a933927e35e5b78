/** How much work a request can be, and why it comes to its end. */
module Progress {
  import opened Common
  import opened Errors
  import opened Legs
  import opened Router
  import opened RouterSafety
  import opened RouterTheorems
  import Breaker

  // ----- The steps a request has left ------------------------------------------------------------

  /** Attempts a leg allowed `allowed` may still start after `made`. Even an allowance of 0 means one. */
  function Left(allowed: int, made: nat): nat {
    var most := if allowed >= 1 then allowed else 1;
    if made < most then most - made else 0
  }

  /** Steps a leg can still take: three for each attempt left, and those on the way to it. */
  function LegWork(leg: Leg): nat {
    var left := Left(leg.allowed, |leg.attempts|);
    match leg.phase
    case Entered => 3 * left + 3
    case WaitingSlot(_) => 3 * left + 2
    case WaitingRate(_) => 3 * left + 1
    case Ready => 3 * left
    case Calling(_) => 3 * left + 2
    case Sleeping(_) => 3 * left + 1
    case Streaming => 1
    case Done(_) => 0
  }

  /** The same for the candidate at position `id.1` of `n`, called already or not. */
  function WorkAt(c: RouterConfig, legs: map<Id, Leg>, id: Id, n: nat): nat {
    if id in legs then LegWork(legs[id]) else 3 * Left(Allowed(c, id.1, n), 0) + 3
  }

  function LegsWork(c: RouterConfig, legs: map<Id, Leg>, rid: nat, n: nat, k: nat): nat {
    if k == 0 then 0 else LegsWork(c, legs, rid, n, k - 1) + WorkAt(c, legs, (rid, k - 1), n)
  }

  /** Steps a request can still take itself, its legs' steps aside. */
  function Turns(r: Request): nat
    requires r.index <= |r.cands|
  {
    var ahead := 4 * (|r.cands| - r.index);
    match r.phase
    case Looping => ahead + 3
    case Direct => ahead + 2
    case HedgeFirst(_) => ahead + 2
    case PrimaryOnly => ahead + 1
    case Hedged(first, second) => if first.None? && second.None? then ahead + 1 else ahead
    case StreamOpen => 2
    case Draining(_) => 1
    case Finished(_) => 0
  }

  function Work(c: RouterConfig, s: Sys, rid: nat): nat
    requires rid in s.reqs && s.reqs[rid].index <= |s.reqs[rid].cands|
  {
    var n := |s.reqs[rid].cands|;
    Turns(s.reqs[rid]) + LegsWork(c, s.legs, rid, n, n)
  }

  /** The request whose loop or wait `ev` moves, by itself or by its caller's cancellation. */
  function Turner(ev: SysEvent): Option<nat> {
    match ev
    case Loop(rid) => Some(rid)
    case Resume(rid) => Some(rid)
    case HedgeTimer(rid) => Some(rid)
    case Collect(rid, _) => Some(rid)
    case Abort(rid) => Some(rid)
    case _ => None
  }

  /** The request whose own step `ev` is. Arrivals, cancellations by the caller and the clock are nobody's. */
  function Whose(ev: SysEvent): Option<nat> {
    if ev.LegMoves? then Some(ev.id.0) else if ev.Abort? then None else Turner(ev)
  }

  // ----- Every step uses some of it up ---------------------------------------------------------------

  lemma LegStepWorks(c: ProviderConfig, now: real, s: Scene, ev: Event)
    requires EnabledIn(c, now, s, ev) && LegInv(s.leg)
    ensures LegWork(Next(c, now, s, ev).leg) < LegWork(s.leg)
  {
    hide Breaker.Success, Breaker.Failure, Breaker.Release, ReleaseSlot, Clamp, Expired;
  }

  lemma {:induction false} LegsWorkLess(c: RouterConfig, legs: map<Id, Leg>, legs': map<Id, Leg>, rid: nat, n: nat, k: nat,
                                      less: Option<nat>)
    requires forall pos: nat :: pos < k ==> WorkAt(c, legs', (rid, pos), n) <= WorkAt(c, legs, (rid, pos), n)
    requires less.Some? ==> less.value < k && WorkAt(c, legs', (rid, less.value), n) < WorkAt(c, legs, (rid, less.value), n)
    ensures LegsWork(c, legs', rid, n, k) <= LegsWork(c, legs, rid, n, k)
    ensures less.Some? ==> LegsWork(c, legs', rid, n, k) < LegsWork(c, legs, rid, n, k)
  {
    hide WorkAt;
    if k > 0 {
      LegsWorkLess(c, legs, legs', rid, n, k - 1, if less == Some(k - 1) then None else less);
    }
  }

  /** No candidate's work changes. */
  ghost predicate LegsKept(c: RouterConfig, s: Sys, s': Sys) {
    forall id: Id :: id.0 in s.reqs ==>
      WorkAt(c, s'.legs, id, |s.reqs[id.0].cands|) == WorkAt(c, s.legs, id, |s.reqs[id.0].cands|)
  }

  /** Request `at` took a step, or was cancelled; the others did not. */
  ghost predicate Turned(c: RouterConfig, s: Sys, s': Sys, at: nat, strict: bool)
    requires Known(c, s) && at in s.reqs
  {
    && s'.reqs.Keys == s.reqs.Keys && (forall rid <- s.reqs :: rid != at ==> s'.reqs[rid] == s.reqs[rid])
    && SameRequest(s.reqs[at], s'.reqs[at]) && s'.reqs[at].index <= |s.reqs[at].cands|
    && Turns(s'.reqs[at]) + B(strict) <= Turns(s.reqs[at])
    && LegsKept(c, s, s')
  }

  lemma InRange(c: RouterConfig, s: Sys, rid: nat)
    requires Known(c, s) && rid in s.reqs
    ensures s.reqs[rid].index <= |s.reqs[rid].cands|
  {
    assert RequestOk(c, s.reqs[rid]);
  }

  lemma NewLegKept(c: RouterConfig, s: Sys, s': Sys, rid: nat, r: Request, pos: nat, b: Breaker.State)
    requires rid in s.reqs && r.cands == s.reqs[rid].cands && pos < |r.cands| && (rid, pos) !in s.legs
    requires s'.legs == s.legs[(rid, pos) := NewLeg(c, r, pos, b)]
    ensures LegsKept(c, s, s')
  {
  }

  lemma LoopTurns(c: RouterConfig, s: Sys, rid: nat)
    requires Known(c, s) && LegsOk(c, s) && rid in s.reqs && s.reqs[rid].phase.Looping?
    ensures Turned(c, s, LoopStep(c, s, rid), rid, true)
  {
    var s' := LoopStep(c, s, rid);
    var b := LoopShape(c, s, rid);
    assert RequestOk(c, s.reqs[rid]);
    hide Known, LegsOk, LoopStep;
    if !Advanced(s, s', rid, s'.reqs[rid]) {
      NotUsedYet(c, s, rid, s.reqs[rid].index);
      NewLegKept(c, s, s', rid, s'.reqs[rid], s.reqs[rid].index, b);
    }
  }

  /** The request moved on without touching its legs. */
  lemma TurnsAlone(c: RouterConfig, s: Sys, s': Sys, rid: nat, r: Request)
    requires Known(c, s) && rid in s.reqs && s'.legs == s.legs && s'.reqs == s.reqs[rid := r]
    requires s.reqs[rid].index <= |s.reqs[rid].cands|
    requires SameRequest(s.reqs[rid], r) && r.index <= |r.cands| && Turns(r) < Turns(s.reqs[rid])
    ensures Turned(c, s, s', rid, true)
  {
    hide Known, Turns, WorkAt;
  }

  lemma ResumedTurns(c: RouterConfig, r: Request, p: Phase)
    requires r.index < |r.cands| && (r.phase.StreamOpen? ==> p.Done?)
    requires r.phase.Direct? || r.phase.HedgeFirst? || r.phase.PrimaryOnly? || r.phase.StreamOpen?
    ensures var r' := Resumed(c, r, p); SameRequest(r, r') && r'.index <= |r.cands| && Turns(r') < Turns(r)
  {
  }

  lemma ResumeTurns(c: RouterConfig, s: Sys, rid: nat)
    requires Known(c, s) && CanResume(s, rid) && ReqInv(s.legs, rid, s.reqs[rid])
    ensures Turned(c, s, ResumeStep(c, s, rid), rid, true)
  {
    var r, s' := s.reqs[rid], ResumeStep(c, s, rid);
    assert RequestOk(c, r);
    if !r.phase.Draining? {
      ResumedTurns(c, r, s.legs[(rid, r.index)].phase);
    }
    hide Known, Turned, Resumed, ReqInv, CanResume;
    TurnsAlone(c, s, s', rid, s'.reqs[rid]);
  }

  /** The request moved on and opened a leg. */
  lemma TurnsOpening(c: RouterConfig, s: Sys, s': Sys, rid: nat, r: Request, pos: nat, b: Breaker.State)
    requires Known(c, s) && rid in s.reqs && s'.reqs == s.reqs[rid := r] && pos < |r.cands| && (rid, pos) !in s.legs
    requires s'.legs == s.legs[(rid, pos) := NewLeg(c, r, pos, b)]
    requires s.reqs[rid].index <= |s.reqs[rid].cands|
    requires SameRequest(s.reqs[rid], r) && r.index <= |r.cands| && Turns(r) < Turns(s.reqs[rid])
    ensures Turned(c, s, s', rid, true)
  {
    NewLegKept(c, s, s', rid, r, pos, b);
    hide Known, Turns, WorkAt, NewLeg, LegsKept;
  }

  lemma HedgeTurns(c: RouterConfig, s: Sys, rid: nat)
    requires Known(c, s) && LegsOk(c, s) && ReqsOk(s)
    requires HedgeTimerDue(s, rid) && s.reqs[rid].index + 1 < |s.reqs[rid].cands|
    ensures Turned(c, s, HedgeStep(c, s, rid), rid, true)
  {
    hide Known, LegsOk, ReqsOk, HedgeStep, Awaits, MayBecome, NewLeg, Turned;
    var r, s' := s.reqs[rid], HedgeStep(c, s, rid);
    var b := HedgeShape(c, s, rid);
    var r' := s'.reqs[rid];
    HedgeMoves(c, s, rid);
    assert s'.reqs == s.reqs[rid := r'];
    if r'.phase.Hedged? {
      PartnerNotUsed(c, s, rid);
      TurnsOpening(c, s, s', rid, r', r.index + 1, b);
    } else {
      TurnsAlone(c, s, s', rid, r');
    }
  }

  lemma MarkedKept(c: RouterConfig, s: Sys, s': Sys, rid: nat, index: nat)
    requires Marked(s.legs, s'.legs, rid, index)
    ensures LegsKept(c, s, s')
  {
    forall id: Id, n: nat ensures WorkAt(c, s'.legs, id, n) == WorkAt(c, s.legs, id, n) {
      if id in s.legs {
        assert s'.legs[id] == s.legs[id].(cancelling := s'.legs[id].cancelling);
      }
    }
  }

  lemma DrainTurns(c: RouterConfig, s: Sys, rid: nat, final: Final, strict: bool)
    requires Known(c, s) && rid in s.reqs && Turns(s.reqs[rid]) >= 1 + B(strict)
    ensures Turned(c, s, Drain(s, rid, final), rid, strict)
  {
    InRange(c, s, rid);
    CancelBothMarks(s, rid, s.reqs[rid].index);
    hide Known, CancelBoth, Marked, LegsKept;
    MarkedKept(c, s, Drain(s, rid, final), rid, s.reqs[rid].index);
  }

  lemma PairTurns(c: RouterConfig, legs: map<Id, Leg>, rid: nat, r: Request, second: bool, k: ErrorKind)
    requires r.phase.Hedged? && ReqInv(legs, rid, r) && (if second then r.phase.second.None? else r.phase.first.None?)
    ensures var r' := PairFailed(c, r, second, k);
      r.index + 1 < |r.cands| && SameRequest(r, r') && r'.index <= |r.cands| && Turns(r') < Turns(r)
  {
  }

  lemma CollectTurns(c: RouterConfig, s: Sys, rid: nat, second: bool)
    requires Known(c, s) && CanCollect(s, rid, second) && ReqInv(s.legs, rid, s.reqs[rid])
    ensures Turned(c, s, CollectStep(c, s, rid, second), rid, true)
  {
    assert RequestOk(c, s.reqs[rid]);
    var s' := CollectStep(c, s, rid, second);
    CollectShape(c, s, rid, second);
    hide Known, RequestOk, CollectStep, PairFailed, Drain;
    if s' == Drain(s, rid, Returned) {
      DrainTurns(c, s, rid, Returned, true);
    } else if s' == Drain(s, rid, Aborted) {
      DrainTurns(c, s, rid, Aborted, true);
    } else {
      var k :| s' == WithRequest(s, rid, PairFailed(c, s.reqs[rid], second, k));
      PairTurns(c, s.legs, rid, s.reqs[rid], second, k);
      hide ReqInv, Turns, CanCollect, Turned;
      TurnsAlone(c, s, s', rid, PairFailed(c, s.reqs[rid], second, k));
    }
  }

  lemma AbortTurns(c: RouterConfig, s: Sys, rid: nat)
    requires Known(c, s) && CanAbort(s, rid) && ReqInv(s.legs, rid, s.reqs[rid])
    ensures Turned(c, s, AbortStep(s, rid), rid, false)
  {
    assert RequestOk(c, s.reqs[rid]);
    if !s.reqs[rid].phase.HedgeFirst? {
      DrainTurns(c, s, rid, Aborted, false);
    }
  }

  /** From `s` to `s'` request `rid` stayed what it is and lost `less` steps or more. */
  ghost predicate LessenedAt(c: RouterConfig, s: Sys, s': Sys, rid: nat, less: nat) {
    && (rid in s'.reqs <==> rid in s.reqs) && (rid !in s.reqs ==> less == 0)
    && (rid in s.reqs ==>
          && SameRequest(s.reqs[rid], s'.reqs[rid])
          && s.reqs[rid].index <= |s.reqs[rid].cands| && s'.reqs[rid].index <= |s'.reqs[rid].cands|
          && Work(c, s', rid) + less <= Work(c, s, rid))
  }

  lemma TurnedWorks(c: RouterConfig, s: Sys, s': Sys, at: nat, strict: bool, rid: nat)
    requires Known(c, s) && at in s.reqs && Turned(c, s, s', at, strict)
    ensures LessenedAt(c, s, s', rid, B(strict && rid == at))
  {
    if rid in s.reqs {
      InRange(c, s, rid);
      hide Known, Turns, WorkAt, LegsWork;
      var n := |s.reqs[rid].cands|;
      LegsWorkLess(c, s.legs, s'.legs, rid, n, n, None);
    }
  }

  lemma LegChangeWorks(c: RouterConfig, s: Sys, s': Sys, id: Id, x: Leg, rid: nat)
    requires id in s.legs && LegWork(x) < LegWork(s.legs[id]) && s'.legs == s.legs[id := x] && s'.reqs == s.reqs
    requires rid in s.reqs && s.reqs[rid].index <= |s.reqs[rid].cands| && (id.0 == rid ==> id.1 < |s.reqs[rid].cands|)
    ensures LessenedAt(c, s, s', rid, B(id.0 == rid))
  {
    var n := |s.reqs[rid].cands|;
    hide LegWork, Turns;
    LegsWorkLess(c, s.legs, s'.legs, rid, n, n, if id.0 == rid then Some(id.1) else None);
  }

  lemma LegMoveWorks(c: RouterConfig, s: Sys, id: Id, e: Event, rid: nat)
    requires Inv(c, s) && EnabledAt(c, s, LegMoves(id, e))
    ensures LessenedAt(c, s, Step(c, s, LegMoves(id, e)), rid, B(id.0 == rid))
  {
    assert LegBelongs(c, s, id) && LegInv(s.legs[id]);
    var cfg, scene := c.providers[s.legs[id].provider], SceneOf(s, id);
    LegStepWorks(cfg, s.now, scene, e);
    if rid in s.reqs {
      InRange(c, s, rid);
      hide Inv, Known, LegWork, LegInv, Next, EnabledIn, LessenedAt;
      LegChangeWorks(c, s, Step(c, s, LegMoves(id, e)), id, Next(cfg, s.now, scene, e).leg, rid);
    }
  }

  lemma StepTurns(c: RouterConfig, s: Sys, ev: SysEvent)
    requires Inv(c, s) && EnabledAt(c, s, ev) && Turner(ev).Some?
    ensures Turner(ev).value in s.reqs && Turned(c, s, Step(c, s, ev), Turner(ev).value, !ev.Abort?)
  {
    InvParts(c, s);
    hide Turned, Accounts, Timely, LegsOk, Known, ReqInv;
    match ev
    case Loop(at) => LoopTurns(c, s, at);
    case Resume(at) => ResumeTurns(c, s, at);
    case HedgeTimer(at) => HedgeTurns(c, s, at);
    case Collect(at, second) => CollectTurns(c, s, at, second);
    case Abort(at) => AbortTurns(c, s, at);
  }

  lemma TurnWorks(c: RouterConfig, s: Sys, ev: SysEvent, rid: nat)
    requires Inv(c, s) && EnabledAt(c, s, ev) && Turner(ev).Some?
    ensures LessenedAt(c, s, Step(c, s, ev), rid, B(Whose(ev) == Some(rid)))
  {
    assert Known(c, s);
    hide Inv, Known, EnabledAt, Step, Turned, LessenedAt;
    StepTurns(c, s, ev);
    TurnedWorks(c, s, Step(c, s, ev), Turner(ev).value, !ev.Abort?, rid);
  }

  /** Arrivals of others and the clock. */
  lemma QuietWorks(c: RouterConfig, s: Sys, ev: SysEvent, rid: nat)
    requires Known(c, s) && EnabledAt(c, s, ev) && (ev.Tick? || (ev.Arrive? && ev.rid != rid))
    ensures LessenedAt(c, s, Step(c, s, ev), rid, 0)
  {
    if rid in s.reqs {
      InRange(c, s, rid);
    }
    hide Known, Turns;
  }

  /** A step of a request leaves it less to do; no other event leaves anyone more. */
  lemma StepWorks(c: RouterConfig, s: Sys, ev: SysEvent, rid: nat)
    requires Inv(c, s) && EnabledAt(c, s, ev) && !(ev.Arrive? && ev.rid == rid)
    ensures LessenedAt(c, s, Step(c, s, ev), rid, B(Whose(ev) == Some(rid)))
  {
    assert Known(c, s);
    hide Inv, Known, EnabledAt, Step, LessenedAt;
    if Turner(ev).Some? {
      TurnWorks(c, s, ev, rid);
    } else if ev.LegMoves? {
      LegMoveWorks(c, s, ev.id, ev.event, rid);
    } else {
      QuietWorks(c, s, ev, rid);
    }
  }

  // ----- At most so many steps in any run ----------------------------------------------------------------

  /** Steps of request `rid` among the first `i` events. */
  function Taken(evs: seq<SysEvent>, rid: nat, i: nat): nat
    requires i <= |evs|
  {
    if i == 0 then 0 else Taken(evs, rid, i - 1) + B(Whose(evs[i - 1]) == Some(rid))
  }

  function MostAttempts(c: RouterConfig): nat {
    if c.maxRetry >= 1 then c.maxRetry else 1
  }

  lemma {:induction false} FreshWork(c: RouterConfig, legs: map<Id, Leg>, rid: nat, n: nat, k: nat)
    requires forall id <- legs :: id.0 != rid
    ensures LegsWork(c, legs, rid, n, k) <= k * (3 * MostAttempts(c) + 3)
  {
    if k > 0 {
      FreshWork(c, legs, rid, n, k - 1);
      assert k * (3 * MostAttempts(c) + 3) == (k - 1) * (3 * MostAttempts(c) + 3) + (3 * MostAttempts(c) + 3);
    }
  }

  /** So far, and still to come. */
  ghost predicate Budgeted(c: RouterConfig, s: Sys, rid: nat, taken: nat) {
    if rid !in s.reqs then taken == 0
    else s.reqs[rid].index <= |s.reqs[rid].cands|
         && taken + Work(c, s, rid) <= |s.reqs[rid].cands| * (3 * MostAttempts(c) + 7) + 3
  }

  lemma ArrivalBudgeted(c: RouterConfig, s: Sys, ev: SysEvent)
    requires Inv(c, s) && EnabledAt(c, s, ev) && ev.Arrive?
    ensures Budgeted(c, Step(c, s, ev), ev.rid, 0)
  {
    var n := |ev.cands|;
    assert forall id <- s.legs :: LegBelongs(c, s, id);
    FreshWork(c, s.legs, ev.rid, n, n);
    assert n * (3 * MostAttempts(c) + 7) == n * (3 * MostAttempts(c) + 3) + 4 * n;
  }

  lemma StepBudgeted(c: RouterConfig, s: Sys, ev: SysEvent, rid: nat, taken: nat)
    requires Inv(c, s) && EnabledAt(c, s, ev) && Budgeted(c, s, rid, taken)
    ensures Budgeted(c, Step(c, s, ev), rid, taken + B(Whose(ev) == Some(rid)))
  {
    hide Inv, EnabledAt, Step, Work;
    if ev.Arrive? && ev.rid == rid {
      NotYetHere(c, s, ev);
      ArrivalBudgeted(c, s, ev);
    } else {
      StepWorks(c, s, ev, rid);
    }
  }

  lemma NotYetHere(c: RouterConfig, s: Sys, ev: SysEvent)
    requires EnabledAt(c, s, ev) && ev.Arrive?
    ensures ev.rid !in s.reqs
  {
  }

  lemma {:induction false} TakenBudgeted(c: RouterConfig, evs: seq<SysEvent>, ss: seq<Sys>, i: nat, rid: nat)
    requires IsRun(c, evs, ss) && i < |ss|
    ensures Budgeted(c, ss[i], rid, Taken(evs, rid, i))
  {
    if i > 0 {
      TakenBudgeted(c, evs, ss, i - 1, rid);
      EveryRun(c, evs, ss, i - 1);
      StepBudgeted(c, ss[i - 1], evs[i - 1], rid, Taken(evs, rid, i - 1));
    }
  }

  /** In no run does a request with `n` candidates take more than so many steps, over its own turns and
      all its calls. So it cannot go on for ever while the clock stands still. */
  lemma StepsBounded(c: RouterConfig, evs: seq<SysEvent>, ss: seq<Sys>, i: nat, rid: nat)
    requires IsRun(c, evs, ss) && i < |ss| && rid in ss[i].reqs
    ensures Taken(evs, rid, i) <= |ss[i].reqs[rid].cands| * (3 * MostAttempts(c) + 7) + 3
  {
    TakenBudgeted(c, evs, ss, i, rid);
  }

  // ----- And time can always pass ---------------------------------------------------------------------------

  /** Steps that all requests below `k` can still take. */
  ghost function AllWork(c: RouterConfig, s: Sys, k: nat): nat
    requires Known(c, s)
  {
    if k == 0 then 0
    else AllWork(c, s, k - 1) + if k - 1 in s.reqs then assert RequestOk(c, s.reqs[k - 1]); Work(c, s, k - 1) else 0
  }

  /** From `s` to `s'` no request gained work, and `who` lost some. */
  ghost predicate Lessened(c: RouterConfig, s: Sys, s': Sys, who: Option<nat>) {
    forall rid: nat :: LessenedAt(c, s, s', rid, B(who == Some(rid)))
  }

  lemma StepLessens(c: RouterConfig, s: Sys, ev: SysEvent)
    requires Inv(c, s) && EnabledAt(c, s, ev) && !ev.Arrive?
    ensures Inv(c, Step(c, s, ev)) && Lessened(c, s, Step(c, s, ev), Whose(ev))
  {
    hide Inv, EnabledAt, Step, LessenedAt;
    StepKeeps(c, s, ev);
    forall rid: nat ensures LessenedAt(c, s, Step(c, s, ev), rid, B(Whose(ev) == Some(rid))) {
      StepWorks(c, s, ev, rid);
    }
  }

  lemma {:induction false} AllWorkLess(c: RouterConfig, s: Sys, s': Sys, who: Option<nat>, k: nat)
    requires Known(c, s) && Known(c, s') && Lessened(c, s, s', who)
    ensures AllWork(c, s', k) + B(who.Some? && who.value < k) <= AllWork(c, s, k)
  {
    if k > 0 {
      AllWorkLess(c, s, s', who, k - 1);
      assert LessenedAt(c, s, s', k - 1, B(who == Some(k - 1)));
      hide Known, Work;
    }
  }

  /** `evs2`, `ss2` go on from the run `evs`, `ss`, with no new request and no cancellation by a caller. */
  ghost predicate Continues(c: RouterConfig, evs: seq<SysEvent>, ss: seq<Sys>, evs2: seq<SysEvent>, ss2: seq<Sys>) {
    && IsRun(c, evs2, ss2) && evs <= evs2 && ss <= ss2
    && forall k :: |evs| <= k < |evs2| ==> !evs2[k].Arrive? && !evs2[k].Abort?
  }

  /** One more event. */
  lemma Extends(c: RouterConfig, evs: seq<SysEvent>, ss: seq<Sys>, ev: SysEvent)
    requires IsRun(c, evs, ss) && EnabledAt(c, ss[|evs|], ev) && !ev.Arrive? && !ev.Abort?
    ensures Continues(c, evs, ss, evs + [ev], ss + [Step(c, ss[|evs|], ev)])
  {
    hide EnabledAt, Step, Start;
    var evs2, ss2 := evs + [ev], ss + [Step(c, ss[|evs|], ev)];
    forall i | 0 <= i < |evs2| ensures EnabledAt(c, ss2[i], evs2[i]) && ss2[i + 1] == Step(c, ss2[i], evs2[i]) {
      if i < |evs| {
        assert ss2[i] == ss[i] && ss2[i + 1] == ss[i + 1];
      }
    }
  }

  lemma ContinuesOn(c: RouterConfig, evs: seq<SysEvent>, ss: seq<Sys>, evs2: seq<SysEvent>, ss2: seq<Sys>,
                    evs3: seq<SysEvent>, ss3: seq<Sys>)
    requires Continues(c, evs, ss, evs2, ss2) && Continues(c, evs2, ss2, evs3, ss3)
    ensures Continues(c, evs, ss, evs3, ss3)
  {
    hide IsRun;
  }

  ghost predicate SameRequests(s: Sys, s': Sys) {
    s'.reqs.Keys == s.reqs.Keys && forall rid <- s.reqs :: SameRequest(s.reqs[rid], s'.reqs[rid])
  }

  lemma LessenedSame(c: RouterConfig, s: Sys, s': Sys, who: Option<nat>)
    requires Known(c, s) && Known(c, s') && Lessened(c, s, s', who)
    ensures SameRequests(s, s')
  {
    hide Known, Work;
    forall rid: nat ensures (rid in s'.reqs <==> rid in s.reqs) && (rid in s.reqs ==> SameRequest(s.reqs[rid], s'.reqs[rid])) {
      assert LessenedAt(c, s, s', rid, B(who == Some(rid)));
    }
  }

  lemma StepEffect(c: RouterConfig, s: Sys, ev: SysEvent, k: nat)
    requires Inv(c, s) && EnabledAt(c, s, ev) && !ev.Arrive?
    ensures var s' := Step(c, s, ev);
      Inv(c, s') && SameRequests(s, s') && AllWork(c, s', k) + B(Whose(ev).Some? && Whose(ev).value < k) <= AllWork(c, s, k)
  {
    StepLessens(c, s, ev);
    var s' := Step(c, s, ev);
    assert Known(c, s) && Known(c, s');
    hide Known, EnabledAt, Step, Lessened, SameRequests, AllWork;
    LessenedSame(c, s, s', Whose(ev));
    AllWorkLess(c, s, s', Whose(ev), k);
  }

  /** The next event: a step that is due, or time up to `until` or until some step is due. */
  lemma OneEvent(c: RouterConfig, s: Sys, k: nat, until: real) returns (ev: SysEvent)
    requires Inv(c, s) && s.now < until && forall rid <- s.reqs :: rid < k
    ensures EnabledAt(c, s, ev) && !ev.Arrive? && !ev.Abort?
    ensures var s' := Step(c, s, ev);
      && Inv(c, s') && SameRequests(s, s') && AllWork(c, s', k) <= AllWork(c, s, k)
      && if SomeDue(s) then AllWork(c, s', k) < AllWork(c, s, k) else SomeDue(s') || s'.now >= until
  {
    hide AllWork, SameRequests, Inv, SomeDue, CanTick;
    if SomeDue(s) {
      ev := DueMoves(c, s);
      DueIsSomeones(c, s, ev, k);
      hide EnabledAt, Step;
      StepEffect(c, s, ev, k);
    } else {
      var dt := TimePasses(s, until - s.now);
      ev := Tick(dt);
      StepEffect(c, s, ev, k);
    }
  }

  lemma DueIsSomeones(c: RouterConfig, s: Sys, ev: SysEvent, k: nat)
    requires Inv(c, s) && EnabledAt(c, s, ev) && !ev.Arrive? && !ev.Abort? && !ev.Tick?
    requires forall rid <- s.reqs :: rid < k
    ensures Whose(ev).Some? && Whose(ev).value < k
  {
    if ev.LegMoves? {
      assert LegBelongs(c, s, ev.id);
    } else {
      hide Inv, Known;
    }
  }

  /** From any reachable state the clock reaches any time, without new requests or cancellations. */
  lemma {:induction false} ReachesTime(c: RouterConfig, evs: seq<SysEvent>, ss: seq<Sys>, k: nat, until: real)
    returns (evs2: seq<SysEvent>, ss2: seq<Sys>)
    requires IsRun(c, evs, ss) && Inv(c, ss[|evs|]) && forall rid <- ss[|evs|].reqs :: rid < k
    ensures Continues(c, evs, ss, evs2, ss2) && ss2[|evs2|].now >= until && SameRequests(ss[|evs|], ss2[|evs2|])
    decreases AllWork(c, ss[|evs|], k), if SomeDue(ss[|evs|]) then 0 else 1
  {
    var s := ss[|evs|];
    if s.now >= until {
      evs2, ss2 := evs, ss;
    } else {
      var ev := OneEvent(c, s, k, until);
      hide EnabledAt, Step, Start, Inv, SomeDue, AllWork, SameRequest;
      Extends(c, evs, ss, ev);
      var evs1, ss1 := evs + [ev], ss + [Step(c, s, ev)];
      if ss1[|evs1|].now >= until {
        evs2, ss2 := evs1, ss1;
      } else {
        evs2, ss2 := ReachesTime(c, evs1, ss1, k, until);
        ContinuesOn(c, evs, ss, evs1, ss1, evs2, ss2);
        SameThrough(s, ss1[|evs1|], ss2[|evs2|]);
      }
    }
  }

  lemma SameThrough(s: Sys, t: Sys, u: Sys)
    requires SameRequests(s, t) && SameRequests(t, u)
    ensures SameRequests(s, u)
  {
  }

  lemma Later(reqs: map<nat, Request>, rids: set<nat>) returns (k: nat, until: real)
    requires rids <= reqs.Keys
    ensures forall rid <- rids :: rid < k && reqs[rid].arrived < until
                                  && (reqs[rid].deadline.Some? ==> reqs[rid].deadline.value < until)
    decreases rids
  {
    k, until := 0, 0.0;
    if rids != {} {
      var rid :| rid in rids;
      k, until := Later(reqs, rids - {rid});
      var r := reqs[rid];
      k := if rid < k then k else rid + 1;
      until := Max(until, Max(r.arrived, if r.deadline.Some? then r.deadline.value else r.arrived) + 1.0);
    }
  }

  /** Whatever has happened, if from now on nobody comes and nobody cancels, the protocol can carry
      itself to a state where each request with a deadline is over, or delivers a stream it opened in time. */
  lemma ComesToItsEnd(c: RouterConfig, evs: seq<SysEvent>, ss: seq<Sys>) returns (evs2: seq<SysEvent>, ss2: seq<Sys>)
    requires IsRun(c, evs, ss)
    ensures Continues(c, evs, ss, evs2, ss2)
    ensures forall rid <- ss[|evs|].reqs :: rid in ss2[|evs2|].reqs
    ensures forall rid <- ss2[|evs2|].reqs :: var r := ss2[|evs2|].reqs[rid];
      r.deadline.Some? ==> r.phase.Finished? || (r.streaming && (r.phase.StreamOpen? || r.phase.Draining?))
  {
    var s := ss[|evs|];
    EveryRun(c, evs, ss, |evs|);
    var k, until := Later(s.reqs, s.reqs.Keys);
    evs2, ss2 := ReachesTime(c, evs, ss, k, until);
    forall rid <- ss2[|evs2|].reqs
      ensures var r := ss2[|evs2|].reqs[rid];
        r.deadline.Some? ==> r.phase.Finished? || (r.streaming && (r.phase.StreamOpen? || r.phase.Draining?))
    {
      hide IsRun, Inv;
      assert SameRequest(s.reqs[rid], ss2[|evs2|].reqs[rid]);
      if ss2[|evs2|].reqs[rid].deadline.Some? {
        OverByDeadline(c, evs2, ss2, |evs2|, rid);
      }
    }
  }
}
