/** Each breaker of the router has recorded what became of its provider's calls, and nothing else. */
module Records {
  import opened Common
  import opened Errors
  import opened Legs
  import opened Router
  import opened RouterSafety
  import Breaker

  /** What the end of a call says of its provider: an answer is a success; an error of the provider's own is
      a failure, if the call had begun to run; anything else says nothing. */
  function Verdict(before: Leg, after: Leg): Breaker.Event
    requires after.phase.Done?
  {
    match after.phase.outcome
    case Answered => Breaker.Succeed
    case Cancelled => Breaker.GiveUp
    case Failed(k) => if Runs(before) && ProvidersFault(k) then Breaker.Fail else Breaker.GiveUp
  }

  /** The request asks for the candidate at `pos`, which is `p`. */
  predicate Asks(s: Sys, rid: nat, pos: nat, p: string) {
    rid in s.reqs && pos < |s.reqs[rid].cands| && s.reqs[rid].cands[pos] == p
  }

  /** What `ev` has to do with the breaker of `p`. */
  function Happened(s: Sys, ev: SysEvent, s': Sys, p: string): seq<Breaker.Tick> {
    match ev
    case Loop(rid) =>
      if rid in s.reqs && Asks(s, rid, s.reqs[rid].index, p) && p !in s.reqs[rid].skip
      then [Breaker.Tick(Breaker.AllowCall, s.now)] else []
    case HedgeTimer(rid) =>
      if rid in s.reqs && Asks(s, rid, s.reqs[rid].index + 1, p) then [Breaker.Tick(Breaker.AllowCall, s.now)] else []
    case LegMoves(id, _) =>
      if id in s.legs && id in s'.legs && s.legs[id].provider == p && s'.legs[id].phase.Done?
      then [Breaker.Tick(Verdict(s.legs[id], s'.legs[id]), s.now)] else []
    case _ => []
  }

  function History(evs: seq<SysEvent>, ss: seq<Sys>, p: string, i: nat): seq<Breaker.Tick>
    requires i < |ss| && |ss| == |evs| + 1
  {
    if i == 0 then [] else History(evs, ss, p, i - 1) + Happened(ss[i - 1], evs[i - 1], ss[i], p)
  }

  lemma RunOne(c: Breaker.Config, ts: seq<Breaker.Tick>, more: seq<Breaker.Tick>)
    requires |more| <= 1
    ensures Breaker.Run(c, ts + more) == if more == [] then Breaker.Run(c, ts) else Breaker.Step(c, Breaker.Run(c, ts), more[0])
  {
    if more == [] {
      assert ts + more == ts;
    } else {
      assert more == [more[0]];
      Breaker.RunAppend(c, ts, more[0]);
    }
  }

  /** The breaker of `p` made the steps that `ev` says. */
  ghost predicate Follows(c: RouterConfig, s: Sys, ev: SysEvent, s': Sys, p: string)
    requires p in c.providers
  {
    var h := Happened(s, ev, s', p);
    && p in s.breakers && p in s'.breakers
    && s'.breakers[p] == if h == [] then s.breakers[p] else Breaker.Step(c.providers[p].breaker, s.breakers[p], h[0])
  }

  lemma LoopFollows(c: RouterConfig, s: Sys, rid: nat, p: string)
    requires Known(c, s) && rid in s.reqs && s.reqs[rid].phase.Looping? && p in c.providers
    ensures Follows(c, s, Loop(rid), LoopStep(c, s, rid), p)
  {
    assert RequestOk(c, s.reqs[rid]);
  }

  lemma HedgeFollows(c: RouterConfig, s: Sys, rid: nat, p: string)
    requires Known(c, s) && HedgeTimerDue(s, rid) && s.reqs[rid].index + 1 < |s.reqs[rid].cands| && p in c.providers
    ensures Follows(c, s, HedgeTimer(rid), HedgeStep(c, s, rid), p)
  {
    assert RequestOk(c, s.reqs[rid]);
  }

  lemma DrainKeepsBreakers(s: Sys, rid: nat, final: Final)
    requires rid in s.reqs
    ensures Drain(s, rid, final).breakers == s.breakers
  {
  }

  lemma LegFollows(c: RouterConfig, s: Sys, id: Id, e: Event, p: string)
    requires Inv(c, s) && EnabledAt(c, s, LegMoves(id, e)) && p in c.providers
    ensures Follows(c, s, LegMoves(id, e), Step(c, s, LegMoves(id, e)), p)
  {
    var q := s.legs[id].provider;
    LegIsAccounted(c, s, id);
    assert Known(c, s) && LegInv(s.legs[id]);
    var scene := SceneOf(s, id);
    StepKeepsLeg(c.providers[q], s.now, scene, e);
    hide Inv, Known, LegInv, Accounted, Next, EnabledIn;
    assert Step(c, s, LegMoves(id, e)) == WithScene(s, id, Next(c.providers[q], s.now, scene, e));
    LegRecords(c, s, id, e, Next(c.providers[q], s.now, scene, e), p);
  }

  lemma LegRecords(c: RouterConfig, s: Sys, id: Id, e: Event, t: Scene, p: string)
    requires id in s.legs && s.legs[id].provider in c.providers && s.legs[id].provider in s.breakers
    requires s.legs[id].provider in s.limiters && p in c.providers && p in s.breakers
    requires t.leg.provider == s.legs[id].provider
    requires BreakerMove(c.providers[s.legs[id].provider], s.now, SceneOf(s, id), t)
    ensures Follows(c, s, LegMoves(id, e), WithScene(s, id, t), p)
  {
    hide Breaker.Success, Breaker.Failure, Breaker.Release;
  }

  lemma QuietFollows(c: RouterConfig, s: Sys, ev: SysEvent, p: string)
    requires EnabledAt(c, s, ev) && p in c.providers && p in s.breakers
    requires !ev.LegMoves? && !ev.Loop? && !ev.HedgeTimer?
    ensures Follows(c, s, ev, Step(c, s, ev), p)
  {
    hide Known, Drain, CanTick, Resumed, PairFailed, CanResume;
    match ev
    case Collect(rid, _) => DrainKeepsBreakers(s, rid, Returned); DrainKeepsBreakers(s, rid, Aborted);
    case Abort(rid) => DrainKeepsBreakers(s, rid, Aborted);
    case _ =>
  }

  lemma StepFollows(c: RouterConfig, s: Sys, ev: SysEvent, p: string)
    requires Inv(c, s) && EnabledAt(c, s, ev) && p in c.providers
    ensures Follows(c, s, ev, Step(c, s, ev), p)
  {
    assert Known(c, s) && p in s.breakers;
    hide Inv, Known, LoopStep, HedgeStep, HedgeTimerDue, EnabledIn, CanTick, CanResume, CanCollect, Follows;
    match ev
    case LegMoves(id, e) => LegFollows(c, s, id, e, p);
    case Loop(rid) => LoopFollows(c, s, rid, p);
    case HedgeTimer(rid) => HedgeFollows(c, s, rid, p);
    case _ => QuietFollows(c, s, ev, p);
  }

  lemma RunFollows(c: RouterConfig, evs: seq<SysEvent>, ss: seq<Sys>, j: nat, p: string)
    requires IsRun(c, evs, ss) && j < |evs| && p in c.providers
    ensures Follows(c, ss[j], evs[j], ss[j + 1], p)
  {
    EveryRun(c, evs, ss, j);
    hide Inv, EnabledAt, Step, Start, Follows;
    assert EnabledAt(c, ss[j], evs[j]) && ss[j + 1] == Step(c, ss[j], evs[j]);
    StepFollows(c, ss[j], evs[j], p);
  }

  /** In every run the breaker of a provider is where its calls' admissions and ends have taken it. */
  lemma {:induction false} BreakerIsHistory(c: RouterConfig, evs: seq<SysEvent>, ss: seq<Sys>, i: nat, p: string)
    requires IsRun(c, evs, ss) && i < |ss| && p in c.providers
    ensures p in ss[i].breakers && ss[i].breakers[p] == Breaker.Run(c.providers[p].breaker, History(evs, ss, p, i))
  {
    hide EnabledAt, Step, Happened, Breaker.Run;
    if i == 0 {
      EmptyHistory(c, evs, ss, p);
    } else {
      BreakerIsHistory(c, evs, ss, i - 1, p);
      RunFollows(c, evs, ss, i - 1, p);
      OneTick(ss[i - 1], evs[i - 1], ss[i], p);
      RunOne(c.providers[p].breaker, History(evs, ss, p, i - 1), Happened(ss[i - 1], evs[i - 1], ss[i], p));
    }
  }

  lemma EmptyHistory(c: RouterConfig, evs: seq<SysEvent>, ss: seq<Sys>, p: string)
    requires IsRun(c, evs, ss) && p in c.providers
    ensures p in ss[0].breakers && ss[0].breakers[p] == Breaker.Run(c.providers[p].breaker, History(evs, ss, p, 0))
  {
  }

  lemma OneTick(s: Sys, ev: SysEvent, s': Sys, p: string)
    ensures |Happened(s, ev, s', p)| <= 1 && forall t <- Happened(s, ev, s', p) :: t.at == s.now
  {
  }

  lemma TimeGoesOn(c: RouterConfig, s: Sys, ev: SysEvent)
    requires Known(c, s) && EnabledAt(c, s, ev)
    ensures Step(c, s, ev).now >= s.now
  {
    hide Known, EnabledIn, Next;
  }

  lemma {:induction false} HistoryInOrder(c: RouterConfig, evs: seq<SysEvent>, ss: seq<Sys>, i: nat, p: string)
    requires IsRun(c, evs, ss) && i < |ss|
    ensures Breaker.Monotone(History(evs, ss, p, i)) && forall t <- History(evs, ss, p, i) :: t.at <= ss[i].now
  {
    hide EnabledAt, Step, Happened, Start;
    if i > 0 {
      HistoryInOrder(c, evs, ss, i - 1, p);
      EveryRun(c, evs, ss, i - 1);
      assert EnabledAt(c, ss[i - 1], evs[i - 1]) && ss[i - 1 + 1] == Step(c, ss[i - 1], evs[i - 1]);
      assert Known(c, ss[i - 1]);
      hide Inv, Known;
      TimeGoesOn(c, ss[i - 1], evs[i - 1]);
      OneTick(ss[i - 1], evs[i - 1], ss[i], p);
      InOrder(History(evs, ss, p, i - 1), Happened(ss[i - 1], evs[i - 1], ss[i], p), ss[i - 1].now);
    }
  }

  lemma InOrder(a: seq<Breaker.Tick>, b: seq<Breaker.Tick>, now: real)
    requires Breaker.Monotone(a) && (forall t <- a :: t.at <= now) && |b| <= 1 && forall t <- b :: t.at == now
    ensures Breaker.Monotone(a + b) && forall t <- a + b :: t.at <= now
  {
  }

  /** So in every state a closed breaker has counted the calls that failed by the provider's fault since one was
      last answered, fewer than the threshold. */
  lemma ClosedHasCounted(c: RouterConfig, evs: seq<SysEvent>, ss: seq<Sys>, i: nat, p: string)
    requires IsRun(c, evs, ss) && i < |ss| && p in c.providers && c.providers[p].breaker.threshold >= 1
    ensures p in ss[i].breakers
    ensures ss[i].breakers[p].phase.Closed? ==>
      ss[i].breakers[p].failures == Breaker.FailsSinceSuccess(History(evs, ss, p, i)) < c.providers[p].breaker.threshold
  {
    hide History, Breaker.Run, EnabledAt, Step, Start;
    BreakerIsHistory(c, evs, ss, i, p);
    Breaker.CountsSinceSuccess(c.providers[p].breaker, History(evs, ss, p, i));
    Breaker.ClosedBelowThreshold(c.providers[p].breaker, History(evs, ss, p, i));
  }

  /** The call of `id` ends with `ev`. */
  ghost predicate Ends(s: Sys, ev: SysEvent, s': Sys, id: Id) {
    ev.LegMoves? && ev.id == id && id in s.legs && id in s'.legs && s'.legs[id].phase.Done?
  }

  /** An answer closes a breaker that is half-open, or whose timeout has passed, and clears the count of a closed one. */
  lemma AnswerCloses(c: RouterConfig, evs: seq<SysEvent>, ss: seq<Sys>, j: nat, id: Id, p: string)
    requires IsRun(c, evs, ss) && j < |evs| && Ends(ss[j], evs[j], ss[j + 1], id)
    requires ss[j].legs[id].provider == p && p in c.providers && ss[j + 1].legs[id].phase == Done(Answered)
    ensures p in ss[j].breakers && p in ss[j + 1].breakers
    ensures var b, b' := ss[j].breakers[p], ss[j + 1].breakers[p];
      if b.phase.Open? && ss[j].now - b.openedAt < c.providers[p].breaker.reset then b' == b
      else b'.phase.Closed? && b'.failures == 0
  {
    hide IsRun;
    RunFollows(c, evs, ss, j, p);
  }

  /** A failure by the provider's fault, whichever of the seven kinds, opens a half-open breaker, and a closed one
      once it makes up the threshold. */
  lemma FailureCounts(c: RouterConfig, evs: seq<SysEvent>, ss: seq<Sys>, j: nat, id: Id, p: string, k: ErrorKind)
    requires IsRun(c, evs, ss) && j < |evs| && Ends(ss[j], evs[j], ss[j + 1], id) && Runs(ss[j].legs[id])
    requires ss[j].legs[id].provider == p && p in c.providers && ss[j + 1].legs[id].phase == Done(Failed(k))
    requires ProvidersFault(k)
    ensures p in ss[j].breakers && p in ss[j + 1].breakers
    ensures var b, b', cfg := ss[j].breakers[p], ss[j + 1].breakers[p], c.providers[p].breaker;
      if b.phase.Open? && ss[j].now - b.openedAt < cfg.reset then b' == b
      else if b.phase.Closed? && b.failures + 1 < cfg.threshold then b' == b.(failures := b.failures + 1)
      else b'.phase.Open? && b'.openedAt == ss[j].now
  {
    hide IsRun;
    RunFollows(c, evs, ss, j, p);
  }
}
