/** Planning safety carried through the routing protocol to the calls that are really made. */
module RoutedPlans {
  import opened Common
  import opened Legs
  import opened Router
  import opened RouterTheorems
  import Breaker
  import Planning

  lemma LoopKeepsCandidates(c: RouterConfig, s: Sys, at: nat, rid: nat)
    requires Known(c, s) && at in s.reqs && s.reqs[at].phase.Looping? && rid in s.reqs
    ensures rid in LoopStep(c, s, at).reqs && LoopStep(c, s, at).reqs[rid].cands == s.reqs[rid].cands
  {
  }

  lemma DrainKeepsCandidates(s: Sys, at: nat, final: Final, rid: nat)
    requires at in s.reqs && rid in s.reqs
    ensures rid in Drain(s, at, final).reqs && Drain(s, at, final).reqs[rid].cands == s.reqs[rid].cands
  {
  }

  lemma HedgeKeepsCandidates(c: RouterConfig, s: Sys, at: nat, rid: nat)
    requires EnabledAt(c, s, HedgeTimer(at)) && rid in s.reqs
    ensures rid in HedgeStep(c, s, at).reqs && HedgeStep(c, s, at).reqs[rid].cands == s.reqs[rid].cands
  {
  }

  lemma StepKeepsCandidates(c: RouterConfig, s: Sys, ev: SysEvent, rid: nat)
    requires EnabledAt(c, s, ev) && rid in s.reqs
    ensures rid in Step(c, s, ev).reqs && Step(c, s, ev).reqs[rid].cands == s.reqs[rid].cands
  {
    hide LoopStep, HedgeStep, Drain, Known, CanResume, CanTick, HedgeTimerDue, EnabledIn, Next;
    match ev
    case Loop(at) => LoopKeepsCandidates(c, s, at, rid);
    case HedgeTimer(at) => HedgeKeepsCandidates(c, s, at, rid);
    case Collect(at, second) =>
      DrainKeepsCandidates(s, at, Returned, rid);
      DrainKeepsCandidates(s, at, Aborted, rid);
    case Abort(at) => DrainKeepsCandidates(s, at, Aborted, rid);
    case _ =>
  }

  /** A request keeps the candidates it arrived with. */
  lemma {:induction false} CandidatesFixed(c: RouterConfig, evs: seq<SysEvent>, ss: seq<Sys>, k: nat, i: nat)
    requires IsRun(c, evs, ss) && k < i < |ss| && evs[k].Arrive?
    ensures evs[k].rid in ss[i].reqs && ss[i].reqs[evs[k].rid].cands == evs[k].cands
    decreases i
  {
    hide EnabledAt, Step, Start;
    if i == k + 1 {
      assert EnabledAt(c, ss[k], evs[k]) && ss[k + 1] == Step(c, ss[k], evs[k]);
      Arrives(c, ss[k], evs[k]);
    } else {
      CandidatesFixed(c, evs, ss, k, i - 1);
      assert EnabledAt(c, ss[i - 1], evs[i - 1]) && ss[i - 1 + 1] == Step(c, ss[i - 1], evs[i - 1]);
      StepKeepsCandidates(c, ss[i - 1], evs[i - 1], evs[k].rid);
    }
  }

  lemma Arrives(c: RouterConfig, s: Sys, ev: SysEvent)
    requires EnabledAt(c, s, ev) && ev.Arrive?
    ensures ev.rid in Step(c, s, ev).reqs && Step(c, s, ev).reqs[ev.rid].cands == ev.cands
  {
  }

  /** Whatever happens in a run, every provider called for a request that was planned and screened on arrival,
      hedge partners and open streams included, is local if the request is private; without a pin it is
      permitted by the policy in force; with one it is the pinned provider. */
  lemma CallsFollowPlan(c: RouterConfig, evs: seq<SysEvent>, ss: seq<Sys>, k: nat, i: nat, id: Id,
                        env: Planning.Env, req: Planning.Request, policy: Option<Planning.Policy>,
                        verdict: Planning.Choice -> Planning.Verdict)
    requires IsRun(c, evs, ss) && k < i < |ss| && id in ss[i].legs && evs[k].Arrive? && evs[k].rid == id.0
    requires Planning.Plan(env, req, policy).Ok?
    requires evs[k].cands == Planning.Names(Planning.Keep(Planning.Plan(env, req, policy).value,
                                                          (ch: Planning.Choice) => verdict(ch) == Planning.Serves))
    ensures var called := ss[i].legs[id].provider;
            && (req.private ==> called in env.local)
            && (req.preferred.None? ==> called in env.providers && called in env.admits)
            && (req.preferred.None? && policy.Some? ==> Planning.Permits(policy.value, called))
            && (req.preferred.Some? ==> called == req.preferred.value)
  {
    hide IsRun;
    OnlyCandidatesCalled(c, evs, ss, i, id);
    CandidatesFixed(c, evs, ss, k, i);
    var plan := Planning.Plan(env, req, policy).value;
    hide Planning.Plan;
    var kept := Planning.Keep(plan, (ch: Planning.Choice) => verdict(ch) == Planning.Serves);
    var called := ss[i].legs[id].provider;
    assert kept[id.1] in kept && kept[id.1].provider == called;
    var j :| 0 <= j < |plan| && plan[j] == kept[id.1];
    assert Planning.Names(plan)[j] == called;
    Planning.PlanSafe(env, req, policy, called);
  }

  /** What planning sees in state `s`: of its providers, those whose breaker would let a call through. */
  ghost predicate Sees(c: RouterConfig, s: Sys, env: Planning.Env) {
    forall p <- env.providers :: p in c.providers && p in s.breakers
      && (p in env.admits <==> Breaker.WouldAllow(c.providers[p].breaker, s.breakers[p], s.now))
  }

  /** Without a pin, whoever is called at any time was admitting calls when the request was planned. */
  lemma CalledWasAdmitting(c: RouterConfig, evs: seq<SysEvent>, ss: seq<Sys>, k: nat, i: nat, id: Id,
                           env: Planning.Env, req: Planning.Request, policy: Option<Planning.Policy>,
                           verdict: Planning.Choice -> Planning.Verdict)
    requires IsRun(c, evs, ss) && k < i < |ss| && id in ss[i].legs && evs[k].Arrive? && evs[k].rid == id.0
    requires Planning.Plan(env, req, policy).Ok? && req.preferred.None? && Sees(c, ss[k], env)
    requires evs[k].cands == Planning.Names(Planning.Keep(Planning.Plan(env, req, policy).value,
                                                          (ch: Planning.Choice) => verdict(ch) == Planning.Serves))
    ensures var called := ss[i].legs[id].provider;
            && called in c.providers && called in ss[k].breakers
            && Breaker.WouldAllow(c.providers[called].breaker, ss[k].breakers[called], ss[k].now)
  {
    hide IsRun, Planning.Plan;
    CallsFollowPlan(c, evs, ss, k, i, id, env, req, policy, verdict);
  }
}
