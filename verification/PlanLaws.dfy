/** What a plan is, case by case: who is planned, in what order, with which model, and when planning is refused. */
module PlanLaws {
  import opened Common
  import opened Planning

  // ----- lists -------------------------------------------------------------------------------------

  predicate Before(names: seq<Provider>, m: Provider, n: Provider) {
    exists i, j :: 0 <= i < j < |names| && names[i] == m && names[j] == n
  }

  /** Filtering leaves the rest in its order: two that are kept stay as they were. */
  lemma {:induction false} FilterKeepsOrder(names: seq<Provider>, keep: Provider -> bool, m: Provider, n: Provider)
    requires Before(names, m, n) && keep(m) && keep(n)
    ensures Before(Filter(names, keep), m, n)
  {
    var i, j :| 0 <= i < j < |names| && names[i] == m && names[j] == n;
    var head, rest := if keep(names[0]) then [names[0]] else [], Filter(names[1..], keep);
    assert Filter(names, keep) == head + rest;
    assert names[1..][j - 1] == n;
    if i == 0 {
      assert n in names[1..];
      var y :| 0 <= y < |rest| && rest[y] == n;
      assert (head + rest)[0] == m && (head + rest)[1 + y] == n;
    } else {
      assert names[1..][i - 1] == m;
      FilterKeepsOrder(names[1..], keep, m, n);
      AfterPrefix(head, rest, m, n);
    }
  }

  /** Sorting is stable: those with the same key stay in their order. */
  lemma {:induction false} SortStable(names: seq<Provider>, keys: map<Provider, real>, other: real, k: real)
    ensures Filter(SortBy(names, keys, other), n => Key(keys, n, other) == k) == Filter(names, n => Key(keys, n, other) == k)
  {
    if names != [] {
      SortStable(names[1..], keys, other, k);
      InsertStable(names[0], SortBy(names[1..], keys, other), keys, other, k);
    }
  }

  lemma {:induction false} InsertStable(n: Provider, names: seq<Provider>, keys: map<Provider, real>, other: real, k: real)
    ensures var same := (m: Provider) => Key(keys, m, other) == k;
      Filter(Insert(n, names, keys, other), same) == (if same(n) then [n] else []) + Filter(names, same)
  {
    if names == [] || Key(keys, n, other) <= Key(keys, names[0], other) {
      assert ([n] + names)[1..] == names;
    } else {
      InsertStable(n, names[1..], keys, other, k);
      var r := Insert(n, names, keys, other);
      assert r[1..] == Insert(n, names[1..], keys, other);
    }
  }

  /** An estimate of zero counts as none. */
  lemma EstimateOrOther(keys: map<Provider, real>, n: Provider, other: real)
    ensures n !in keys ==> Key(keys, n, other) == other == Key(keys[n := 0.0], n, other)
    ensures n in keys && (keys[n] > 0.0 || keys[n] < 0.0) ==> Key(keys, n, other) == keys[n]
  {
  }

  // ----- under a policy ------------------------------------------------------------------------------

  /** The policy does not deny the provider, allows it if it allows only some, and has it in its chain, or as its
      provider, if it is bound to those. */
  predicate MayServe(p: Policy, n: Provider) {
    && n !in p.deny
    && (p.allow.Some? ==> n in p.allow.value)
    && (p.strategy == Explicit || (p.strategy == Fallback && p.chain != []) ==> p.provider == Some(n) || n in p.chain)
  }

  lemma EligibleMeans(env: Env, p: Policy, n: Provider)
    ensures n in EligibleOf(env, p) <==> n in env.providers && MayServe(p, n) && n in env.admits
  {
  }

  /** There is an order if and only if some registered provider may serve and admits calls; if none may serve,
      that is the reason. */
  lemma OrderOrWhyNot(env: Env, req: Request, p: Policy)
    ensures PolicyOrder(env, req, p).Ok? <==> exists n <- env.providers :: MayServe(p, n) && n in env.admits
    ensures PolicyOrder(env, req, p).Err? ==>
      PolicyOrder(env, req, p).problem == if exists n <- env.providers :: MayServe(p, n) then Unavailable else NotPermitted
  {
    hide Rank, PinnedFirst, AlongChain, ApplyModels, Front;
    var eligible := EligibleOf(env, p);
    if eligible != [] {
      assert eligible[0] in eligible;
    }
  }

  /** All candidates a policy offers, before its models are placed. */
  function Base(env: Env, p: Policy): seq<Provider>
    requires EligibleOf(env, p) != []
  {
    var eligible := EligibleOf(env, p);
    AlongChain(p, eligible, PinnedFirst(p, eligible, Rank(env, p, eligible)))
  }

  lemma RankNames(env: Env, p: Policy, eligible: seq<Provider>, n: Provider)
    requires eligible != [] && n in eligible && (p.strategy.Fallback? ==> n in p.chain)
    ensures n in Rank(env, p, eligible)
  {
    if p.strategy.RoundRobin? {
      var k := env.cursor % |eligible|;
      assert eligible == eligible[..k] + eligible[k..];
    } else if p.strategy.Fastest? {
      WithinNames(env, p, SortBy(eligible, env.latency, 500.0), n);
    } else if !p.strategy.Fallback? {
      WithinNames(env, p, SortBy(eligible, env.score, 0.0), n);
    }
  }

  lemma WithinNames(env: Env, p: Policy, ordered: seq<Provider>, n: Provider)
    requires n in ordered
    ensures n in WithinFirst(env, p, ordered)
  {
  }

  lemma BaseNames(env: Env, p: Policy, n: Provider)
    requires EligibleOf(env, p) != [] && n in EligibleOf(env, p)
    requires if p.chain == [] then !p.strategy.Fallback? else n in p.chain
    ensures n in Base(env, p)
  {
    var eligible := EligibleOf(env, p);
    var ranked := Rank(env, p, eligible);
    hide EligibleOf, Rank;
    if p.strategy.Fallback? || p.chain == [] {
      RankNames(env, p, eligible, n);
      assert n in PinnedFirst(p, eligible, ranked);
    }
  }

  lemma ApplyNames(env: Env, p: Policy, order: seq<Provider>, eligible: seq<Provider>, n: Provider)
    requires n in order
    ensures n in ApplyModels(env, p, order, eligible)
  {
    var first := ModelFirst(env, p, order, eligible);
    assert n in first;
    assert first == [first[0]] + first[1..];
  }

  /** With failover every provider that may serve and admits calls is planned: all of the chain's, if there is one. */
  lemma OrderComplete(env: Env, req: Request, p: Policy, n: Provider)
    requires env.failover && req.model.None? && n in env.providers && MayServe(p, n) && n in env.admits
    requires if p.chain == [] then p.strategy != Fallback else n in p.chain
    ensures PolicyOrder(env, req, p).Ok? && n in PolicyOrder(env, req, p).value
  {
    EligibleMeans(env, p, n);
    BaseNames(env, p, n);
    ApplyNames(env, p, Base(env, p), EligibleOf(env, p), n);
    hide EligibleOf, Rank, AlongChain, PinnedFirst, ApplyModels;
  }

  /** Without failover, or for a model asked for by name, only the first choice is planned. */
  lemma OnlyFirst(env: Env, req: Request, p: Policy)
    requires PolicyOrder(env, req, p).Ok? && (!env.failover || req.model.Some?)
    ensures |PolicyOrder(env, req, p).value| <= 1
  {
    hide Rank, AlongChain, PinnedFirst, ApplyModels, EligibleOf;
  }

  /** The policy's fallback model puts its owner second, if it may serve and admits calls, and is first as well
      or the policy is bound to no order. */
  lemma SecondForFallbackModel(env: Env, req: Request, p: Policy, o: Provider)
    requires PolicyOrder(env, req, p).Ok? && PolicyOrder(env, req, p).value != []
    requires env.failover && req.model.None? && Owner(env, p.fallbackModel) == Some(o)
    requires o in env.providers && MayServe(p, o) && o in env.admits
    requires o == PolicyOrder(env, req, p).value[0] || (p.strategy != Explicit && p.strategy != Fallback)
    ensures var order := PolicyOrder(env, req, p).value; |order| > 1 && order[1] == o
  {
    EligibleMeans(env, p, o);
    hide EligibleOf, Rank, AlongChain, PinnedFirst, ModelFirst, Filter, Owner;
  }

  /** Round robin: the eligible providers in turn, from the cursor on and around. */
  lemma InTurn(env: Env, req: Request, p: Policy, i: nat)
    requires p.strategy.RoundRobin? && p.chain == [] && p.model.None? && p.fallbackModel.None?
    requires env.failover && req.model.None? && i < |EligibleOf(env, p)|
    ensures var eligible := EligibleOf(env, p);
      var k := env.cursor % |eligible|;
      && PolicyOrder(env, req, p).Ok? && |PolicyOrder(env, req, p).value| == |eligible|
      && PolicyOrder(env, req, p).value[i] == eligible[if k + i < |eligible| then k + i else k + i - |eligible|]
  {
    hide EligibleOf;
  }

  /** Two providers of the chain are tried in the chain's order, unless a pin, a ranking or one of the
      policy's models has put one of them in front. */
  lemma ChainOrder(env: Env, req: Request, p: Policy, m: Provider, n: Provider)
    requires env.failover && req.model.None? && Before(p.chain, m, n)
    requires m in EligibleOf(env, p) && n in EligibleOf(env, p)
    requires p.strategy.Fallback? || (m != HeadOf(env, p) && n != HeadOf(env, p))
    requires Owner(env, p.model) != Some(m) && Owner(env, p.model) != Some(n)
    requires Owner(env, p.fallbackModel) != Some(m) && Owner(env, p.fallbackModel) != Some(n)
    ensures PolicyOrder(env, req, p).Ok? && Before(PolicyOrder(env, req, p).value, m, n)
  {
    var eligible := EligibleOf(env, p);
    var base := Base(env, p);
    BaseChainOrder(env, p, m, n);
    hide EligibleOf, Rank, AlongChain, PinnedFirst, Base, HeadOf;
    ApplyKeepsOrder(env, p, base, eligible, m, n);
    hide ApplyModels;
    OrderIsBase(env, req, p);
  }

  lemma OrderIsBase(env: Env, req: Request, p: Policy)
    requires env.failover && req.model.None? && EligibleOf(env, p) != []
    ensures PolicyOrder(env, req, p) == Ok(ApplyModels(env, p, Base(env, p), EligibleOf(env, p)))
  {
    hide Rank, AlongChain, PinnedFirst, ApplyModels, EligibleOf;
  }

  /** Who is ranked or pinned first, before the policy's models are placed. */
  function HeadOf(env: Env, p: Policy): Provider
    requires EligibleOf(env, p) != []
  {
    var eligible := EligibleOf(env, p);
    var ranked := PinnedFirst(p, eligible, Rank(env, p, eligible));
    if ranked == [] then eligible[0] else ranked[0]
  }

  lemma BaseChainOrder(env: Env, p: Policy, m: Provider, n: Provider)
    requires Before(p.chain, m, n) && m in EligibleOf(env, p) && n in EligibleOf(env, p)
    requires p.strategy.Fallback? || (m != HeadOf(env, p) && n != HeadOf(env, p))
    ensures Before(Base(env, p), m, n)
  {
    var eligible := EligibleOf(env, p);
    if p.strategy.Fallback? {
      FilterKeepsOrder(p.chain, x => x in eligible, m, n);
      hide EligibleOf, Filter;
    } else {
      ChainAfterHead(p, eligible, PinnedFirst(p, eligible, Rank(env, p, eligible)), m, n);
      hide EligibleOf, Filter, AlongChain, Rank;
    }
  }

  lemma ChainAfterHead(p: Policy, eligible: seq<Provider>, ranked: seq<Provider>, m: Provider, n: Provider)
    requires !p.strategy.Fallback? && Before(p.chain, m, n) && m in eligible && n in eligible
    requires ranked != [] ==> m != ranked[0] && n != ranked[0]
    ensures Before(AlongChain(p, eligible, ranked), m, n)
  {
    var head := if ranked == [] then [] else ranked[..1];
    FilterKeepsOrder(p.chain, x => x in eligible && x !in head, m, n);
    AfterPrefix(head, Filter(p.chain, x => x in eligible && x !in head), m, n);
  }

  lemma AfterPrefix(a: seq<Provider>, b: seq<Provider>, m: Provider, n: Provider)
    requires Before(b, m, n)
    ensures Before(a + b, m, n)
  {
    var i, j :| 0 <= i < j < |b| && b[i] == m && b[j] == n;
    assert (a + b)[|a| + i] == m && (a + b)[|a| + j] == n;
  }

  lemma ApplyKeepsOrder(env: Env, p: Policy, order: seq<Provider>, eligible: seq<Provider>, m: Provider, n: Provider)
    requires Before(order, m, n)
    requires Owner(env, p.model) != Some(m) && Owner(env, p.model) != Some(n)
    requires Owner(env, p.fallbackModel) != Some(m) && Owner(env, p.fallbackModel) != Some(n)
    ensures Before(ApplyModels(env, p, order, eligible), m, n)
  {
    var first := ModelFirst(env, p, order, eligible);
    var o := Owner(env, p.model);
    if o.Some? {
      FilterKeepsOrder(order, x => x != o.value, m, n);
      AfterPrefix([o.value], Filter(order, x => x != o.value), m, n);
    }
    assert Before(first, m, n);
    hide ModelFirst;
    SecondKeepsOrder(env, p, first, eligible, m, n);
  }

  lemma SecondKeepsOrder(env: Env, p: Policy, order: seq<Provider>, eligible: seq<Provider>, m: Provider, n: Provider)
    requires Before(order, m, n)
    requires Owner(env, p.fallbackModel) != Some(m) && Owner(env, p.fallbackModel) != Some(n)
    ensures Before(FallbackSecond(env, p, order, eligible), m, n)
  {
    var o := Owner(env, p.fallbackModel);
    hide Owner;
    if o.Some? {
      var keep := (x: Provider) => x != o.value;
      var rest := Filter(order[1..], keep);
      var i, j :| 0 <= i < j < |order| && order[i] == m && order[j] == n;
      var r := [order[0], o.value] + rest;
      if i > 0 {
        assert order[1..][i - 1] == m && order[1..][j - 1] == n;
        FilterKeepsOrder(order[1..], keep, m, n);
        AfterPrefix([order[0], o.value], rest, m, n);
      } else {
        assert order[1..][j - 1] == n && keep(n);
        assert n in order[1..] && n in rest;
        var y :| 0 <= y < |rest| && rest[y] == n;
        assert r[0] == m && r[2 + y] == n;
      }
    }
  }

  // ----- which model ---------------------------------------------------------------------------------------

  /** Each choice of a plan: the model asked for by name; else the policy's model in the first place of its order
      and its fallback model in the others, if the provider owns it or nobody does; else the provider's default. */
  lemma ModelsOf(env: Env, req: Request, policy: Option<Policy>, i: nat)
    requires PlanAny(env, req, policy).Ok? && i < |PlanAny(env, req, policy).value|
    ensures var ch := PlanAny(env, req, policy).value[i];
      if req.model.Some? then ch.model == req.model
      else if req.preferred.Some? || policy.None? then ch.model.None?
      else
        var wanted := if i == 0 then policy.value.model else policy.value.fallbackModel;
        var usable := wanted.Some? && (wanted.value !in env.owners || env.owners[wanted.value] == ch.provider);
        ch.model == if usable then wanted else None
  {
    hide PolicyOrder, SortBy, Filter;
  }

  /** So a model with a known owner is asked of its owner only. */
  lemma OwnersOnly(env: Env, req: Request, policy: Option<Policy>, ch: Choice)
    requires Plan(env, req, policy).Ok? && ch in Plan(env, req, policy).value
    ensures ch.model.Some? && ch.model.value in env.owners ==> env.owners[ch.model.value] == ch.provider
  {
    var all := PlanAny(env, req, policy).value;
    PlanWithin(env, req, policy, ch);
    var i :| 0 <= i < |all| && all[i] == ch;
    ModelsOf(env, req, policy, i);
    hide PolicyOrder, SortBy, Filter, Unguided;
  }

  lemma PlanWithin(env: Env, req: Request, policy: Option<Policy>, ch: Choice)
    requires Plan(env, req, policy).Ok? && ch in Plan(env, req, policy).value
    ensures PlanAny(env, req, policy).Ok? && ch in PlanAny(env, req, policy).value
  {
    var all := PlanAny(env, req, policy).value;
    hide PlanAny, Reorder;
    if !req.private && req.preferred.None? && |all| > 1 {
      ReorderStable(env, req.difficulty, all);
      assert ch in multiset(Reorder(env, req.difficulty, all));
    }
  }

  // ----- without a policy ------------------------------------------------------------------------------------

  /** Who can be planned at all. */
  function Healthy(env: Env): (r: seq<Provider>)
    ensures forall n :: n in r <==> n in env.providers && n in env.admits
  {
    Filter(env.providers, n => n in env.admits)
  }

  /** Without pin, policy or known model there is a plan if and only if some registered provider admits calls. The
      first is one of them; with failover the others follow, in the order of registration or by score. */
  lemma UnguidedPlan(env: Env, req: Request)
    requires req.preferred.None? && Owner(env, req.model).None?
    ensures PlanAny(env, req, None) == Err(Unavailable) <==> !exists n <- env.providers :: n in env.admits
    ensures PlanAny(env, req, None).Ok? <==> exists n <- env.providers :: n in env.admits
    ensures PlanAny(env, req, None).Ok? ==>
      var names := Names(PlanAny(env, req, None).value);
      && names != [] && names[0] in env.providers && names[0] in env.admits
      && (if !env.failover || req.model.Some? then |names| == 1
          else
            && (forall n :: n in names[1..] <==> n in env.providers && n in env.admits && n != names[0])
            && (env.byOrder ==> names[1..] == Filter(Healthy(env), n => n != names[0]))
            && (!env.byOrder ==> Rising(names[1..], env.score, 0.0)))
  {
    var healthy := Healthy(env);
    assert PlanAny(env, req, None) == Unguided(env, req);
    if healthy != [] {
      assert healthy[0] in healthy;
      UnguidedNames(env, req);
      hide Unguided, PlanAny, Filter;
    }
  }

  lemma UnguidedNames(env: Env, req: Request)
    requires Healthy(env) != []
    ensures Unguided(env, req).Ok?
    ensures var names := Names(Unguided(env, req).value);
      && names != [] && names[0] in Healthy(env)
      && (if !env.failover || req.model.Some? then |names| == 1
          else
            && (forall n :: n in names[1..] <==> n in Healthy(env) && n != names[0])
            && (env.byOrder ==> names[1..] == Filter(Healthy(env), n => n != names[0]))
            && (!env.byOrder ==> Rising(names[1..], env.score, 0.0)))
  {
    var healthy := Healthy(env);
    var first := healthy[env.pick % |healthy|];
    assert first in healthy;
    var rest := Filter(healthy, n => n != first);
    var after := if env.byOrder || |rest| < 2 then rest else SortBy(rest, env.score, 0.0);
    SortRising(rest, env.score, 0.0);
    FewRise(rest, env.score, 0.0);
    assert Unguided(env, req) == if !env.failover || req.model.Some? then Ok([Choice(first, req.model)])
                                 else Ok(Plain([first] + after));
    hide Filter, SortBy, Unguided, Rising, Healthy;
    assert Names(Plain([first] + after)) == [first] + after && ([first] + after)[1..] == after;
    assert Names([Choice(first, req.model)]) == [first];
  }

  lemma FewRise(names: seq<Provider>, keys: map<Provider, real>, other: real)
    ensures |names| < 2 ==> Rising(names, keys, other)
  {
  }

  /** Any of them may be the one selected. */
  lemma AnyMayBeSelected(env: Env, req: Request, n: Provider) returns (pick: nat)
    requires req.preferred.None? && Owner(env, req.model).None? && n in env.providers && n in env.admits
    ensures PlanAny(env.(pick := pick), req, None).Ok?
    ensures PlanAny(env.(pick := pick), req, None).value[0].provider == n
  {
    var healthy := Healthy(env);
    assert n in healthy;
    hide *;
    pick :| 0 <= pick < |healthy| && healthy[pick] == n;
    SelectedHere(env, req, pick);
  }

  lemma SelectedHere(env: Env, req: Request, pick: nat)
    requires req.preferred.None? && Owner(env, req.model).None? && pick < |Healthy(env)|
    ensures var r := PlanAny(env.(pick := pick), req, None);
      r.Ok? && r.value != [] && r.value[0].provider == Healthy(env)[pick]
  {
    var env' := env.(pick := pick);
    assert Healthy(env') == Healthy(env);
    hide Filter, Healthy, SortBy, Plain;
    SelectedFirst(env', req);
    assert PlanAny(env', req, None) == Unguided(env', req);
    hide Unguided, PlanAny;
    assert pick % |Healthy(env)| == pick;
  }

  lemma SelectedFirst(env: Env, req: Request)
    requires Healthy(env) != []
    ensures Unguided(env, req).Ok? && Unguided(env, req).value != []
    ensures Unguided(env, req).value[0].provider == Healthy(env)[env.pick % |Healthy(env)|]
  {
    hide Filter, SortBy;
  }

  // ----- refusals ----------------------------------------------------------------------------------------------

  /** When there is no plan, and why. */
  lemma WhyNoPlan(env: Env, req: Request, policy: Option<Policy>)
    ensures var owner := if req.model.Some? && req.model.value in env.owners then Some(env.owners[req.model.value]) else None;
      PlanAny(env, req, policy).Err? ==>
      PlanAny(env, req, policy).problem ==
        if req.preferred.Some? then WrongOwner
        else if owner.Some? then
          if owner.value !in env.providers then NotConfigured
          else if policy.Some? && !(owner.value !in policy.value.deny
                                    && (policy.value.allow.Some? ==> owner.value in policy.value.allow.value))
          then NotPermitted
          else Unavailable
        else if policy.Some? && !(exists n <- env.providers :: MayServe(policy.value, n)) then NotPermitted
        else Unavailable
  {
    if policy.Some? {
      OrderOrWhyNot(env, req, policy.value);
    }
    hide PolicyOrder, Filter, SortBy;
  }

  /** And when there is one. */
  lemma PlannedIff(env: Env, req: Request, policy: Option<Policy>)
    ensures var owner := if req.model.Some? && req.model.value in env.owners then Some(env.owners[req.model.value]) else None;
      PlanAny(env, req, policy).Ok? <==>
        if req.preferred.Some? then owner.None? || owner == req.preferred
        else if owner.Some? then
          && owner.value in env.providers && owner.value in env.admits
          && (policy.Some? ==> owner.value !in policy.value.deny
                               && (policy.value.allow.Some? ==> owner.value in policy.value.allow.value))
        else exists n <- env.providers :: n in env.admits && (policy.Some? ==> MayServe(policy.value, n))
  {
    if policy.Some? {
      OrderOrWhyNot(env, req, policy.value);
    } else {
      HealthyIff(env);
    }
    hide PolicyOrder, Filter, SortBy;
  }

  lemma HealthyIff(env: Env)
    ensures Filter(env.providers, n => n in env.admits) != [] <==> exists n <- env.providers :: n in env.admits
  {
    var healthy := Filter(env.providers, n => n in env.admits);
    if healthy != [] {
      assert healthy[0] in healthy;
    }
  }

  /** A private request keeps exactly the local choices, in order, and is refused if there are none. */
  lemma PrivatePlan(env: Env, req: Request, policy: Option<Policy>)
    requires req.private && PlanAny(env, req, policy).Ok?
    ensures var all := PlanAny(env, req, policy).value;
      if exists ch <- all :: ch.provider in env.local
      then Plan(env, req, policy) == Ok(Keep(all, (ch: Choice) => ch.provider in env.local))
      else Plan(env, req, policy) == Err(NoneLocal)
  {
    var all := PlanAny(env, req, policy).value;
    hide PlanAny;
    var kept := Keep(all, (ch: Choice) => ch.provider in env.local);
    if kept != [] {
      assert kept[0] in kept;
    }
  }

  /** Any other plan is the planned order, reordered by difficulty if nothing is pinned. */
  lemma OpenPlan(env: Env, req: Request, policy: Option<Policy>)
    requires !req.private && PlanAny(env, req, policy).Ok?
    ensures var all := PlanAny(env, req, policy).value;
      Plan(env, req, policy) == Ok(if req.preferred.Some? then all else Reorder(env, req.difficulty, all))
  {
    var all := PlanAny(env, req, policy).value;
    hide PlanAny;
    if |all| <= 1 && req.preferred.None? {
      SmallReorder(env, req.difficulty, all);
    }
  }

  lemma SmallReorder(env: Env, d: Difficulty, cs: seq<Choice>)
    requires |cs| <= 1
    ensures Reorder(env, d, cs) == cs
  {
    if |cs| == 1 {
      assert cs[1..] == [] && cs == [cs[0]];
    }
  }
}
