/** Planning a request: which providers are tried, in what order, with which model. */
module Planning {
  import opened Common

  type Provider = string
  type Model = string

  datatype Strategy = Fallback | Explicit | RoundRobin | Fastest | Cheapest | Balanced

  datatype Policy = Policy(strategy: Strategy, chain: seq<Provider>, provider: Option<Provider>, ceiling: Option<real>,
                           model: Option<Model>, fallbackModel: Option<Model>,
                           allow: Option<set<Provider>>, deny: set<Provider>)

  datatype Difficulty = Easy | Hard | Unset

  datatype Request = Request(model: Option<Model>, preferred: Option<Provider>, private: bool, difficulty: Difficulty)

  /** What planning looks up. `score`, `latency` and `pick` stand for the cost, latency and selection
      estimates; `admits` are the providers whose breaker would let a call through. */
  datatype Env = Env(providers: seq<Provider>, local: set<Provider>, admits: set<Provider>,
                     owners: map<Model, Provider>, failover: bool, byOrder: bool, cursor: nat, pick: nat,
                     score: map<Provider, real>, latency: map<Provider, real>)

  datatype Choice = Choice(provider: Provider, model: Option<Model>)

  datatype Problem = WrongOwner | NotConfigured | NotPermitted | Unavailable | NoneLocal | CannotServe | OverBudget

  datatype Result<T> = Ok(value: T) | Err(problem: Problem)

  // ---- lists of providers -----------------------------------------------------------------------

  function Filter(names: seq<Provider>, keep: Provider -> bool): (r: seq<Provider>)
    ensures forall n :: n in r <==> n in names && keep(n)
    ensures |r| <= |names|
  {
    if names == [] then []
    else
      assert names == [names[0]] + names[1..];
      (if keep(names[0]) then [names[0]] else []) + Filter(names[1..], keep)
  }

  predicate Distinct(names: seq<Provider>) {
    names == [] || (names[0] !in names[1..] && Distinct(names[1..]))
  }

  /** An estimate, or `other` when there is none or it is zero. */
  function Key(keys: map<Provider, real>, n: Provider, other: real): real {
    if n in keys && keys[n] != 0.0 then keys[n] else other
  }

  /** Stable insertion by key: equal keys keep their order. */
  function Insert(n: Provider, names: seq<Provider>, keys: map<Provider, real>, other: real): (r: seq<Provider>)
    ensures forall m :: m in r <==> m in names || m == n
    ensures |r| == |names| + 1
  {
    if names == [] || Key(keys, n, other) <= Key(keys, names[0], other) then [n] + names
    else
      assert names == [names[0]] + names[1..];
      [names[0]] + Insert(n, names[1..], keys, other)
  }

  function SortBy(names: seq<Provider>, keys: map<Provider, real>, other: real): (r: seq<Provider>)
    ensures forall m :: m in r <==> m in names
    ensures |r| == |names|
  {
    if names == [] then []
    else
      assert names == [names[0]] + names[1..];
      Insert(names[0], SortBy(names[1..], keys, other), keys, other)
  }

  // ---- under a policy ---------------------------------------------------------------------------

  /** `Policy.permits`: true when it gives no reason against. */
  predicate Permits(p: Policy, n: Provider) {
    n !in p.deny && (p.allow.Some? ==> n in p.allow.value)
  }

  predicate ChainBound(p: Policy) {
    p.strategy.Explicit? || (p.strategy.Fallback? && p.chain != [])
  }

  predicate InChain(p: Policy, n: Provider) {
    p.provider == Some(n) || n in p.chain
  }

  predicate Eligible(env: Env, p: Policy, n: Provider) {
    Permits(p, n) && (ChainBound(p) ==> InChain(p, n)) && n in env.admits
  }

  function EligibleOf(env: Env, p: Policy): seq<Provider> {
    Filter(env.providers, n => Eligible(env, p, n))
  }

  function WithinFirst(env: Env, p: Policy, ordered: seq<Provider>): seq<Provider> {
    if p.ceiling.None? then ordered else
    var within := Filter(ordered, n => Key(env.latency, n, 0.0) <= p.ceiling.value);
    within + Filter(ordered, n => n !in within)
  }

  function Rank(env: Env, p: Policy, eligible: seq<Provider>): seq<Provider>
    requires eligible != []
  {
    match p.strategy
    case Fallback => Filter(p.chain, n => n in eligible)
    case RoundRobin => var k := env.cursor % |eligible|; eligible[k..] + eligible[..k]
    case Fastest => WithinFirst(env, p, SortBy(eligible, env.latency, 500.0))
    case _ => WithinFirst(env, p, SortBy(eligible, env.score, 0.0))
  }

  function PinnedFirst(p: Policy, eligible: seq<Provider>, ranked: seq<Provider>): seq<Provider> {
    if p.strategy.Explicit? && p.provider.Some? && p.provider.value in eligible
    then [p.provider.value] + Filter(ranked, n => n != p.provider.value)
    else ranked
  }

  /** Failover beyond the first choice follows the chain, if the policy has one. */
  function AlongChain(p: Policy, eligible: seq<Provider>, ranked: seq<Provider>): seq<Provider> {
    if p.chain != [] && !p.strategy.Fallback? then
      var head := if ranked == [] then [] else ranked[..1];
      head + Filter(p.chain, n => n in eligible && n !in head)
    else ranked
  }

  function Owner(env: Env, m: Option<Model>): Option<Provider> {
    if m.Some? && m.value in env.owners then Some(env.owners[m.value]) else None
  }

  predicate Free(p: Policy) {
    !p.strategy.Explicit? && !p.strategy.Fallback?
  }

  function ModelFirst(env: Env, p: Policy, order: seq<Provider>, eligible: seq<Provider>): seq<Provider> {
    var o := Owner(env, p.model);
    if Free(p) && o.Some? && o.value in eligible then [o.value] + Filter(order, n => n != o.value) else order
  }

  function FallbackSecond(env: Env, p: Policy, order: seq<Provider>, eligible: seq<Provider>): seq<Provider> {
    var o := Owner(env, p.fallbackModel);
    if env.failover && order != [] && o.Some? && o.value in eligible && (o.value == order[0] || Free(p))
    then [order[0], o.value] + Filter(order[1..], n => n != o.value)
    else order
  }

  /** `_apply_policy_models`. */
  function ApplyModels(env: Env, p: Policy, order: seq<Provider>, eligible: seq<Provider>): seq<Provider> {
    FallbackSecond(env, p, ModelFirst(env, p, order, eligible), eligible)
  }

  function Front(order: seq<Provider>): seq<Provider> {
    if |order| > 1 then order[..1] else order
  }

  /** `_plan_with_policy`: the providers to try, in order. */
  function PolicyOrder(env: Env, req: Request, p: Policy): Result<seq<Provider>> {
    var eligible := EligibleOf(env, p);
    if eligible == [] then
      Err(if exists n <- env.providers :: Permits(p, n) && (ChainBound(p) ==> InChain(p, n)) then Unavailable
          else NotPermitted)
    else
      var order := AlongChain(p, eligible, PinnedFirst(p, eligible, Rank(env, p, eligible)));
      var placed := if req.model.None? then ApplyModels(env, p, order, eligible) else order;
      Ok(if req.model.Some? || !env.failover then Front(placed) else placed)
  }

  /** `_policy_models`: the policy's model for the first place, its fallback model for the others. */
  function ModelAt(env: Env, p: Policy, n: Provider, first: bool): Option<Model> {
    var wanted := if first then p.model else p.fallbackModel;
    var o := Owner(env, wanted);
    if wanted.Some? && (o.None? || o.value == n) then wanted else None
  }

  function PolicyChoices(env: Env, req: Request, p: Policy, order: seq<Provider>): (r: seq<Choice>)
    ensures |r| == |order| && forall i :: 0 <= i < |r| ==> r[i].provider == order[i]
  {
    seq(|order|, i requires 0 <= i < |order| =>
      Choice(order[i], if req.model.Some? then req.model else ModelAt(env, p, order[i], i == 0)))
  }

  // ---- any request ------------------------------------------------------------------------------

  function Plain(names: seq<Provider>): (r: seq<Choice>)
    ensures |r| == |names| && forall i :: 0 <= i < |r| ==> r[i].provider == names[i]
  {
    seq(|names|, i requires 0 <= i < |names| => Choice(names[i], None))
  }

  /** Without a policy: the selected provider, then the other healthy ones. */
  function Unguided(env: Env, req: Request): Result<seq<Choice>> {
    var healthy := Filter(env.providers, n => n in env.admits);
    if healthy == [] then Err(Unavailable) else
    var first := healthy[env.pick % |healthy|];
    if !env.failover || req.model.Some? then Ok([Choice(first, req.model)]) else
    var rest := Filter(healthy, n => n != first);
    Ok(Plain([first] + if env.byOrder || |rest| < 2 then rest else SortBy(rest, env.score, 0.0)))
  }

  /** `_plan_any`; `policy` is the one in force for the request. */
  function PlanAny(env: Env, req: Request, policy: Option<Policy>): Result<seq<Choice>> {
    var owner := Owner(env, req.model);
    if req.preferred.Some? then
      if owner.Some? && owner != req.preferred then Err(WrongOwner)
      else Ok([Choice(req.preferred.value, req.model)])
    else if owner.Some? then
      if owner.value !in env.providers then Err(NotConfigured)
      else if policy.Some? && !Permits(policy.value, owner.value) then Err(NotPermitted)
      else if owner.value !in env.admits then Err(Unavailable)
      else Ok([Choice(owner.value, req.model)])
    else if policy.Some? then
      match PolicyOrder(env, req, policy.value)
      case Err(e) => Err(e)
      case Ok(order) => Ok(PolicyChoices(env, req, policy.value, order))
    else Unguided(env, req)
  }

  function Keep(cs: seq<Choice>, keep: Choice -> bool): (r: seq<Choice>)
    ensures forall c :: c in r <==> c in cs && keep(c)
    ensures |r| <= |cs|
  {
    if cs == [] then []
    else
      assert cs == [cs[0]] + cs[1..];
      (if keep(cs[0]) then [cs[0]] else []) + Keep(cs[1..], keep)
  }

  predicate Wanted(env: Env, d: Difficulty, c: Choice) {
    c.provider in env.local <==> d.Easy?
  }

  /** `_apply_difficulty`: what is not among the first ones comes after them. */
  function Reorder(env: Env, d: Difficulty, cs: seq<Choice>): seq<Choice> {
    if d.Unset? then cs else
    var first := Keep(cs, (c: Choice) => Wanted(env, d, c));
    first + Keep(cs, (c: Choice) => c !in first)
  }

  /** `_plan`. */
  function Plan(env: Env, req: Request, policy: Option<Policy>): Result<seq<Choice>> {
    match PlanAny(env, req, policy)
    case Err(e) => Err(e)
    case Ok(cs) =>
      if !req.private then
        Ok(if req.preferred.None? && |cs| > 1 then Reorder(env, req.difficulty, cs) else cs)
      else
        var kept := Keep(cs, (c: Choice) => c.provider in env.local);
        if kept == [] then Err(NoneLocal) else Ok(kept)
  }

  function Names(cs: seq<Choice>): (r: seq<Provider>)
    ensures |r| == |cs| && forall i :: 0 <= i < |r| ==> r[i] == cs[i].provider
  {
    seq(|cs|, i requires 0 <= i < |cs| => cs[i].provider)
  }

  /** Whether a candidate can serve the request: its capabilities, then its model budget. */
  datatype Verdict = Serves | Unfit | Over

  function ProblemOf(v: Verdict): Problem {
    if v.Over? then OverBudget else CannotServe
  }

  /** Screening with a hard error: the first candidate that cannot serve is the answer. */
  function FirstProblem(cs: seq<Choice>, verdict: Choice -> Verdict): Option<Problem> {
    if cs == [] then None
    else if verdict(cs[0]) != Serves then Some(ProblemOf(verdict(cs[0])))
    else FirstProblem(cs[1..], verdict)
  }

  lemma {:induction false} FirstProblemIn(cs: seq<Choice>, i: nat, verdict: Choice -> Verdict)
    requires i <= |cs| && forall c <- cs[..i] :: verdict(c) == Serves
    ensures FirstProblem(cs, verdict) == FirstProblem(cs[i..], verdict)
  {
    if i > 0 {
      assert cs[0] in cs[..i] && cs[1..][..i - 1] == cs[..i][1..] && cs[1..][i - 1..] == cs[i..];
      FirstProblemIn(cs[1..], i - 1, verdict);
    }
  }

  lemma KeepCons(c: Choice, cs: seq<Choice>, keep: Choice -> bool)
    ensures Keep([c] + cs, keep) == (if keep(c) then [c] else []) + Keep(cs, keep)
  {
    assert ([c] + cs)[1..] == cs;
  }

  lemma {:induction false} KeepConcat(a: seq<Choice>, b: seq<Choice>, keep: Choice -> bool)
    ensures Keep(a + b, keep) == Keep(a, keep) + Keep(b, keep)
  {
    hide Keep;
    if a == [] {
      KeepNone(keep);
      assert a + b == b && [] + Keep(b, keep) == Keep(b, keep);
    } else {
      KeepConcat(a[1..], b, keep);
      var head := if keep(a[0]) then [a[0]] else [];
      calc {
        Keep(a + b, keep);
        { assert a + b == [a[0]] + (a[1..] + b); }
        Keep([a[0]] + (a[1..] + b), keep);
        { KeepCons(a[0], a[1..] + b, keep); }
        head + Keep(a[1..] + b, keep);
        head + (Keep(a[1..], keep) + Keep(b, keep));
        { Regroup(head, Keep(a[1..], keep), Keep(b, keep)); }
        (head + Keep(a[1..], keep)) + Keep(b, keep);
        { KeepCons(a[0], a[1..], keep); }
        Keep([a[0]] + a[1..], keep) + Keep(b, keep);
        { assert [a[0]] + a[1..] == a; }
        Keep(a, keep) + Keep(b, keep);
      }
    }
  }

  lemma KeepNone(keep: Choice -> bool)
    ensures Keep([], keep) == []
  {
  }

  lemma Regroup(a: seq<Choice>, b: seq<Choice>, c: seq<Choice>)
    ensures a + (b + c) == (a + b) + c
  {
  }

  /** `_screen`. A pinned or single candidate gets a hard error; otherwise those that cannot serve are
      skipped, and a budget problem is reported before any other if none is left. */
  method Screen(cs: seq<Choice>, pinned: bool, verdict: Choice -> Verdict) returns (r: Result<seq<Choice>>)
    ensures (pinned || |cs| == 1) && FirstProblem(cs, verdict).Some? ==> r == Err(FirstProblem(cs, verdict).value)
    ensures r.Ok? ==> r.value == Keep(cs, c => verdict(c) == Serves) && r.value != []
    ensures r.Err? && !pinned && |cs| != 1 ==>
              r.problem == (if exists c <- cs :: verdict(c) == Over then OverBudget else CannotServe)
              && forall c <- cs :: verdict(c) != Serves
  {
    var serves := (c: Choice) => verdict(c) == Serves;
    var keep: seq<Choice> := [];
    var over := false;
    for i := 0 to |cs|
      invariant keep == Keep(cs[..i], serves)
      invariant over <==> exists c <- cs[..i] :: verdict(c) == Over
      invariant pinned || |cs| == 1 ==> forall c <- cs[..i] :: verdict(c) == Serves
    {
      var c := cs[i];
      assert cs[..i + 1] == cs[..i] + [c];
      KeepConcat(cs[..i], [c], serves);
      KeepCons(c, [], serves);
      assert [c] + [] == [c];
      if verdict(c) != Serves {
        if pinned || |cs| == 1 {
          FirstProblemIn(cs, i, verdict);
          assert cs[i..][0] == c;
          return Err(ProblemOf(verdict(c)));
        }
        over := over || verdict(c) == Over;
      } else {
        keep := keep + [c];
      }
    }
    assert cs[..|cs|] == cs;
    if pinned || |cs| == 1 {
      FirstProblemIn(cs, |cs|, verdict);
    }
    if keep == [] {
      return Err(if over then OverBudget else CannotServe);
    }
    return Ok(keep);
  }

  // ---- who may be called ----------------------------------------------------------------------------

  lemma RankIn(env: Env, p: Policy, eligible: seq<Provider>, n: Provider)
    requires eligible != [] && n in Rank(env, p, eligible)
    ensures n in eligible
  {
  }

  lemma ApplyIn(env: Env, p: Policy, order: seq<Provider>, eligible: seq<Provider>, n: Provider)
    requires n in ApplyModels(env, p, order, eligible)
    ensures n in order || n in eligible
  {
    var first := ModelFirst(env, p, order, eligible);
    assert n in first || n in eligible;
  }

  /** Every provider a policy plan names is registered, allowed, in the chain if the policy is bound to
      one, and has a breaker that would admit a call. */
  lemma OrderEligible(env: Env, req: Request, p: Policy, n: Provider)
    requires PolicyOrder(env, req, p).Ok? && n in PolicyOrder(env, req, p).value
    ensures n in env.providers && Eligible(env, p, n)
  {
    hide Rank, ApplyModels;
    var eligible := EligibleOf(env, p);
    var ranked := Rank(env, p, eligible);
    var order := AlongChain(p, eligible, PinnedFirst(p, eligible, ranked));
    if n !in eligible {
      if req.model.None? && n in ApplyModels(env, p, order, eligible) {
        ApplyIn(env, p, order, eligible, n);
      }
      assert n in order;
      assert n in ranked;
      RankIn(env, p, eligible, n);
    }
  }

  // ---- no provider twice, except the first choice ---------------------------------------------------

  /** No provider occurs twice, except `p`, which may occur twice in a row. */
  predicate RepeatsOnly(names: seq<Provider>, p: Provider) {
    names == [] || (names[0] !in names[1..] && RepeatsOnly(names[1..], p))
    || (|names| > 1 && names[0] == names[1] == p && Distinct(names[1..]))
  }

  lemma {:induction false} DistinctRepeats(names: seq<Provider>, p: Provider)
    requires Distinct(names)
    ensures RepeatsOnly(names, p)
  {
    if names != [] {
      DistinctRepeats(names[1..], p);
    }
  }

  lemma {:induction false} FilterDistinct(names: seq<Provider>, keep: Provider -> bool)
    requires Distinct(names)
    ensures Distinct(Filter(names, keep))
  {
    if names != [] {
      FilterDistinct(names[1..], keep);
      var rest := Filter(names[1..], keep);
      assert Filter(names, keep) == if keep(names[0]) then [names[0]] + rest else rest;
    }
  }

  lemma {:induction false} AppendDistinct(a: seq<Provider>, b: seq<Provider>)
    requires Distinct(a) && Distinct(b) && forall n <- a :: n !in b
    ensures Distinct(a + b)
  {
    if a == [] {
      assert a + b == b;
    } else {
      assert a == [a[0]] + a[1..];
      AppendDistinct(a[1..], b);
      assert (a + b)[1..] == a[1..] + b;
    }
  }

  lemma {:induction false} SplitDistinct(a: seq<Provider>, b: seq<Provider>)
    requires Distinct(a + b)
    ensures Distinct(a) && Distinct(b) && forall n <- a :: n !in b
  {
    if a == [] {
      assert a + b == b;
    } else {
      assert a == [a[0]] + a[1..] && (a + b)[1..] == a[1..] + b;
      SplitDistinct(a[1..], b);
    }
  }

  lemma {:induction false} InsertDistinct(n: Provider, names: seq<Provider>, keys: map<Provider, real>, other: real)
    requires Distinct(names) && n !in names
    ensures Distinct(Insert(n, names, keys, other))
  {
    if names != [] && Key(keys, n, other) > Key(keys, names[0], other) {
      assert names == [names[0]] + names[1..];
      InsertDistinct(n, names[1..], keys, other);
      assert Insert(n, names, keys, other)[1..] == Insert(n, names[1..], keys, other);
    } else {
      assert ([n] + names)[1..] == names;
    }
  }

  lemma {:induction false} SortDistinct(names: seq<Provider>, keys: map<Provider, real>, other: real)
    requires Distinct(names)
    ensures Distinct(SortBy(names, keys, other))
  {
    if names != [] {
      SortDistinct(names[1..], keys, other);
      InsertDistinct(names[0], SortBy(names[1..], keys, other), keys, other);
    }
  }

  lemma WithinDistinct(env: Env, p: Policy, ordered: seq<Provider>)
    requires Distinct(ordered)
    ensures Distinct(WithinFirst(env, p, ordered))
  {
    if p.ceiling.Some? {
      var keep := n => Key(env.latency, n, 0.0) <= p.ceiling.value;
      var within := Filter(ordered, keep);
      FilterDistinct(ordered, keep);
      FilterDistinct(ordered, n => n !in within);
      AppendDistinct(within, Filter(ordered, n => n !in within));
    }
  }

  lemma RankDistinct(env: Env, p: Policy, eligible: seq<Provider>)
    requires eligible != [] && Distinct(eligible) && Distinct(p.chain)
    ensures Distinct(Rank(env, p, eligible))
  {
    match p.strategy
    case Fallback => FilterDistinct(p.chain, n => n in eligible);
    case RoundRobin =>
      var k := env.cursor % |eligible|;
      assert eligible == eligible[..k] + eligible[k..];
      SplitDistinct(eligible[..k], eligible[k..]);
      AppendDistinct(eligible[k..], eligible[..k]);
    case Fastest =>
      SortDistinct(eligible, env.latency, 500.0);
      WithinDistinct(env, p, SortBy(eligible, env.latency, 500.0));
    case _ =>
      SortDistinct(eligible, env.score, 0.0);
      WithinDistinct(env, p, SortBy(eligible, env.score, 0.0));
  }

  lemma FirstThen(n: Provider, names: seq<Provider>)
    requires Distinct(names) && n !in names
    ensures Distinct([n] + names)
  {
    assert ([n] + names)[1..] == names;
  }

  lemma OrderDistinct(env: Env, p: Policy, eligible: seq<Provider>)
    requires eligible != [] && Distinct(eligible) && Distinct(p.chain)
    ensures Distinct(AlongChain(p, eligible, PinnedFirst(p, eligible, Rank(env, p, eligible))))
  {
    hide Rank;
    var ranked := Rank(env, p, eligible);
    RankDistinct(env, p, eligible);
    if p.strategy.Explicit? && p.provider.Some? && p.provider.value in eligible {
      var n := p.provider.value;
      FilterDistinct(ranked, m => m != n);
      FirstThen(n, Filter(ranked, m => m != n));
    }
    var order := PinnedFirst(p, eligible, ranked);
    var head := if order == [] then [] else order[..1];
    if order != [] {
      assert order == order[..1] + order[1..];
      SplitDistinct(order[..1], order[1..]);
    }
    FilterDistinct(p.chain, n => n in eligible && n !in head);
    AppendDistinct(head, Filter(p.chain, n => n in eligible && n !in head));
  }

  /** The policy's models may put the first choice there twice, once for each model; nothing else repeats. */
  lemma ApplyRepeats(env: Env, p: Policy, order: seq<Provider>, eligible: seq<Provider>)
    requires Distinct(order)
    ensures var r := ApplyModels(env, p, order, eligible); r != [] ==> RepeatsOnly(r, r[0])
  {
    var o := Owner(env, p.model);
    if o.Some? {
      FilterDistinct(order, n => n != o.value);
      FirstThen(o.value, Filter(order, n => n != o.value));
    }
    var first := ModelFirst(env, p, order, eligible);
    assert Distinct(first);
    if first != [] {
      FallbackRepeats(env, p, first, eligible);
    }
  }

  lemma FallbackRepeats(env: Env, p: Policy, order: seq<Provider>, eligible: seq<Provider>)
    requires Distinct(order) && order != []
    ensures var r := FallbackSecond(env, p, order, eligible); r != [] && RepeatsOnly(r, r[0])
  {
    DistinctRepeats(order, order[0]);
    var o := Owner(env, p.fallbackModel);
    if o.Some? {
      var rest := Filter(order[1..], n => n != o.value);
      FilterDistinct(order[1..], n => n != o.value);
      FirstThen(o.value, rest);
      var r := [order[0], o.value] + rest;
      assert r[1..] == [o.value] + rest;
      if order[0] != o.value {
        DistinctRepeats(r[1..], order[0]);
      }
    }
  }

  /** Policies as the parser accepts them name no provider twice in their chain. */
  predicate Parsed(policy: Option<Policy>) {
    policy.Some? ==> Distinct(policy.value.chain)
  }

  lemma PolicyRepeats(env: Env, req: Request, p: Policy)
    requires Distinct(env.providers) && Distinct(p.chain)
    requires PolicyOrder(env, req, p).Ok?
    ensures var r := PolicyOrder(env, req, p).value; r != [] ==> RepeatsOnly(r, r[0])
  {
    var eligible := EligibleOf(env, p);
    FilterDistinct(env.providers, n => Eligible(env, p, n));
    OrderDistinct(env, p, eligible);
    var order := AlongChain(p, eligible, PinnedFirst(p, eligible, Rank(env, p, eligible)));
    hide Rank, AlongChain, EligibleOf, ApplyModels;
    ApplyRepeats(env, p, order, eligible);
    if order != [] {
      DistinctRepeats(order, order[0]);
    }
  }

  lemma UnguidedDistinct(env: Env, req: Request)
    requires Distinct(env.providers) && Unguided(env, req).Ok?
    ensures Distinct(Names(Unguided(env, req).value))
  {
    var healthy := Filter(env.providers, n => n in env.admits);
    FilterDistinct(env.providers, n => n in env.admits);
    var first := healthy[env.pick % |healthy|];
    var rest := Filter(healthy, n => n != first);
    FilterDistinct(healthy, n => n != first);
    SortDistinct(rest, env.score, 0.0);
    FirstThen(first, rest);
    FirstThen(first, SortBy(rest, env.score, 0.0));
    var order := [first] + if env.byOrder || |rest| < 2 then rest else SortBy(rest, env.score, 0.0);
    assert Names(Plain(order)) == order;
    assert Names([Choice(first, req.model)]) == [first];
  }

  /** Before reordering, only the first choice may occur twice, in the first two places. */
  lemma PlanAnyRepeats(env: Env, req: Request, policy: Option<Policy>)
    requires Distinct(env.providers) && Parsed(policy) && PlanAny(env, req, policy).Ok?
    ensures var names := Names(PlanAny(env, req, policy).value); names != [] ==> RepeatsOnly(names, names[0])
  {
    hide Unguided, PolicyOrder;
    var cs := PlanAny(env, req, policy).value;
    if req.preferred.Some? || Owner(env, req.model).Some? {
      assert Names(cs) == [cs[0].provider];
    } else if policy.Some? {
      PolicyRepeats(env, req, policy.value);
      assert Names(cs) == PolicyOrder(env, req, policy.value).value;
    } else {
      UnguidedDistinct(env, req);
      if Names(cs) != [] {
        DistinctRepeats(Names(cs), Names(cs)[0]);
      }
    }
  }

  // ---- the order a policy asks for ------------------------------------------------------------------

  predicate Rising(names: seq<Provider>, keys: map<Provider, real>, other: real) {
    names == [] || ((forall n <- names[1..] :: Key(keys, names[0], other) <= Key(keys, n, other))
                    && Rising(names[1..], keys, other))
  }

  lemma {:induction false} InsertRising(n: Provider, names: seq<Provider>, keys: map<Provider, real>, other: real)
    requires Rising(names, keys, other)
    ensures Rising(Insert(n, names, keys, other), keys, other)
  {
    hide Key;
    if names != [] {
      assert names == [names[0]] + names[1..];
      if Key(keys, n, other) <= Key(keys, names[0], other) {
        assert ([n] + names)[1..] == names;
      } else {
        InsertRising(n, names[1..], keys, other);
        assert Insert(n, names, keys, other)[1..] == Insert(n, names[1..], keys, other);
      }
    }
  }

  lemma {:induction false} SortRising(names: seq<Provider>, keys: map<Provider, real>, other: real)
    ensures Rising(SortBy(names, keys, other), keys, other)
  {
    if names != [] {
      SortRising(names[1..], keys, other);
      InsertRising(names[0], SortBy(names[1..], keys, other), keys, other);
    }
  }

  lemma {:induction false} FilterRising(names: seq<Provider>, keep: Provider -> bool, keys: map<Provider, real>, other: real)
    requires Rising(names, keys, other)
    ensures Rising(Filter(names, keep), keys, other)
  {
    hide Key;
    if names != [] {
      FilterRising(names[1..], keep, keys, other);
      var rest := Filter(names[1..], keep);
      assert Filter(names, keep) == if keep(names[0]) then [names[0]] + rest else rest;
      assert ([names[0]] + rest)[1..] == rest;
    }
  }

  /** A ranking by cost or latency names every eligible provider, best first; with a latency ceiling those
      over it come after those within it, each kind best first. */
  lemma RankBestFirst(env: Env, p: Policy, eligible: seq<Provider>) returns (within: seq<Provider>, over: seq<Provider>)
    requires eligible != [] && !p.strategy.Fallback? && !p.strategy.RoundRobin?
    ensures Rank(env, p, eligible) == within + over && forall n :: n in within || n in over <==> n in eligible
    ensures p.strategy.Fastest? ==> Rising(within, env.latency, 500.0) && Rising(over, env.latency, 500.0)
    ensures !p.strategy.Fastest? ==> Rising(within, env.score, 0.0) && Rising(over, env.score, 0.0)
    ensures p.ceiling.None? ==> over == []
    ensures p.ceiling.Some? ==>
      && (forall n <- within :: Key(env.latency, n, 0.0) <= p.ceiling.value)
      && (forall n <- over :: Key(env.latency, n, 0.0) > p.ceiling.value)
  {
    if p.strategy.Fastest? {
      SortRising(eligible, env.latency, 500.0);
      hide SortBy;
      within, over := WithinBestFirst(env, p, SortBy(eligible, env.latency, 500.0), env.latency, 500.0);
    } else {
      SortRising(eligible, env.score, 0.0);
      hide SortBy;
      within, over := WithinBestFirst(env, p, SortBy(eligible, env.score, 0.0), env.score, 0.0);
    }
    hide Rising, Key, WithinFirst;
  }

  lemma WithinBestFirst(env: Env, p: Policy, ordered: seq<Provider>, keys: map<Provider, real>, other: real)
    returns (within: seq<Provider>, over: seq<Provider>)
    requires Rising(ordered, keys, other)
    ensures WithinFirst(env, p, ordered) == within + over && Rising(within, keys, other) && Rising(over, keys, other)
    ensures forall n :: n in within || n in over <==> n in ordered
    ensures p.ceiling.None? ==> over == []
    ensures p.ceiling.Some? ==>
      && (forall n <- within :: Key(env.latency, n, 0.0) <= p.ceiling.value)
      && (forall n <- over :: Key(env.latency, n, 0.0) > p.ceiling.value)
  {
    within, over := ordered, [];
    if p.ceiling.Some? {
      within := Filter(ordered, n => Key(env.latency, n, 0.0) <= p.ceiling.value);
      over := Filter(ordered, n => n !in within);
      FilterRising(ordered, n => Key(env.latency, n, 0.0) <= p.ceiling.value, keys, other);
      FilterRising(ordered, n => n !in within, keys, other);
    }
    hide Rising, Filter;
  }

  /** Who comes first: the provider an explicit policy pins, or the owner of the model a free policy asks for,
      whenever it is eligible; under a fallback policy the first eligible one of the chain. */
  lemma PolicyFirst(env: Env, req: Request, p: Policy)
    requires PolicyOrder(env, req, p).Ok? && PolicyOrder(env, req, p).value != []
    ensures var first, owner := PolicyOrder(env, req, p).value[0], Owner(env, p.model);
      && (p.strategy.Explicit? && p.provider.Some? && p.provider.value in EligibleOf(env, p) ==> first == p.provider.value)
      && (Free(p) && req.model.None? && owner.Some? && owner.value in EligibleOf(env, p) ==> first == owner.value)
      && (p.strategy.Fallback? ==> FirstOf(p.chain, n => n in EligibleOf(env, p), first))
  {
    var eligible := EligibleOf(env, p);
    hide EligibleOf, Key, SortBy, WithinFirst, Owner;
    if p.strategy.Fallback? {
      FirstKept(p.chain, n => n in eligible);
    }
    hide Filter;
  }

  /** `first` is the first of `names` that `keep` accepts. */
  predicate FirstOf(names: seq<Provider>, keep: Provider -> bool, first: Provider) {
    names != [] && if keep(names[0]) then first == names[0] else FirstOf(names[1..], keep, first)
  }

  lemma {:induction false} FirstKept(names: seq<Provider>, keep: Provider -> bool)
    ensures Filter(names, keep) != [] ==> FirstOf(names, keep, Filter(names, keep)[0])
  {
    if names != [] && !keep(names[0]) {
      FirstKept(names[1..], keep);
      assert Filter(names, keep) == Filter(names[1..], keep);
    }
  }

  /** Without failover a request has one candidate at most. */
  lemma OneWithoutFailover(env: Env, req: Request, policy: Option<Policy>)
    requires !env.failover && Plan(env, req, policy).Ok?
    ensures |Plan(env, req, policy).value| <= 1
  {
    hide Rank, AlongChain, PinnedFirst, ApplyModels;
  }

  // ---- reordering by difficulty -------------------------------------------------------------------

  lemma {:induction false} KeepSame(cs: seq<Choice>, f: Choice -> bool, g: Choice -> bool)
    requires forall c <- cs :: f(c) == g(c)
    ensures Keep(cs, f) == Keep(cs, g)
  {
    if cs != [] {
      assert cs == [cs[0]] + cs[1..];
      KeepSame(cs[1..], f, g);
    }
  }

  lemma {:induction false} KeepAll(cs: seq<Choice>, keep: Choice -> bool)
    ensures (forall c <- cs :: keep(c)) ==> Keep(cs, keep) == cs
    ensures (forall c <- cs :: !keep(c)) ==> Keep(cs, keep) == []
  {
    if cs != [] {
      assert cs == [cs[0]] + cs[1..];
      KeepAll(cs[1..], keep);
    }
  }

  lemma {:induction false} KeepSplits(cs: seq<Choice>, keep: Choice -> bool)
    ensures multiset(Keep(cs, keep)) + multiset(Keep(cs, (c: Choice) => !keep(c))) == multiset(cs)
  {
    if cs != [] {
      assert cs == [cs[0]] + cs[1..];
      KeepSplits(cs[1..], keep);
    }
  }

  /** The wanted kind first, then the others, each in their old order. */
  lemma ReorderParts(env: Env, d: Difficulty, cs: seq<Choice>)
    requires !d.Unset?
    ensures Reorder(env, d, cs) ==
            Keep(cs, (c: Choice) => Wanted(env, d, c)) + Keep(cs, (c: Choice) => !Wanted(env, d, c))
  {
    var first := Keep(cs, (c: Choice) => Wanted(env, d, c));
    KeepSame(cs, (c: Choice) => c !in first, (c: Choice) => !Wanted(env, d, c));
  }

  /** Nothing is dropped or added, and neither kind changes its own order. */
  lemma ReorderStable(env: Env, d: Difficulty, cs: seq<Choice>)
    ensures multiset(Reorder(env, d, cs)) == multiset(cs)
    ensures forall keep: Choice -> bool :: keep == ((c: Choice) => c.provider in env.local) ==>
              Keep(Reorder(env, d, cs), keep) == Keep(cs, keep)
    ensures forall keep: Choice -> bool :: keep == ((c: Choice) => c.provider !in env.local) ==>
              Keep(Reorder(env, d, cs), keep) == Keep(cs, keep)
  {
    if !d.Unset? {
      var wanted, other := (c: Choice) => Wanted(env, d, c), (c: Choice) => !Wanted(env, d, c);
      ReorderParts(env, d, cs);
      KeepSplits(cs, wanted);
      KeepSame(cs, other, (c: Choice) => !wanted(c));
      KindKept(env, d, cs, (c: Choice) => c.provider in env.local);
      KindKept(env, d, cs, (c: Choice) => c.provider !in env.local);
    }
  }

  lemma KindKept(env: Env, d: Difficulty, cs: seq<Choice>, kind: Choice -> bool)
    requires !d.Unset?
    requires (forall c :: kind(c) == Wanted(env, d, c)) || (forall c :: kind(c) == !Wanted(env, d, c))
    ensures Keep(Reorder(env, d, cs), kind) == Keep(cs, kind)
  {
    var wanted, other := (c: Choice) => Wanted(env, d, c), (c: Choice) => !Wanted(env, d, c);
    ReorderParts(env, d, cs);
    var a, b := Keep(cs, wanted), Keep(cs, other);
    KeepConcat(a, b, kind);
    KeepAll(a, kind);
    KeepAll(b, kind);
    KeepSame(cs, kind, if forall c :: kind(c) == Wanted(env, d, c) then wanted else other);
  }

  // ---- repeats in the final plan ------------------------------------------------------------------

  lemma {:induction false} FilterRepeats(names: seq<Provider>, p: Provider, keep: Provider -> bool)
    requires RepeatsOnly(names, p)
    ensures RepeatsOnly(Filter(names, keep), p)
  {
    if names != [] {
      var n, rest := names[0], Filter(names[1..], keep);
      assert Filter(names, keep) == if keep(n) then [n] + rest else rest;
      if n !in names[1..] && RepeatsOnly(names[1..], p) {
        FilterRepeats(names[1..], p, keep);
        assert ([n] + rest)[1..] == rest;
      } else {
        FilterDistinct(names[1..], keep);
        DistinctRepeats(rest, p);
        var rest2 := Filter(names[2..], keep);
        assert names[1..][1..] == names[2..];
        assert rest == if keep(p) then [p] + rest2 else rest2;
        assert ([n] + rest)[1..] == rest;
      }
    }
  }

  lemma {:induction false} RepeatsWithout(names: seq<Provider>, p: Provider)
    requires RepeatsOnly(names, p) && p !in names
    ensures Distinct(names)
  {
    if names != [] {
      RepeatsWithout(names[1..], p);
    }
  }

  lemma {:induction false} AppendRepeats(a: seq<Provider>, b: seq<Provider>, p: Provider)
    requires RepeatsOnly(a, p) && RepeatsOnly(b, p) && forall n <- a :: n !in b
    ensures RepeatsOnly(a + b, p)
  {
    if a == [] {
      assert a + b == b;
    } else {
      assert a == [a[0]] + a[1..] && (a + b)[1..] == a[1..] + b;
      if a[0] !in a[1..] && RepeatsOnly(a[1..], p) {
        AppendRepeats(a[1..], b, p);
      } else {
        RepeatsWithout(b, p);
        AppendDistinct(a[1..], b);
      }
    }
  }

  lemma {:induction false} NamesKeep(cs: seq<Choice>, keep: Choice -> bool, name: Provider -> bool)
    requires forall c <- cs :: keep(c) == name(c.provider)
    ensures Names(Keep(cs, keep)) == Filter(Names(cs), name)
  {
    if cs != [] {
      assert cs == [cs[0]] + cs[1..];
      NamesKeep(cs[1..], keep, name);
      assert Names(cs)[1..] == Names(cs[1..]);
      var rest := Keep(cs[1..], keep);
      assert Names([cs[0]] + rest) == [cs[0].provider] + Names(rest);
    }
  }

  function OfKind(env: Env, local: bool): Provider -> bool {
    n => n in env.local <==> local
  }

  lemma ReorderNames(env: Env, d: Difficulty, cs: seq<Choice>)
    requires !d.Unset?
    ensures Names(Reorder(env, d, cs))
         == Filter(Names(cs), OfKind(env, d.Easy?)) + Filter(Names(cs), OfKind(env, !d.Easy?))
  {
    ReorderParts(env, d, cs);
    NamesKeep(cs, (c: Choice) => Wanted(env, d, c), OfKind(env, d.Easy?));
    NamesKeep(cs, (c: Choice) => !Wanted(env, d, c), OfKind(env, !d.Easy?));
    NamesConcat(Keep(cs, (c: Choice) => Wanted(env, d, c)), Keep(cs, (c: Choice) => !Wanted(env, d, c)));
  }

  lemma NamesConcat(a: seq<Choice>, b: seq<Choice>)
    ensures Names(a + b) == Names(a) + Names(b)
  {
  }

  /** In the final plan, too, only the first choice of the planned order may repeat, twice in a row. */
  lemma PlanRepeats(env: Env, req: Request, policy: Option<Policy>)
    requires Distinct(env.providers) && Parsed(policy) && Plan(env, req, policy).Ok?
    requires PlanAny(env, req, policy).value != []
    ensures RepeatsOnly(Names(Plan(env, req, policy).value), PlanAny(env, req, policy).value[0].provider)
  {
    var cs := PlanAny(env, req, policy).value;
    var p, names := cs[0].provider, Names(cs);
    PlanAnyRepeats(env, req, policy);
    hide PlanAny;
    if req.private {
      NamesKeep(cs, (c: Choice) => c.provider in env.local, n => n in env.local);
      FilterRepeats(names, p, n => n in env.local);
    } else if req.preferred.None? && |cs| > 1 && !req.difficulty.Unset? {
      var wanted, other := OfKind(env, req.difficulty.Easy?), OfKind(env, !req.difficulty.Easy?);
      ReorderNames(env, req.difficulty, cs);
      FilterRepeats(names, p, wanted);
      FilterRepeats(names, p, other);
      AppendRepeats(Filter(names, wanted), Filter(names, other), p);
    }
  }

  /** The planned first choice stays first after reordering exactly if it is of the wanted kind or none is. */
  lemma FirstStaysIff(env: Env, d: Difficulty, cs: seq<Choice>)
    requires !d.Unset? && cs != []
    requires RepeatsOnly(Names(cs), cs[0].provider)
    ensures Reorder(env, d, cs) != []
    ensures Reorder(env, d, cs)[0].provider == cs[0].provider
            <==> Wanted(env, d, cs[0]) || forall c <- cs :: !Wanted(env, d, c)
  {
    var first := Keep(cs, (c: Choice) => Wanted(env, d, c));
    var rest := Keep(cs, (c: Choice) => !Wanted(env, d, c));
    ReorderParts(env, d, cs);
    KeepCons(cs[0], cs[1..], (c: Choice) => Wanted(env, d, c));
    KeepCons(cs[0], cs[1..], (c: Choice) => !Wanted(env, d, c));
    assert cs == [cs[0]] + cs[1..];
    if first != [] {
      assert first[0] in first;
    } else {
      forall c <- cs ensures !Wanted(env, d, c) { assert c !in first; }
      assert rest[0] == cs[0];
    }
  }

  lemma FilterCons(n: Provider, names: seq<Provider>, keep: Provider -> bool)
    ensures Filter([n] + names, keep) == (if keep(n) then [n] else []) + Filter(names, keep)
  {
    assert ([n] + names)[1..] == names;
  }

  lemma FilterTwo(a: Provider, b: Provider, keep: Provider -> bool)
    ensures Filter([a, b], keep) == (if keep(a) then [a] else []) + (if keep(b) then [b] else [])
  {
    FilterCons(a, [b], keep);
    FilterCons(b, [], keep);
    assert [a, b] == [a] + [b] && [b] + [] == [b];
    assert Filter([], keep) == [];
  }

  const CLOUD_FIRST := Env(["cloud", "local"], {"local"}, {"cloud", "local"}, map["big" := "cloud", "small" := "cloud"],
                           true, true, 0, 0, map[], map[])

  const CLOUD_MODELS := Policy(Balanced, [], None, None, Some("big"), Some("small"), None, {})

  lemma SortEven(a: Provider, b: Provider, keys: map<Provider, real>)
    requires keys == map[]
    ensures SortBy([a, b], keys, 0.0) == [a, b]
  {
    assert [a, b][1..] == [b] && [b][1..] == [] && SortBy([], keys, 0.0) == [];
    assert SortBy([b], keys, 0.0) == [b];
  }

  lemma CloudModels(order: seq<Provider>)
    requires order == ["cloud", "local"]
    ensures ApplyModels(CLOUD_FIRST, CLOUD_MODELS, order, order) == ["cloud", "cloud", "local"]
  {
    hide Filter;
    assert order[1..] == ["local"];
    FilterTwo("cloud", "local", n => n != "cloud");
    assert ModelFirst(CLOUD_FIRST, CLOUD_MODELS, order, order) == order;
    FilterCons("local", [], n => n != "cloud");
    assert Filter([], n => n != "cloud") == [] && ["local"] + [] == ["local"];
  }

  lemma CloudOrder(req: Request)
    requires req.model.None?
    ensures PolicyOrder(CLOUD_FIRST, req, CLOUD_MODELS) == Ok(["cloud", "cloud", "local"])
  {
    hide Filter, SortBy, ApplyModels;
    var env, p, both := CLOUD_FIRST, CLOUD_MODELS, ["cloud", "local"];
    FilterTwo("cloud", "local", n => Eligible(env, p, n));
    assert EligibleOf(env, p) == both;
    SortEven("cloud", "local", env.score);
    assert Rank(env, p, both) == both;
    CloudModels(both);
  }

  /** So the repeated provider need not come first: a cloud server whose two models a policy asks for,
      and an easy request. */
  lemma RepeatNeedNotBeFirst()
    ensures var req := Request(None, None, false, Easy);
            var plan := Plan(CLOUD_FIRST, req, Some(CLOUD_MODELS));
            plan.Ok? && Names(plan.value) == ["local", "cloud", "cloud"]
  {
    hide PolicyOrder, Filter, Reorder, PolicyChoices;
    var req := Request(None, None, false, Easy);
    CloudOrder(req);
    var cs := PlanAny(CLOUD_FIRST, req, Some(CLOUD_MODELS)).value;
    var names := ["cloud"] + ["cloud", "local"];
    assert Names(cs) == names;
    ReorderNames(CLOUD_FIRST, Easy, cs);
    EasyNames(OfKind(CLOUD_FIRST, true));
    EasyNames(OfKind(CLOUD_FIRST, false));
  }

  lemma EasyNames(keep: Provider -> bool)
    ensures Filter(["cloud"] + ["cloud", "local"], keep) ==
            if keep("cloud") then if keep("local") then ["cloud", "cloud", "local"] else ["cloud", "cloud"]
            else if keep("local") then ["local"] else []
  {
    hide Filter;
    FilterCons("cloud", ["cloud", "local"], keep);
    FilterTwo("cloud", "local", keep);
  }

  // ---- when the plan's own first choice is the one that may repeat ---------------------------------------

  lemma {:induction false} DistinctAt(names: seq<Provider>, i: nat, j: nat)
    requires Distinct(names) && i < j < |names|
    ensures names[i] != names[j]
  {
    if i == 0 {
      assert names[1..][j - 1] == names[j];
    } else {
      DistinctAt(names[1..], i - 1, j - 1);
    }
  }

  /** A list in which another provider than `q` occurs twice does not repeat `q` only. */
  lemma {:induction false} TwiceAnother(names: seq<Provider>, q: Provider, i: nat, j: nat)
    requires i < j < |names| && names[i] == names[j] != q
    ensures !RepeatsOnly(names, q)
  {
    assert names[1..][j - 1] == names[j];
    if i > 0 {
      TwiceAnother(names[1..], q, i - 1, j - 1);
      if names[0] == names[1] == q && Distinct(names[1..]) {
        DistinctAt(names[1..], i - 1, j - 1);
      }
    }
  }

  /** Whether `_plan` reorders the planned candidates. */
  predicate Reorders(req: Request, planned: seq<Choice>) {
    !req.private && req.preferred.None? && |planned| > 1 && !req.difficulty.Unset?
  }

  /** A list that repeats its first name, filtered by a kind the first name is not of, and put behind others. */
  lemma RepeatMovesBack(a: seq<Provider>, names: seq<Provider>, keep: Provider -> bool)
    requires a != [] && |names| > 1 && names[0] == names[1] && keep(names[0]) && a[0] != names[0]
    ensures !RepeatsOnly(a + Filter(names, keep), a[0])
  {
    var p := names[0];
    assert names == [p] + ([p] + names[2..]);
    FilterCons(p, [p] + names[2..], keep);
    FilterCons(p, names[2..], keep);
    var all := a + Filter(names, keep);
    assert all[|a|] == all[|a| + 1] == p && all[0] == a[0];
    TwiceAnother(all, a[0], |a|, |a| + 1);
  }

  lemma ReorderedDistinct(env: Env, d: Difficulty, cs: seq<Choice>)
    requires !d.Unset? && Distinct(Names(cs))
    ensures Distinct(Names(Reorder(env, d, cs)))
  {
    ReorderNames(env, d, cs);
    FilterDistinct(Names(cs), OfKind(env, d.Easy?));
    FilterDistinct(Names(cs), OfKind(env, !d.Easy?));
    AppendDistinct(Filter(Names(cs), OfKind(env, d.Easy?)), Filter(Names(cs), OfKind(env, !d.Easy?)));
  }

  lemma RepeatsOrDistinct(names: seq<Provider>)
    requires names != [] && RepeatsOnly(names, names[0])
    ensures Distinct(names) || (|names| > 1 && names[0] == names[1])
  {
    if names[0] !in names[1..] && RepeatsOnly(names[1..], names[0]) {
      RepeatsWithout(names[1..], names[0]);
    }
  }

  lemma ReorderRepeatsIff(env: Env, d: Difficulty, cs: seq<Choice>)
    requires !d.Unset? && cs != [] && RepeatsOnly(Names(cs), cs[0].provider)
    ensures Reorder(env, d, cs) != []
    ensures RepeatsOnly(Names(Reorder(env, d, cs)), Reorder(env, d, cs)[0].provider)
            <==> Distinct(Names(cs)) || Wanted(env, d, cs[0]) || forall c <- cs :: !Wanted(env, d, c)
  {
    FirstStaysIff(env, d, cs);
    var names, after := Names(cs), Names(Reorder(env, d, cs));
    var first, rest := Filter(names, OfKind(env, d.Easy?)), Filter(names, OfKind(env, !d.Easy?));
    ReorderNames(env, d, cs);
    hide Reorder;
    if Distinct(names) {
      ReorderedDistinct(env, d, cs);
      DistinctRepeats(after, after[0]);
    } else if Wanted(env, d, cs[0]) || forall c <- cs :: !Wanted(env, d, c) {
      FilterRepeats(names, names[0], OfKind(env, d.Easy?));
      FilterRepeats(names, names[0], OfKind(env, !d.Easy?));
      AppendRepeats(first, rest, names[0]);
    } else {
      RepeatsOrDistinct(names);
      WantedIn(env, d, cs);
      RepeatMovesBack(first, names, OfKind(env, !d.Easy?));
    }
  }

  lemma WantedIn(env: Env, d: Difficulty, cs: seq<Choice>)
    requires !d.Unset? && exists c <- cs :: Wanted(env, d, c)
    ensures var first := Filter(Names(cs), OfKind(env, d.Easy?)); first != [] && OfKind(env, d.Easy?)(first[0])
  {
    var c :| c in cs && Wanted(env, d, c);
    var i :| 0 <= i < |cs| && cs[i] == c;
    var first := Filter(Names(cs), OfKind(env, d.Easy?));
    assert Names(cs)[i] in first;
    assert first[0] in first;
  }

  lemma PrivateRepeats(names: seq<Provider>, keep: Provider -> bool)
    requires names != [] && RepeatsOnly(names, names[0]) && Filter(names, keep) != []
    ensures RepeatsOnly(Filter(names, keep), Filter(names, keep)[0])
  {
    var p, kept := names[0], Filter(names, keep);
    FilterRepeats(names, p, keep);
    if keep(p) {
      assert names == [p] + names[1..];
      FilterCons(p, names[1..], keep);
    } else {
      RepeatsWithout(kept, p);
      DistinctRepeats(kept, kept[0]);
    }
  }

  /** Only the plan's own first choice may repeat if and only if the plan is not reordered by difficulty, no
      provider repeats at all, the planned first choice is of the wanted kind, or no candidate is. */
  lemma FirstRepeatsIff(env: Env, req: Request, policy: Option<Policy>)
    requires Distinct(env.providers) && Parsed(policy)
    requires Plan(env, req, policy).Ok? && Plan(env, req, policy).value != []
    ensures var plan, planned := Plan(env, req, policy).value, PlanAny(env, req, policy).value;
      && planned != []
      && (RepeatsOnly(Names(plan), plan[0].provider) <==>
          || !Reorders(req, planned) || Distinct(Names(planned)) || Wanted(env, req.difficulty, planned[0])
          || forall c <- planned :: !Wanted(env, req.difficulty, c))
  {
    var plan, planned := Plan(env, req, policy).value, PlanAny(env, req, policy).value;
    PlanAnyRepeats(env, req, policy);
    hide PlanAny;
    if req.private {
      NamesKeep(planned, (c: Choice) => c.provider in env.local, n => n in env.local);
      PrivateRepeats(Names(planned), n => n in env.local);
    } else if Reorders(req, planned) {
      ReorderRepeatsIff(env, req.difficulty, planned);
    }
    hide Reorder, Keep;
  }

  // ---- planning safety --------------------------------------------------------------------------------

  /** A private request is planned onto local providers only; without a pin, every provider is registered,
      would be admitted, and is permitted by the policy in force. */
  lemma PlanSafe(env: Env, req: Request, policy: Option<Policy>, n: Provider)
    requires Plan(env, req, policy).Ok? && n in Names(Plan(env, req, policy).value)
    ensures req.private ==> n in env.local
    ensures req.preferred == None ==> n in env.providers && n in env.admits
    ensures req.preferred == None && policy.Some? ==> Permits(policy.value, n)
    ensures req.preferred.Some? ==> n == req.preferred.value
  {
    var cs := Plan(env, req, policy).value;
    var all := PlanAny(env, req, policy).value;
    var i :| 0 <= i < |cs| && cs[i].provider == n;
    assert cs[i] in cs;
    if !req.private && req.preferred.None? && |all| > 1 {
      ReorderStable(env, req.difficulty, all);
      assert cs[i] in multiset(cs);
    }
    assert cs[i] in all;
    PlanAnySafe(env, req, policy, cs[i]);
  }

  lemma PlanAnySafe(env: Env, req: Request, policy: Option<Policy>, c: Choice)
    requires PlanAny(env, req, policy).Ok? && c in PlanAny(env, req, policy).value
    ensures req.preferred == None ==> c.provider in env.providers && c.provider in env.admits
    ensures req.preferred == None && policy.Some? ==> Permits(policy.value, c.provider)
    ensures req.preferred.Some? ==> c.provider == req.preferred.value
  {
    hide PolicyOrder;
    if req.preferred.None? && Owner(env, req.model).None? && policy.Some? {
      OrderEligible(env, req, policy.value, c.provider);
    }
  }
}
