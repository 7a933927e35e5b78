/** Routing policies: parsing them, and runtime edits layered over a file that may be reloaded. */
module PolicyStore {
  import opened Common
  import Planning

  type Name = string

  /** A number field as read: left out, not a usable number, or a number. */
  datatype Field = Absent | Bad | Number(value: real)

  datatype Weights = NoWeights | BadWeights | Pair(cost: Field, latency: Field)

  /** One policy's mapping after YAML, fields with their types checked; `strategy` is `None` when unknown. */
  datatype Body = Body(unknownKeys: bool, strategy: Option<Planning.Strategy>, weights: Weights, ceiling: Field,
                       hedge: Field, chain: seq<string>, allow: Option<set<string>>, deny: set<string>,
                       provider: Option<string>, model: Option<string>, fallbackModel: Option<string>)

  datatype Policy = Policy(plan: Planning.Policy, costWeight: real, latencyWeight: real, hedge: Option<real>)

  datatype Problem = UnknownKey | UnknownStrategy | WrongWeights | WrongCeiling | WrongHedge | DuplicateInChain
                   | UnknownProvider | AllowedAndDenied | ExplicitNeedsProvider | FallbackNeedsChain | NothingThere

  function When(wrong: bool, p: Problem): seq<Problem> { if wrong then [p] else [] }

  function Elements(chain: seq<string>): set<string> { set p | p in chain }

  predicate KnownAll(names: set<string>, known: Option<set<string>>) {
    known.Some? ==> names <= known.value
  }

  predicate NotPositive(f: Field) {
    f == Bad || (f.Number? && f.value <= 0.0)
  }

  function Weight(f: Field): real { if f.Number? then f.value else 0.0 }

  predicate BadPair(w: Weights) {
    w.BadWeights? ||
    (w.Pair? && (w.cost.Bad? || w.latency.Bad? || Weight(w.cost) < 0.0 || Weight(w.latency) < 0.0
                 || Weight(w.cost) + Weight(w.latency) == 0.0))
  }

  /** The two weights, scaled to add up to one. */
  function Scaled(w: Weights, default: (real, real)): (real, real) {
    if BadPair(w) || !w.Pair? then default
    else var sum := Weight(w.cost) + Weight(w.latency); (Weight(w.cost) / sum, Weight(w.latency) / sum)
  }

  function Value(f: Field): Option<real> {
    if f.Number? && f.value > 0.0 then Some(f.value) else None
  }

  const DEFAULT_WEIGHTS := (0.7, 0.3)

  /** Everything wrong with one policy; `known` are the registered providers, if they are to be checked. */
  function ProblemsOf(b: Body, known: Option<set<string>>): seq<Problem> {
    When(b.unknownKeys, UnknownKey) +
    if b.strategy.None? then [UnknownStrategy] else
      When(BadPair(b.weights), WrongWeights) + When(NotPositive(b.ceiling), WrongCeiling)
      + When(NotPositive(b.hedge), WrongHedge)
      + When(|Elements(b.chain)| != |b.chain|, DuplicateInChain)
      + When(!KnownAll(Elements(b.chain), known), UnknownProvider)
      + When(b.allow.Some? && !KnownAll(b.allow.value, known), UnknownProvider)
      + When(!KnownAll(b.deny, known), UnknownProvider)
      + When(b.allow.Some? && b.allow.value * b.deny != {}, AllowedAndDenied)
      + When(b.provider.Some? && !KnownAll({b.provider.value}, known), UnknownProvider)
      + When(b.strategy == Some(Planning.Explicit) && b.provider.None?, ExplicitNeedsProvider)
      + When(b.strategy == Some(Planning.Fallback) && b.chain == [], FallbackNeedsChain)
  }

  function PolicyOf(b: Body): Policy
    requires b.strategy.Some?
  {
    var (cost, latency) := Scaled(b.weights, DEFAULT_WEIGHTS);
    Policy(Planning.Policy(b.strategy.value, b.chain, b.provider, Value(b.ceiling), b.model,
                           b.fallbackModel, b.allow, b.deny),
           cost, latency, Value(b.hedge))
  }

  datatype Parsed = Policies(all: map<Name, Policy>) | Invalid(problems: seq<Problem>)

  /** The problems of a document: those of its policies, one after the other. */
  function AllProblems(doc: seq<(Name, Body)>, known: Option<set<string>>): seq<Problem> {
    if doc == [] then [] else AllProblems(doc[..|doc| - 1], known) + ProblemsOf(doc[|doc| - 1].1, known)
  }

  function AllPolicies(doc: seq<(Name, Body)>): map<Name, Policy> {
    if doc == [] then map[] else
    var (name, b) := doc[|doc| - 1];
    var before := AllPolicies(doc[..|doc| - 1]);
    if b.strategy.Some? then before[name := PolicyOf(b)] else before
  }

  function Parse(doc: seq<(Name, Body)>, known: Option<set<string>>): Parsed {
    if doc == [] then Invalid([NothingThere])
    else if AllProblems(doc, known) != [] then Invalid(AllProblems(doc, known))
    else Policies(AllPolicies(doc))
  }

  method ParsePolicies(doc: seq<(Name, Body)>, known: Option<set<string>>) returns (r: Parsed)
    ensures r == Parse(doc, known)
  {
    if doc == [] {
      return Invalid([NothingThere]);
    }
    var problems: seq<Problem>, out: map<Name, Policy> := [], map[];
    for i := 0 to |doc|
      invariant problems == AllProblems(doc[..i], known) && out == AllPolicies(doc[..i])
    {
      var (name, b) := doc[i];
      assert doc[..i + 1][..i] == doc[..i];
      problems := problems + ProblemsOf(b, known);
      if b.strategy.Some? {
        out := out[name := PolicyOf(b)];
      }
    }
    assert doc[..|doc|] == doc;
    if problems != [] {
      return Invalid(problems);
    }
    return Policies(out);
  }

  // ---- one policy at a time -----------------------------------------------------------------------

  /** What an accepted policy promises the planner. */
  ghost predicate WellFormed(p: Policy) {
    && Planning.Distinct(p.plan.chain)
    && (p.plan.allow.Some? ==> p.plan.allow.value * p.plan.deny == {})
    && (p.plan.strategy.Explicit? ==> p.plan.provider.Some?) && (p.plan.strategy.Fallback? ==> p.plan.chain != [])
    && p.costWeight >= 0.0 && p.latencyWeight >= 0.0 && p.costWeight + p.latencyWeight == 1.0
    && (p.plan.ceiling.Some? ==> p.plan.ceiling.value > 0.0) && (p.hedge.Some? ==> p.hedge.value > 0.0)
  }

  lemma {:induction false} ElementsSize(chain: seq<string>)
    ensures |Elements(chain)| <= |chain| && (|Elements(chain)| == |chain| <==> Planning.Distinct(chain))
  {
    if chain == [] {
      assert Elements(chain) == {};
    } else {
      ElementsSize(chain[1..]);
      assert chain == [chain[0]] + chain[1..];
      assert Elements(chain) == Elements(chain[1..]) + {chain[0]};
    }
  }

  lemma Shares(c: real, l: real)
    requires c >= 0.0 && l >= 0.0 && c + l > 0.0
    ensures c / (c + l) >= 0.0 && l / (c + l) >= 0.0 && c / (c + l) + l / (c + l) == 1.0
  {
    var sum := c + l;
    var x, y := c / sum, l / sum;
    assert x * sum == c && y * sum == l;
    Distributes(x, y, sum);
    if x + y != 1.0 {
      Distributes(x + y, -1.0, sum);
    }
  }

  lemma Distributes(x: real, y: real, z: real)
    ensures (x + y) * z == x * z + y * z
  {
  }

  lemma ScaledAddsUp(w: Weights)
    ensures var (cost, latency) := Scaled(w, DEFAULT_WEIGHTS); cost >= 0.0 && latency >= 0.0 && cost + latency == 1.0
  {
    if w.Pair? && !BadPair(w) {
      Shares(Weight(w.cost), Weight(w.latency));
    }
  }

  /** A policy has no problems exactly when every field is right. */
  lemma NoProblemIff(b: Body, known: Option<set<string>>)
    ensures ProblemsOf(b, known) == [] <==>
      && !b.unknownKeys && b.strategy.Some? && !BadPair(b.weights) && !NotPositive(b.ceiling) && !NotPositive(b.hedge)
      && |Elements(b.chain)| == |b.chain|
      && KnownAll(Elements(b.chain), known) && (b.allow.Some? ==> KnownAll(b.allow.value, known))
      && KnownAll(b.deny, known) && (b.allow.Some? ==> b.allow.value * b.deny == {})
      && (b.provider.Some? ==> KnownAll({b.provider.value}, known))
      && (b.strategy == Some(Planning.Explicit) ==> b.provider.Some?)
      && (b.strategy == Some(Planning.Fallback) ==> b.chain != [])
  {
    hide BadPair, NotPositive, Elements, KnownAll;
  }

  lemma AcceptedWellFormed(b: Body, known: Option<set<string>>)
    requires ProblemsOf(b, known) == []
    ensures b.strategy.Some? && WellFormed(PolicyOf(b))
  {
    NoProblemIff(b, known);
    ElementsSize(b.chain);
    ScaledAddsUp(b.weights);
    hide ProblemsOf, Scaled, BadPair, Elements, KnownAll, Planning.Distinct;
  }

  /** An accepted policy says what its fields said: every list and name as it is, weights in the proportion given, or
      70 to 30 if none is, and limits that were left out not at all. */
  lemma AcceptedMeans(b: Body, known: Option<set<string>>)
    requires ProblemsOf(b, known) == []
    ensures b.strategy.Some?
    ensures var p := PolicyOf(b);
      && p.plan.strategy == b.strategy.value && p.plan.chain == b.chain && p.plan.provider == b.provider
      && p.plan.model == b.model && p.plan.fallbackModel == b.fallbackModel
      && p.plan.allow == b.allow && p.plan.deny == b.deny
      && p.plan.ceiling == (if b.ceiling.Number? then Some(b.ceiling.value) else None)
      && p.hedge == (if b.hedge.Number? then Some(b.hedge.value) else None)
      && (b.weights.NoWeights? ==> p.costWeight == 0.7 && p.latencyWeight == 0.3)
      && (b.weights.Pair? ==> p.costWeight * Weight(b.weights.latency) == p.latencyWeight * Weight(b.weights.cost))
  {
    NoProblemIff(b, known);
    if b.weights.Pair? {
      Proportion(Weight(b.weights.cost), Weight(b.weights.latency));
    }
    hide ProblemsOf, BadPair, Elements, KnownAll;
  }

  lemma Proportion(c: real, l: real)
    requires c >= 0.0 && l >= 0.0 && c + l > 0.0
    ensures (c / (c + l)) * l == (l / (c + l)) * c
  {
    var sum := c + l;
    var x, y := c / sum, l / sum;
    assert x * sum == c && y * sum == l;
    calc {
      x * l;
      x * (y * sum);
      (x * sum) * y;
      c * y;
      y * c;
    }
  }

  /** The policy names a provider that is not registered. */
  ghost predicate NamesUnknown(b: Body, known: Option<set<string>>) {
    known.Some? &&
    (exists n: string :: n !in known.value
       && (n in b.chain || (b.allow.Some? && n in b.allow.value) || n in b.deny || b.provider == Some(n)))
  }

  /** What is reported: without a known strategy that alone, unknown keys aside; else everything that is wrong. */
  lemma ReportedIff(b: Body, known: Option<set<string>>, p: Problem)
    ensures p in ProblemsOf(b, known) <==>
      match p
      case UnknownKey => b.unknownKeys
      case UnknownStrategy => b.strategy.None?
      case WrongWeights => b.strategy.Some? && BadPair(b.weights)
      case WrongCeiling => b.strategy.Some? && (b.ceiling.Bad? || (b.ceiling.Number? && b.ceiling.value <= 0.0))
      case WrongHedge => b.strategy.Some? && (b.hedge.Bad? || (b.hedge.Number? && b.hedge.value <= 0.0))
      case DuplicateInChain => b.strategy.Some? && !Planning.Distinct(b.chain)
      case UnknownProvider => b.strategy.Some? && NamesUnknown(b, known)
      case AllowedAndDenied => b.strategy.Some? && b.allow.Some? && (exists n: string :: n in b.allow.value && n in b.deny)
      case ExplicitNeedsProvider => b.strategy == Some(Planning.Explicit) && b.provider.None?
      case FallbackNeedsChain => b.strategy == Some(Planning.Fallback) && b.chain == []
      case NothingThere => false
  {
    ElementsSize(b.chain);
    Unknown(b, known);
    ReportedParts(b, known, p);
    if b.allow.Some? {
      Meets(b.allow.value, b.deny);
    }
    hide ProblemsOf, BadPair, KnownAll, NamesUnknown, Elements, Planning.Distinct;
  }

  lemma Meets(x: set<string>, y: set<string>)
    ensures x * y != {} <==> exists n: string :: n in x && n in y
  {
    if n: string :| n in x && n in y {
      assert n in x * y;
    } else {
      assert x * y == {};
    }
  }

  lemma WhenHas(wrong: bool, q: Problem, p: Problem)
    ensures p in When(wrong, q) <==> wrong && p == q
  {
  }

  lemma ReportedParts(b: Body, known: Option<set<string>>, p: Problem)
    ensures p in ProblemsOf(b, known) <==>
      || (b.unknownKeys && p == UnknownKey)
      || (b.strategy.None? && p == UnknownStrategy)
      || (b.strategy.Some? &&
          (|| (BadPair(b.weights) && p == WrongWeights) || (NotPositive(b.ceiling) && p == WrongCeiling)
           || (NotPositive(b.hedge) && p == WrongHedge) || (|Elements(b.chain)| != |b.chain| && p == DuplicateInChain)
           || ((!KnownAll(Elements(b.chain), known) || (b.allow.Some? && !KnownAll(b.allow.value, known))
                || !KnownAll(b.deny, known) || (b.provider.Some? && !KnownAll({b.provider.value}, known)))
               && p == UnknownProvider)
           || (b.allow.Some? && b.allow.value * b.deny != {} && p == AllowedAndDenied)
           || (b.strategy == Some(Planning.Explicit) && b.provider.None? && p == ExplicitNeedsProvider)
           || (b.strategy == Some(Planning.Fallback) && b.chain == [] && p == FallbackNeedsChain)))
  {
    hide BadPair, NotPositive, Elements, KnownAll, When;
    WhenHas(b.unknownKeys, UnknownKey, p);
    if b.strategy.Some? {
      WhenHas(BadPair(b.weights), WrongWeights, p);
      WhenHas(NotPositive(b.ceiling), WrongCeiling, p);
      WhenHas(NotPositive(b.hedge), WrongHedge, p);
      WhenHas(|Elements(b.chain)| != |b.chain|, DuplicateInChain, p);
      WhenHas(!KnownAll(Elements(b.chain), known), UnknownProvider, p);
      WhenHas(b.allow.Some? && !KnownAll(b.allow.value, known), UnknownProvider, p);
      WhenHas(!KnownAll(b.deny, known), UnknownProvider, p);
      WhenHas(b.allow.Some? && b.allow.value * b.deny != {}, AllowedAndDenied, p);
      WhenHas(b.provider.Some? && !KnownAll({b.provider.value}, known), UnknownProvider, p);
      WhenHas(b.strategy == Some(Planning.Explicit) && b.provider.None?, ExplicitNeedsProvider, p);
      WhenHas(b.strategy == Some(Planning.Fallback) && b.chain == [], FallbackNeedsChain, p);
    }
  }

  lemma Unknown(b: Body, known: Option<set<string>>)
    ensures (!KnownAll(Elements(b.chain), known) || (b.allow.Some? && !KnownAll(b.allow.value, known))
             || !KnownAll(b.deny, known) || (b.provider.Some? && !KnownAll({b.provider.value}, known)))
            <==> NamesUnknown(b, known)
  {
    if known.Some? {
      forall n: string ensures n in Elements(b.chain) <==> n in b.chain {}
      forall s: set<string> ensures !(s <= known.value) <==> exists n: string :: n in s && n !in known.value {}
      assert b.provider.Some? ==> forall n: string :: n in {b.provider.value} <==> b.provider == Some(n);
    }
  }

  /** A policy accepted against the registered providers is accepted without them too. */
  lemma AcceptedAnyway(b: Body, known: Option<set<string>>)
    requires ProblemsOf(b, known) == []
    ensures ProblemsOf(b, None) == []
  {
    NoProblemIff(b, known);
    NoProblemIff(b, None);
    hide ProblemsOf, BadPair, Elements, NotPositive;
  }

  predicate NamesDistinct(doc: seq<(Name, Body)>) {
    forall i, j :: 0 <= i < j < |doc| ==> doc[i].0 != doc[j].0
  }

  lemma {:induction false} NoProblems(doc: seq<(Name, Body)>, known: Option<set<string>>)
    ensures AllProblems(doc, known) == [] <==> forall i :: 0 <= i < |doc| ==> ProblemsOf(doc[i].1, known) == []
  {
    hide ProblemsOf;
    if doc != [] {
      var init, last := doc[..|doc| - 1], doc[|doc| - 1];
      NoProblems(init, known);
      hide AllProblems;
      assert AllProblems(doc, known) == AllProblems(init, known) + ProblemsOf(last.1, known) by { AllProblemsLast(doc, known); }
      assert forall i :: 0 <= i < |init| ==> doc[i] == init[i];
    }
  }

  lemma AllProblemsLast(doc: seq<(Name, Body)>, known: Option<set<string>>)
    requires doc != []
    ensures AllProblems(doc, known) == AllProblems(doc[..|doc| - 1], known) + ProblemsOf(doc[|doc| - 1].1, known)
  {
  }

  lemma {:induction false} PolicyAt(doc: seq<(Name, Body)>, i: nat)
    requires i < |doc| && NamesDistinct(doc) && doc[i].1.strategy.Some?
    ensures doc[i].0 in AllPolicies(doc) && AllPolicies(doc)[doc[i].0] == PolicyOf(doc[i].1)
  {
    hide PolicyOf;
    if i < |doc| - 1 {
      PolicyAt(doc[..|doc| - 1], i);
    }
  }

  lemma {:induction false} PolicyNames(doc: seq<(Name, Body)>, n: Name)
    ensures n in AllPolicies(doc) ==> exists i :: 0 <= i < |doc| && doc[i].0 == n && doc[i].1.strategy.Some?
  {
    hide PolicyOf;
    if doc != [] {
      PolicyNames(doc[..|doc| - 1], n);
    }
  }

  /** Parsing a document of several policies is parsing each of them alone. */
  lemma ParsedAlone(doc: seq<(Name, Body)>, known: Option<set<string>>)
    requires NamesDistinct(doc) && doc != []
    ensures Parse(doc, known).Policies? <==> forall i :: 0 <= i < |doc| ==> Parse([doc[i]], known).Policies?
    ensures Parse(doc, known).Policies? ==>
      && (forall i :: 0 <= i < |doc| ==>
            (doc[i].0 in Parse(doc, known).all
             && Parse([doc[i]], known) == Policies(map[doc[i].0 := Parse(doc, known).all[doc[i].0]])))
      && forall n <- Parse(doc, known).all :: exists i :: 0 <= i < |doc| && doc[i].0 == n
  {
    NoProblems(doc, known);
    forall i | 0 <= i < |doc|
      ensures Parse([doc[i]], known).Policies? <==> ProblemsOf(doc[i].1, known) == []
      ensures ProblemsOf(doc[i].1, known) == [] ==>
                doc[i].0 in AllPolicies(doc) && Parse([doc[i]], known) == Policies(map[doc[i].0 := AllPolicies(doc)[doc[i].0]])
    {
      OneAlone(doc[i], known);
      if ProblemsOf(doc[i].1, known) == [] {
        AcceptedWellFormed(doc[i].1, known);
        PolicyAt(doc, i);
      }
    }
    hide ProblemsOf, PolicyOf;
    forall n | n in AllPolicies(doc) ensures exists i :: 0 <= i < |doc| && doc[i].0 == n {
      PolicyNames(doc, n);
    }
  }

  lemma OneAlone(entry: (Name, Body), known: Option<set<string>>)
    ensures var r := Parse([entry], known);
      if ProblemsOf(entry.1, known) == [] then entry.1.strategy.Some? && r == Policies(map[entry.0 := PolicyOf(entry.1)])
      else r == Invalid(ProblemsOf(entry.1, known))
  {
    StrategyKnown(entry.1, known);
    hide PolicyOf, ProblemsOf;
    assert [entry][..0] == [] && AllProblems([], known) == [] && AllPolicies([]) == map[];
    assert AllProblems([entry], known) == [] + ProblemsOf(entry.1, known) == ProblemsOf(entry.1, known);
    assert entry.1.strategy.Some? ==> AllPolicies([entry]) == map[entry.0 := PolicyOf(entry.1)];
  }

  lemma StrategyKnown(b: Body, known: Option<set<string>>)
    ensures ProblemsOf(b, known) == [] ==> b.strategy.Some?
  {
    NoProblemIff(b, known);
    hide ProblemsOf;
  }

  // ---- edits over the file ----------------------------------------------------------------------------

  function Get(edits: seq<(Name, Body)>, n: Name): Option<Body> {
    if edits == [] then None else if edits[0].0 == n then Some(edits[0].1) else Get(edits[1..], n)
  }

  /** A dictionary assignment: the place of a name that is there already is kept. */
  function Put(edits: seq<(Name, Body)>, n: Name, b: Body): seq<(Name, Body)> {
    if edits == [] then [(n, b)]
    else if edits[0].0 == n then [(n, b)] + edits[1..]
    else [edits[0]] + Put(edits[1..], n, b)
  }

  function Pop(edits: seq<(Name, Body)>, n: Name): seq<(Name, Body)> {
    if edits == [] then []
    else if edits[0].0 == n then edits[1..]
    else [edits[0]] + Pop(edits[1..], n)
  }

  predicate Has(edits: seq<(Name, Body)>, n: Name) {
    Get(edits, n).Some?
  }

  predicate Apart(edits: seq<(Name, Body)>) {
    edits == [] || (!Has(edits[1..], edits[0].0) && Apart(edits[1..]))
  }

  lemma {:induction false} PutGet(edits: seq<(Name, Body)>, n: Name, b: Body, k: Name)
    requires Apart(edits)
    ensures Get(Put(edits, n, b), k) == if k == n then Some(b) else Get(edits, k)
    ensures Apart(Put(edits, n, b))
  {
    if edits == [] {
      assert Put(edits, n, b)[1..] == [];
    } else {
      PutGet(edits[1..], n, b, k);
      PutGet(edits[1..], n, b, edits[0].0);
      assert Put(edits, n, b)[1..] == if edits[0].0 == n then edits[1..] else Put(edits[1..], n, b);
    }
  }

  lemma {:induction false} PopGet(edits: seq<(Name, Body)>, n: Name, k: Name)
    requires Apart(edits)
    ensures Get(Pop(edits, n), k) == if k == n then None else Get(edits, k)
    ensures Apart(Pop(edits, n))
  {
    if edits != [] {
      PopGet(edits[1..], n, k);
      PopGet(edits[1..], n, edits[0].0);
      assert edits[0].0 != n ==> Pop(edits, n)[1..] == Pop(edits[1..], n);
    }
  }

  lemma {:induction false} GetAt(edits: seq<(Name, Body)>, n: Name)
    ensures Apart(edits) ==> NamesDistinct(edits)
    ensures Has(edits, n) <==> exists i :: 0 <= i < |edits| && edits[i].0 == n
    ensures Has(edits, n) ==> exists i :: 0 <= i < |edits| && edits[i] == (n, Get(edits, n).value)
  {
    if edits != [] {
      GetAt(edits[1..], n);
      GetAt(edits[1..], edits[0].0);
      assert edits == [edits[0]] + edits[1..];
      forall i, j | 0 <= i < j < |edits| && Apart(edits) ensures edits[i].0 != edits[j].0 {
        assert edits[j] == edits[1..][j - 1];
        assert i > 0 ==> edits[i] == edits[1..][i - 1];
      }
      if Has(edits[1..], n) {
        var i :| 0 <= i < |edits[1..]| && edits[1..][i] == (n, Get(edits[1..], n).value);
        assert edits[i + 1] == edits[1..][i];
      }
      if i :| 0 < i < |edits| && edits[i].0 == n {
        assert edits[1..][i - 1].0 == n;
      }
    }
  }

  // ---- the store ------------------------------------------------------------------------------------------

  /** What a reload finds: no file, a file as old as the one last read, unreadable YAML, or a document. */
  datatype File = Missing | Unreadable | Document(doc: seq<(Name, Body)>)

  datatype Event =
    | Reload(mtime: int, file: File)
    | Set(name: Name, named: bool, body: Body)
    | Remove(name: Name)

  datatype Store = Store(fileSet: map<Name, Policy>, mtime: Option<int>, edits: seq<(Name, Body)>, removed: set<Name>,
                         effective: map<Name, Policy>)

  function ReadFile(file: File, known: Option<set<string>>): Parsed {
    match file
    case Document(doc) => Parse(doc, known)
    case _ => Invalid([])
  }

  /** `_merge`. */
  function Merged(fileSet: map<Name, Policy>, edits: seq<(Name, Body)>, removed: set<Name>): map<Name, Policy> {
    var shown := fileSet - removed;
    var edited := Parse(edits, None);
    if edits == [] || edited.Invalid? then shown else shown + edited.all
  }

  /** `named`: the name has the form the edit interface accepts. */
  predicate Accepted(known: Option<set<string>>, name: Name, named: bool, body: Body) {
    named && Parse([(name, body)], known).Policies?
  }

  function Step(known: Option<set<string>>, s: Store, e: Event): Store {
    match e
    case Reload(mtime, file) =>
      if file.Missing? || s.mtime == Some(mtime) then s else
      (match ReadFile(file, known)
       case Invalid(_) => s.(mtime := Some(mtime))
       case Policies(all) => s.(fileSet := all, mtime := Some(mtime), effective := Merged(all, s.edits, s.removed)))
    case Set(name, named, body) =>
      if !Accepted(known, name, named, body) then s else
      var edits := Put(s.edits, name, body);
      s.(edits := edits, removed := s.removed - {name}, effective := Merged(s.fileSet, edits, s.removed - {name}))
    case Remove(name) =>
      var edits := Pop(s.edits, name);
      var removed := if name in s.fileSet then s.removed + {name} else s.removed;
      s.(edits := edits, removed := removed, effective := Merged(s.fileSet, edits, removed))
  }

  const EMPTY := Store(map[], None, [], {}, map[])

  function After(known: Option<set<string>>, h: seq<Event>): Store {
    if h == [] then EMPTY else Step(known, After(known, h[..|h| - 1]), h[|h| - 1])
  }

  // ---- what the history says ---------------------------------------------------------------------------------

  /** What a reload makes of the policies in force before it and the modification time last looked at. */
  function Reloaded(known: Option<set<string>>, policies: map<Name, Policy>, seen: Option<int>, mtime: int, file: File)
    : (map<Name, Policy>, Option<int>)
  {
    if file.Missing? || seen == Some(mtime) then (policies, seen)
    else match ReadFile(file, known)
         case Policies(all) => (all, Some(mtime))
         case Invalid(_) => (policies, Some(mtime))
  }

  /** The policies of the last valid file, and the modification time last looked at. */
  function FileOf(known: Option<set<string>>, h: seq<Event>): (map<Name, Policy>, Option<int>) {
    if h == [] then (map[], None) else
    var before := FileOf(known, h[..|h| - 1]);
    match h[|h| - 1]
    case Reload(mtime, file) => Reloaded(known, before.0, before.1, mtime, file)
    case _ => before
  }

  /** The name's runtime edit: the last accepted one, if it was not removed since. */
  function EditOf(known: Option<set<string>>, h: seq<Event>, n: Name): Option<Body> {
    if h == [] then None else
    var before := EditOf(known, h[..|h| - 1], n);
    match h[|h| - 1]
    case Set(name, named, body) => if name == n && Accepted(known, name, named, body) then Some(body) else before
    case Remove(name) => if name == n then None else before
    case _ => before
  }

  /** The name was removed while the file had it, and not set since. */
  function Hidden(known: Option<set<string>>, h: seq<Event>, n: Name): bool {
    if h == [] then false else
    var before := h[..|h| - 1];
    match h[|h| - 1]
    case Set(name, named, body) => if name == n && Accepted(known, name, named, body) then false else Hidden(known, before, n)
    case Remove(name) => Hidden(known, before, n) || (name == n && n in FileOf(known, before).0)
    case _ => Hidden(known, before, n)
  }

  function Lookup(m: map<Name, Policy>, n: Name): Option<Policy> {
    if n in m then Some(m[n]) else None
  }

  /** The policy in force: the runtime edit if there is one, else the file's unless it was removed. */
  function InForce(known: Option<set<string>>, h: seq<Event>, n: Name): Option<Policy> {
    match EditOf(known, h, n)
    case Some(b) => if b.strategy.Some? then Some(PolicyOf(b)) else None
    case None => if Hidden(known, h, n) then None else Lookup(FileOf(known, h).0, n)
  }

  ghost predicate EditsFine(known: Option<set<string>>, edits: seq<(Name, Body)>) {
    Apart(edits) && forall n: Name :: Has(edits, n) ==> ProblemsOf(Get(edits, n).value, known) == []
  }

  /** Merging cannot fail, and shows each edit over the file. */
  lemma MergedAt(known: Option<set<string>>, fileSet: map<Name, Policy>, edits: seq<(Name, Body)>, removed: set<Name>, n: Name)
    requires EditsFine(known, edits)
    ensures Lookup(Merged(fileSet, edits, removed), n) ==
      match Get(edits, n)
      case Some(b) => if b.strategy.Some? then Some(PolicyOf(b)) else None
      case None => if n in removed then None else Lookup(fileSet, n)
  {
    hide ProblemsOf, PolicyOf;
    GetAt(edits, n);
    forall i | 0 <= i < |edits| ensures ProblemsOf(edits[i].1, None) == [] {
      GetAt(edits, edits[i].0);
      assert Get(edits, edits[i].0) == Some(edits[i].1);
      AcceptedAnyway(edits[i].1, known);
    }
    NoProblems(edits, None);
    if Has(edits, n) {
      var i :| 0 <= i < |edits| && edits[i] == (n, Get(edits, n).value);
      AcceptedWellFormed(edits[i].1, known);
      PolicyAt(edits, i);
    } else {
      PolicyNames(edits, n);
    }
  }

  // ---- every run -----------------------------------------------------------------------------------------------

  /** What the store holds under a name is what the history says. */
  ghost predicate Agrees(known: Option<set<string>>, h: seq<Event>, s: Store, n: Name) {
    && Get(s.edits, n) == EditOf(known, h, n) && (n in s.removed <==> Hidden(known, h, n))
    && (n in s.removed ==> !Has(s.edits, n)) && (Has(s.edits, n) ==> ProblemsOf(Get(s.edits, n).value, known) == [])
  }

  ghost predicate Inv(known: Option<set<string>>, h: seq<Event>, s: Store) {
    && (s.fileSet, s.mtime) == FileOf(known, h) && Apart(s.edits)
    && (forall n: Name :: Agrees(known, h, s, n))
    && s.effective == Merged(s.fileSet, s.edits, s.removed)
  }

  lemma SetAgrees(known: Option<set<string>>, h: seq<Event>, s: Store, name: Name, named: bool, body: Body, n: Name)
    requires Apart(s.edits) && Agrees(known, h, s, n) && Accepted(known, name, named, body)
    ensures Agrees(known, h + [Set(name, named, body)], Step(known, s, Set(name, named, body)), n)
  {
    hide ProblemsOf, Merged, Parse, Put, Get, Apart, FileOf;
    var h' := h + [Set(name, named, body)];
    assert h'[..|h'| - 1] == h && h'[|h'| - 1] == Set(name, named, body);
    OneAlone((name, body), known);
    PutGet(s.edits, name, body, n);
  }

  lemma RemoveAgrees(known: Option<set<string>>, h: seq<Event>, s: Store, name: Name, n: Name)
    requires Apart(s.edits) && Agrees(known, h, s, n) && s.fileSet == FileOf(known, h).0
    ensures Agrees(known, h + [Remove(name)], Step(known, s, Remove(name)), n)
  {
    hide ProblemsOf, Merged, Parse, Pop, Get, Apart, FileOf, Accepted;
    RemoveNoted(known, h, name, n);
    PopGet(s.edits, name, n);
    hide EditOf, Hidden;
  }

  lemma RemoveNoted(known: Option<set<string>>, h: seq<Event>, name: Name, n: Name)
    ensures EditOf(known, h + [Remove(name)], n) == if name == n then None else EditOf(known, h, n)
    ensures Hidden(known, h + [Remove(name)], n) <==> Hidden(known, h, n) || (name == n && n in FileOf(known, h).0)
  {
    hide FileOf, Accepted;
    var h' := h + [Remove(name)];
    assert h'[..|h'| - 1] == h && h'[|h'| - 1] == Remove(name);
  }

  /** Reloads and rejected edits leave edits and removals alone, in the store and in the history. */
  lemma LeftAlone(known: Option<set<string>>, h: seq<Event>, s: Store, e: Event, n: Name)
    requires e.Reload? || (e.Set? && !Accepted(known, e.name, e.named, e.body))
    ensures Step(known, s, e).edits == s.edits && Step(known, s, e).removed == s.removed
    ensures EditOf(known, h + [e], n) == EditOf(known, h, n) && Hidden(known, h + [e], n) == Hidden(known, h, n)
  {
    var h' := h + [e];
    assert h'[..|h'| - 1] == h && h'[|h'| - 1] == e;
    hide Merged, ReadFile, Put, Pop, FileOf, Accepted;
  }

  lemma StepAgrees(known: Option<set<string>>, h: seq<Event>, s: Store, e: Event, n: Name)
    requires Apart(s.edits) && Agrees(known, h, s, n) && s.fileSet == FileOf(known, h).0
    ensures Agrees(known, h + [e], Step(known, s, e), n)
  {
    hide Step, EditOf, Hidden, FileOf, ProblemsOf, Get, Accepted;
    if e.Set? && Accepted(known, e.name, e.named, e.body) {
      SetAgrees(known, h, s, e.name, e.named, e.body, n);
    } else if e.Remove? {
      RemoveAgrees(known, h, s, e.name, n);
    } else {
      LeftAlone(known, h, s, e, n);
    }
  }

  lemma ReloadStep(known: Option<set<string>>, s: Store, mtime: int, file: File)
    requires s.effective == Merged(s.fileSet, s.edits, s.removed)
    ensures var s' := Step(known, s, Reload(mtime, file));
            && (s'.fileSet, s'.mtime) == Reloaded(known, s.fileSet, s.mtime, mtime, file) && s'.edits == s.edits
            && s'.effective == Merged(s'.fileSet, s'.edits, s'.removed)
  {
    hide Merged, ReadFile;
  }

  lemma FileReloaded(known: Option<set<string>>, h: seq<Event>, mtime: int, file: File)
    ensures FileOf(known, h + [Reload(mtime, file)]) == Reloaded(known, FileOf(known, h).0, FileOf(known, h).1, mtime, file)
  {
    hide Reloaded;
    var h' := h + [Reload(mtime, file)];
    assert h'[..|h'| - 1] == h && h'[|h'| - 1] == Reload(mtime, file);
  }

  lemma FileStays(known: Option<set<string>>, h: seq<Event>, e: Event)
    requires !e.Reload?
    ensures FileOf(known, h + [e]) == FileOf(known, h)
  {
    var h' := h + [e];
    assert h'[..|h'| - 1] == h && h'[|h'| - 1] == e;
  }

  lemma EditRest(known: Option<set<string>>, s: Store, e: Event)
    requires !e.Reload? && Apart(s.edits) && s.effective == Merged(s.fileSet, s.edits, s.removed)
    ensures var s' := Step(known, s, e);
            && s'.fileSet == s.fileSet && s'.mtime == s.mtime && Apart(s'.edits)
            && s'.effective == Merged(s'.fileSet, s'.edits, s'.removed)
  {
    if e.Set? {
      PutGet(s.edits, e.name, e.body, e.name);
    } else {
      PopGet(s.edits, e.name, e.name);
    }
    hide Merged, Accepted, Put, Pop, Apart, Get;
  }

  lemma StepRest(known: Option<set<string>>, h: seq<Event>, s: Store, e: Event)
    requires (s.fileSet, s.mtime) == FileOf(known, h) && Apart(s.edits)
    requires s.effective == Merged(s.fileSet, s.edits, s.removed)
    ensures var s' := Step(known, s, e);
            && (s'.fileSet, s'.mtime) == FileOf(known, h + [e]) && Apart(s'.edits)
            && s'.effective == Merged(s'.fileSet, s'.edits, s'.removed)
  {
    hide Step, Merged, Apart, FileOf;
    if e.Reload? {
      ReloadStep(known, s, e.mtime, e.file);
      FileReloaded(known, h, e.mtime, e.file);
    } else {
      FileStays(known, h, e);
      EditRest(known, s, e);
    }
  }

  lemma StepKeeps(known: Option<set<string>>, h: seq<Event>, s: Store, e: Event)
    requires Inv(known, h, s)
    ensures Inv(known, h + [e], Step(known, s, e))
  {
    StepRest(known, h, s, e);
    hide Step, FileOf, Merged, Apart, Agrees;
    forall n: Name ensures Agrees(known, h + [e], Step(known, s, e), n) {
      StepAgrees(known, h, s, e, n);
    }
  }

  lemma EmptyInv(known: Option<set<string>>)
    ensures Inv(known, [], EMPTY)
  {
  }

  lemma {:induction false} EveryRun(known: Option<set<string>>, h: seq<Event>)
    ensures Inv(known, h, After(known, h))
  {
    hide Inv, Step;
    if h == [] {
      EmptyInv(known);
    } else {
      EveryRun(known, h[..|h| - 1]);
      StepKeeps(known, h[..|h| - 1], After(known, h[..|h| - 1]), h[|h| - 1]);
      assert h[..|h| - 1] + [h[|h| - 1]] == h;
    }
  }

  lemma EditsOf(known: Option<set<string>>, h: seq<Event>, s: Store)
    requires Inv(known, h, s)
    ensures EditsFine(known, s.edits)
  {
    hide ProblemsOf, Apart, Get;
    forall n: Name | Has(s.edits, n) ensures ProblemsOf(Get(s.edits, n).value, known) == [] {
      assert Agrees(known, h, s, n);
    }
  }

  /** After any reloads, edits and removals, the effective policy of a name is its runtime edit if it has one,
      else the last valid file's unless it was removed. */
  lemma EffectiveIsInForce(known: Option<set<string>>, h: seq<Event>, n: Name)
    ensures Lookup(After(known, h).effective, n) == InForce(known, h, n)
  {
    EveryRun(known, h);
    var s := After(known, h);
    EditsOf(known, h, s);
    assert Agrees(known, h, s, n);
    hide After, ProblemsOf, Merged, PolicyOf, EditsFine;
    MergedAt(known, s.fileSet, s.edits, s.removed, n);
  }

  /** No name is both edited and removed. */
  lemma EditsAndRemovalsDisjoint(known: Option<set<string>>, h: seq<Event>, n: Name)
    ensures n in After(known, h).removed ==> !Has(After(known, h).edits, n)
  {
    EveryRun(known, h);
    assert Agrees(known, h, After(known, h), n);
  }

  /** A rejected file or edit changes no policy, edit or removal. */
  lemma InvalidChangesNothing(known: Option<set<string>>, h: seq<Event>, e: Event)
    requires (e.Reload? && (e.file.Missing? || ReadFile(e.file, known).Invalid?))
          || (e.Set? && !Accepted(known, e.name, e.named, e.body))
    ensures var s, s' := After(known, h), After(known, h + [e]);
            s'.effective == s.effective && s'.fileSet == s.fileSet && s'.edits == s.edits && s'.removed == s.removed
  {
    assert (h + [e])[..|h|] == h;
    hide ReadFile, Accepted, Merged, Put, Pop;
  }

  /** Every policy in force keeps what the parser promises: the planner's chains name no provider twice. */
  lemma InForceWellFormed(known: Option<set<string>>, h: seq<Event>, n: Name)
    ensures n in After(known, h).effective ==> WellFormed(After(known, h).effective[n])
    ensures n in After(known, h).effective ==> Planning.Parsed(Some(After(known, h).effective[n].plan))
  {
    EveryRun(known, h);
    FilePoliciesFine(known, h, n);
    var s := After(known, h);
    EditsOf(known, h, s);
    hide After, FileOf, PolicyOf, WellFormed, ProblemsOf, Merged;
    MergedAt(known, s.fileSet, s.edits, s.removed, n);
    if Has(s.edits, n) {
      AcceptedWellFormed(Get(s.edits, n).value, known);
    }
    if n in s.effective {
      ChainDistinct(s.effective[n]);
    }
  }

  lemma ChainDistinct(p: Policy)
    requires WellFormed(p)
    ensures Planning.Parsed(Some(p.plan))
  {
  }

  lemma {:induction false} FilePoliciesFine(known: Option<set<string>>, h: seq<Event>, n: Name)
    ensures n in FileOf(known, h).0 ==> WellFormed(FileOf(known, h).0[n])
  {
    if h != [] {
      FilePoliciesFine(known, h[..|h| - 1], n);
      var e := h[|h| - 1];
      hide WellFormed, Parse, ProblemsOf;
      if e.Reload? && e.file.Document? {
        DocumentFine(e.file.doc, known, n);
      }
    }
  }

  lemma {:induction false} AllWellFormed(doc: seq<(Name, Body)>, known: Option<set<string>>, n: Name)
    requires AllProblems(doc, known) == []
    ensures n in AllPolicies(doc) ==> WellFormed(AllPolicies(doc)[n])
  {
    hide WellFormed, PolicyOf, ProblemsOf;
    if doc != [] {
      AllWellFormed(doc[..|doc| - 1], known, n);
      AcceptedWellFormed(doc[|doc| - 1].1, known);
    }
  }

  lemma DocumentFine(doc: seq<(Name, Body)>, known: Option<set<string>>, n: Name)
    ensures Parse(doc, known).Policies? && n in Parse(doc, known).all ==> WellFormed(Parse(doc, known).all[n])
  {
    if AllProblems(doc, known) == [] {
      AllWellFormed(doc, known, n);
    }
    hide WellFormed;
  }

  // ---- when a removal lasts ----------------------------------------------------------------------------------

  /** No runtime edit of the name is accepted in `more`. */
  predicate NotSet(known: Option<set<string>>, more: seq<Event>, n: Name) {
    forall i :: 0 <= i < |more| ==> !(more[i].Set? && more[i].name == n && Accepted(known, n, more[i].named, more[i].body))
  }

  /** Removed after `h`, the name has no policy again until it is set, whatever else happens. */
  ghost predicate StaysAway(known: Option<set<string>>, h: seq<Event>, n: Name) {
    forall more: seq<Event> :: NotSet(known, more, n) ==> Lookup(After(known, h + [Remove(n)] + more).effective, n) == None
  }

  lemma {:induction false} StaysHidden(known: Option<set<string>>, h: seq<Event>, more: seq<Event>, n: Name)
    requires NotSet(known, more, n) && Hidden(known, h, n) && EditOf(known, h, n) == None
    ensures Hidden(known, h + more, n) && EditOf(known, h + more, n) == None
  {
    if more == [] {
      assert h + more == h;
    } else {
      var last := |more| - 1;
      StaysHidden(known, h, more[..last], n);
      var all := h + more;
      assert all[..|all| - 1] == h + more[..last] && all[|all| - 1] == more[last];
      hide Accepted, FileOf;
    }
  }

  /** A modification time the store has not seen. */
  function Fresh(seen: Option<int>): int {
    if seen == Some(0) then 1 else 0
  }

  /** The file gains a policy of the name. */
  function Gains(known: Option<set<string>>, h: seq<Event>, n: Name, b: Body): Event {
    Reload(Fresh(FileOf(known, h).1), Document([(n, b)]))
  }

  lemma FileGains(known: Option<set<string>>, h: seq<Event>, n: Name, b: Body)
    requires ProblemsOf(b, known) == []
    ensures b.strategy.Some? && FileOf(known, h + [Gains(known, h, n, b)]).0 == map[n := PolicyOf(b)]
  {
    var e := Gains(known, h, n, b);
    OneAlone((n, b), known);
    FileReloaded(known, h, e.mtime, e.file);
    hide ProblemsOf, PolicyOf, Parse, FileOf;
  }

  /** A removal that hid nothing is undone by the next file that has the name. */
  lemma ShowsAgain(known: Option<set<string>>, h: seq<Event>, n: Name, b: Body)
    requires ProblemsOf(b, known) == [] && !Hidden(known, h, n) && EditOf(known, h, n) == None
    ensures b.strategy.Some? && Lookup(After(known, h + [Gains(known, h, n, b)]).effective, n) == Some(PolicyOf(b))
  {
    var e := Gains(known, h, n, b);
    StrategyKnown(b, known);
    LeftAlone(known, h, EMPTY, e, n);
    FileGains(known, h, n, b);
    hide ProblemsOf, PolicyOf, After, EditOf, Hidden, FileOf, Step, Gains;
    EffectiveIsInForce(known, h + [e], n);
  }

  /** The caller can tell beforehand: a removed name stays away until it is set again if and only if the last
      valid file has it, or it is hidden already. */
  lemma StaysAwayIff(known: Option<set<string>>, h: seq<Event>, n: Name)
    ensures StaysAway(known, h, n) <==> n in FileOf(known, h).0 || Hidden(known, h, n)
  {
    var h' := h + [Remove(n)];
    RemoveNoted(known, h, n, n);
    if n in FileOf(known, h).0 || Hidden(known, h, n) {
      forall more: seq<Event> | NotSet(known, more, n) ensures Lookup(After(known, h' + more).effective, n) == None {
        StaysHidden(known, h', more, n);
        hide After, FileOf, Accepted;
        EffectiveIsInForce(known, h' + more, n);
      }
    } else {
      PlainIsFine(known);
      ShowsAgain(known, h', n, PLAIN);
      assert NotSet(known, [Gains(known, h', n, PLAIN)], n);
    }
  }

  /** A policy that is accepted whatever providers are registered. */
  const PLAIN := Body(false, Some(Planning.Cheapest), NoWeights, Absent, Absent, [], None, {}, None, None, None)

  lemma PlainIsFine(known: Option<set<string>>)
    ensures ProblemsOf(PLAIN, known) == []
  {
    NoProblemIff(PLAIN, known);
    assert Elements([]) == {};
  }

  /** What a name set at runtime goes through that the file lacks: it is in force, its removal reports that
      it was and takes it away, and a file that gains the name brings it back, though nobody set it again. */
  lemma RemovedNameMayReturn(known: Option<set<string>>, h: seq<Event>, n: Name, b: Body)
    requires ProblemsOf(b, known) == [] && n !in FileOf(known, h).0 && !Hidden(known, h, n)
    ensures b.strategy.Some?
    ensures var edited := h + [Set(n, true, b)];
            var removed := edited + [Remove(n)];
            && Lookup(After(known, edited).effective, n) == Some(PolicyOf(b))
            && Lookup(After(known, removed).effective, n) == None
            && Lookup(After(known, removed + [Gains(known, removed, n, b)]).effective, n) == Some(PolicyOf(b))
  {
    var e := Set(n, true, b);
    var edited := h + [e];
    var removed := edited + [Remove(n)];
    OneAlone((n, b), known);
    hide ProblemsOf, PolicyOf, After;
    assert edited[..|h|] == h && edited[|h|] == e;
    EffectiveIsInForce(known, edited, n);
    FileStays(known, h, e);
    RemoveNoted(known, edited, n, n);
    FileStays(known, edited, Remove(n));
    EffectiveIsInForce(known, removed, n);
    ShowsAgain(known, removed, n, b);
  }

  // ---- the store object ----------------------------------------------------------------------------------------

  class PolicyOverlay {
    const known: Option<set<string>>
    var fileSet: map<Name, Policy>
    var mtime: Option<int>
    var edits: seq<(Name, Body)>
    var removed: set<Name>
    var effective: map<Name, Policy>
    ghost var history: seq<Event>

    function Value(): Store
      reads this
    {
      Store(fileSet, mtime, edits, removed, effective)
    }

    ghost predicate Valid()
      reads this
    {
      Value() == After(known, history)
    }

    constructor (known: Option<set<string>>)
      ensures Valid() && history == [] && this.known == known
    {
      this.known := known;
      fileSet, mtime, edits, removed, effective, history := map[], None, [], {}, map[], [];
    }

    method Merge()
      modifies `effective
      ensures effective == Merged(fileSet, edits, removed)
    {
      var merged := fileSet - removed;
      if edits != [] {
        var edited := ParsePolicies(edits, None);
        if edited.Policies? {
          merged := merged + edited.all;
        }
      }
      effective := merged;
    }

    /** `_load` with what it finds at the path. */
    method Load(found: int, file: File)
      requires Valid()
      modifies this
      ensures Valid() && history == old(history) + [Reload(found, file)]
      ensures forall n: Name :: Lookup(effective, n) == InForce(known, history, n)
    {
      hide Merged, Parse, After, InForce, Put, Pop, Accepted;
      Noted(known, history, Reload(found, file));
      ghost var before := Value();
      history := history + [Reload(found, file)];
      if !file.Missing? && mtime != Some(found) {
        mtime := Some(found);
        if file.Document? {
          var parsed := ParsePolicies(file.doc, known);
          if parsed.Policies? {
            fileSet := parsed.all;
            Merge();
          }
        }
      }
      assert Value() == Step(known, before, Reload(found, file));
      AllInForce(known, history);
    }

    method SetPolicy(name: Name, named: bool, body: Body) returns (policy: Option<Policy>)
      requires Valid()
      modifies this
      ensures Valid() && history == old(history) + [Set(name, named, body)]
      ensures policy.Some? <==> Accepted(known, name, named, body)
      ensures policy.Some? ==> policy == InForce(known, history, name)
      ensures policy.None? ==> Value() == old(Value())
      ensures forall n: Name :: Lookup(effective, n) == InForce(known, history, n)
    {
      hide Merged, Put, Parse, InForce, PolicyOf, After;
      Noted(known, history, Set(name, named, body));
      ghost var before := Value();
      history := history + [Set(name, named, body)];
      AllInForce(known, history);
      var parsed := ParsePolicies([(name, body)], known);
      if !named || parsed.Invalid? {
        return None;
      }
      edits := Put(edits, name, body);
      removed := removed - {name};
      Merge();
      assert Value() == Step(known, before, Set(name, named, body));
      EditShows(known, history, name, body);
      return Some(effective[name]);
    }

    method RemovePolicy(name: Name) returns (existed: bool)
      requires Valid()
      modifies this
      ensures Valid() && history == old(history) + [Remove(name)]
      ensures existed <==> InForce(known, old(history), name).Some?
      ensures forall n: Name :: Lookup(effective, n) == InForce(known, history, n)
    {
      hide Merged, Pop;
      AllInForce(known, history);
      EditedIsInForce(known, history, name);
      Noted(known, history, Remove(name));
      ghost var before := Value();
      history := history + [Remove(name)];
      existed := name in effective || Has(edits, name);
      edits := Pop(edits, name);
      if name in fileSet {
        removed := removed + {name};
      }
      Merge();
      assert Value() == Step(known, before, Remove(name));
      AllInForce(known, history);
    }
  }

  lemma Noted(known: Option<set<string>>, h: seq<Event>, e: Event)
    ensures After(known, h + [e]) == Step(known, After(known, h), e)
  {
    assert (h + [e])[..|h|] == h;
  }

  lemma AllInForce(known: Option<set<string>>, h: seq<Event>)
    ensures forall n: Name :: Lookup(After(known, h).effective, n) == InForce(known, h, n)
  {
    forall n: Name ensures Lookup(After(known, h).effective, n) == InForce(known, h, n) {
      EffectiveIsInForce(known, h, n);
    }
  }

  lemma EditShows(known: Option<set<string>>, h: seq<Event>, name: Name, body: Body)
    requires h != [] && h[|h| - 1] == Set(name, true, body) && Accepted(known, name, true, body)
    ensures body.strategy.Some? && InForce(known, h, name) == Some(PolicyOf(body))
  {
    OneAlone((name, body), known);
    hide ProblemsOf, PolicyOf, Parse, Hidden, FileOf;
  }

  /** An edited name always has a policy in force. */
  lemma EditedIsInForce(known: Option<set<string>>, h: seq<Event>, n: Name)
    ensures Has(After(known, h).edits, n) ==> InForce(known, h, n).Some?
  {
    EveryRun(known, h);
    var s := After(known, h);
    assert Agrees(known, h, s, n);
    if Has(s.edits, n) {
      AcceptedWellFormed(Get(s.edits, n).value, known);
    }
    hide ProblemsOf, PolicyOf, After, Hidden, FileOf, WellFormed;
  }
}
