/** Budgets of callers and of models: checked before a request, recorded after it, over fixed windows. */
module Budgets {
  import opened Common

  /** Whose usage an entry of the table is: one caller's, or a model's over all callers. */
  datatype Subject = Caller(name: string) | Model(name: string)

  datatype Limits = Limits(maxCost: Option<real>, warnCost: Option<real>, maxRequests: Option<nat>, maxTokens: Option<nat>,
                           window: nat)

  datatype Kind = Warning | Exceeded

  datatype LimitName = Requests | Tokens | Cost

  datatype Usage = Usage(start: real, cost: real, requests: nat, tokens: nat, alerted: set<Kind>)

  /** An entry of the usage table, kept least recently used first. */
  datatype Slot = Slot(subject: Subject, usage: Usage)

  datatype Alert = Alert(subject: Subject, kind: Kind, start: real)

  datatype Config = Config(default: Option<Limits>, subjects: map<string, Limits>, models: map<string, Limits>,
                           maxSubjects: nat, alerting: bool)

  datatype Book = Book(slots: seq<Slot>, rejections: nat, alerts: seq<Alert>)

  datatype Event =
    | Check(subject: Subject, now: real, estimate: real)
    | Record(subject: Subject, now: real, cost: real, tokens: int)
    | AddUsage(subject: Subject, now: real, cost: real, tokens: int)
    | Query(subject: Subject, now: real)

  predicate Valid(c: Config) {
    c.maxSubjects >= 1 && (c.default.Some? ==> c.default.value.window >= 1)
    && (forall s <- c.subjects :: c.subjects[s].window >= 1) && (forall m <- c.models :: c.models[m].window >= 1)
  }

  /** A caller without limits of its own has the default ones; a model without any is not counted. */
  function LimitsFor(c: Config, s: Subject): Option<Limits> {
    match s
    case Caller(name) => if name in c.subjects then Some(c.subjects[name]) else c.default
    case Model(name) => if name in c.models then Some(c.models[name]) else None
  }

  /** The start of the fixed window `now` lies in. */
  function Start(now: real, window: nat): real
    requires window >= 1
  {
    (now / window as real).Floor as real * window as real
  }

  function Lookup(slots: seq<Slot>, s: Subject): Option<Usage> {
    if slots == [] then None
    else if slots[|slots| - 1].subject == s then Some(slots[|slots| - 1].usage)
    else Lookup(slots[..|slots| - 1], s)
  }

  function Without(slots: seq<Slot>, s: Subject): seq<Slot> {
    if slots == [] then []
    else Without(slots[..|slots| - 1], s) + if slots[|slots| - 1].subject != s then [slots[|slots| - 1]] else []
  }

  function Newest(slots: seq<Slot>, max: nat): (r: seq<Slot>)
    ensures |r| <= max
  {
    if |slots| > max then slots[|slots| - max..] else slots
  }

  /** The usage of a subject in the window of `now`: a new one if the window has changed. */
  function CurrentUsage(slots: seq<Slot>, s: Subject, start: real): Usage {
    match Lookup(slots, s)
    case Some(u) => if u.start == start then u else Usage(start, 0.0, 0, 0, {})
    case None => Usage(start, 0.0, 0, 0, {})
  }

  function Put(c: Config, slots: seq<Slot>, s: Subject, u: Usage): seq<Slot> {
    Newest(Without(slots, s) + [Slot(s, u)], c.maxSubjects)
  }

  /** The first limit a request would go over, in the order they are checked. */
  function Over(l: Limits, u: Usage, estimate: real): Option<LimitName> {
    if l.maxRequests.Some? && u.requests + 1 > l.maxRequests.value then Some(Requests)
    else if l.maxTokens.Some? && u.tokens >= l.maxTokens.value then Some(Tokens)
    else if l.maxCost.Some? && (u.cost + estimate > l.maxCost.value || (estimate == 0.0 && u.cost >= l.maxCost.value))
    then Some(Cost)
    else None
  }

  predicate Alerts(c: Config, u: Usage, kind: Kind) {
    c.alerting && kind !in u.alerted
  }

  function Marked(c: Config, u: Usage, kind: Kind, due: bool): Usage {
    if due && Alerts(c, u, kind) then u.(alerted := u.alerted + {kind}) else u
  }

  function Sent(c: Config, s: Subject, u: Usage, kind: Kind, due: bool): seq<Alert> {
    if due && Alerts(c, u, kind) then [Alert(s, kind, u.start)] else []
  }

  predicate Warns(l: Limits, u: Usage) {
    l.warnCost.Some? && u.cost >= l.warnCost.value
  }

  function Added(u: Usage, n: nat, cost: real, tokens: int): Usage {
    u.(requests := u.requests + n, cost := u.cost + (if cost > 0.0 then cost else 0.0),
       tokens := u.tokens + if tokens > 0 then tokens else 0)
  }

  function Checked(c: Config, b: Book, s: Subject, l: Limits, u: Usage, estimate: real): Book {
    var over := Over(l, u, estimate).Some?;
    Book(Put(c, b.slots, s, Marked(c, u, Exceeded, over)), b.rejections + (if over then 1 else 0),
         b.alerts + Sent(c, s, u, Exceeded, over))
  }

  function Recorded(c: Config, b: Book, s: Subject, l: Limits, u: Usage): Book {
    Book(Put(c, b.slots, s, Marked(c, u, Warning, Warns(l, u))), b.rejections, b.alerts + Sent(c, s, u, Warning, Warns(l, u)))
  }

  function Step(c: Config, b: Book, e: Event): Book
    requires Valid(c)
  {
    match LimitsFor(c, e.subject)
    case None => b
    case Some(l) =>
      var u := CurrentUsage(b.slots, e.subject, Start(e.now, l.window));
      match e
      case Check(s, _, estimate) => Checked(c, b, s, l, u, estimate)
      case Record(s, _, cost, tokens) => Recorded(c, b, s, l, Added(u, 1, cost, tokens))
      case AddUsage(s, _, cost, tokens) => Recorded(c, b, s, l, Added(u, 0, cost, tokens))
      case Query(s, _) => b.(slots := Put(c, b.slots, s, u))
  }

  predicate Passes(c: Config, b: Book, e: Event)
    requires Valid(c)
  {
    e.Check? &&
    match LimitsFor(c, e.subject)
    case None => true
    case Some(l) => Over(l, CurrentUsage(b.slots, e.subject, Start(e.now, l.window)), e.estimate).None?
  }

  // ---- the manager object -------------------------------------------------------------------------

  class BudgetManager {
    const config: Config
    var slots: seq<Slot>
    var rejections: nat
    var alerts: seq<Alert>

    function Value(): Book
      reads this
    {
      Book(slots, rejections, alerts)
    }

    constructor (config: Config)
      ensures Value() == Book([], 0, []) && this.config == config
    {
      this.config := config;
      slots, rejections, alerts := [], 0, [];
    }

    /** `_current`: the subject's usage, moved to the end of the table, which is then trimmed. */
    method Current(s: Subject, l: Limits, now: real) returns (u: Usage)
      requires l.window >= 1
      modifies `slots
      ensures u == CurrentUsage(old(slots), s, Start(now, l.window)) && slots == Put(config, old(slots), s, u)
    {
      var start := Start(now, l.window);
      u := CurrentUsage(slots, s, start);
      slots := Without(slots, s) + [Slot(s, u)];
      ghost var all := slots;
      while |slots| > config.maxSubjects
        invariant |slots| <= |all| && slots == all[|all| - |slots|..]
        invariant |slots| < |all| ==> |slots| >= config.maxSubjects
      {
        slots := slots[1..];
      }
    }

    /** The usage object is changed in place; it is the last one of the table. */
    method Store(s: Subject, u: Usage)
      requires slots != [] && slots[|slots| - 1].subject == s
      modifies `slots
      ensures slots == old(slots)[..|old(slots)| - 1] + [Slot(s, u)]
    {
      slots := slots[|slots| - 1 := Slot(s, u)];
    }

    method RaiseAlert(s: Subject, kind: Kind, u: Usage) returns (u': Usage)
      modifies `alerts
      ensures u' == Marked(config, u, kind, true) && alerts == old(alerts) + Sent(config, s, u, kind, true)
    {
      if !config.alerting || kind in u.alerted {
        return u;
      }
      alerts := alerts + [Alert(s, kind, u.start)];
      return u.(alerted := u.alerted + {kind});
    }

    method Check(s: Subject, now: real, estimate: real) returns (refusal: Option<LimitName>)
      requires Valid(config)
      modifies this
      ensures Value() == Step(config, old(Value()), Event.Check(s, now, estimate))
      ensures refusal.None? <==> Passes(config, old(Value()), Event.Check(s, now, estimate))
      ensures var l := LimitsFor(config, s);
        refusal == if l.None? then None
                   else Over(l.value, CurrentUsage(old(slots), s, Start(now, l.value.window)), estimate)
    {
      hide Start, Lookup, Without, CurrentUsage, Newest;
      var limits := LimitsFor(config, s);
      if limits.None? {
        return None;
      }
      ghost var before := slots;
      var u := Current(s, limits.value, now);
      refusal := Over(limits.value, u, estimate);
      if refusal.Some? {
        rejections := rejections + 1;
        var u' := RaiseAlert(s, Exceeded, u);
        PutTwice(config, before, s, u, u');
        Store(s, u');
      }
    }

    method Record(s: Subject, now: real, cost: real, tokens: int)
      requires Valid(config)
      modifies this
      ensures Value() == Step(config, old(Value()), Event.Record(s, now, cost, tokens))
    {
      Count(s, now, 1, cost, tokens);
    }

    method AddUsage(s: Subject, now: real, cost: real, tokens: int)
      requires Valid(config)
      modifies this
      ensures Value() == Step(config, old(Value()), Event.AddUsage(s, now, cost, tokens))
    {
      Count(s, now, 0, cost, tokens);
    }

    /** `status`: the usage of the current window. Looking at it makes the subject the most recent one. */
    method Status(s: Subject, now: real) returns (r: Option<Usage>)
      requires Valid(config)
      modifies this
      ensures Value() == Step(config, old(Value()), Query(s, now))
      ensures var l := LimitsFor(config, s);
        r == if l.None? then None else Some(CurrentUsage(old(slots), s, Start(now, l.value.window)))
    {
      hide Start, Lookup, Without, CurrentUsage, Newest;
      var limits := LimitsFor(config, s);
      if limits.None? {
        return None;
      }
      var u := Current(s, limits.value, now);
      return Some(u);
    }

    /** The common part of `record` and `add_usage`. */
    method Count(s: Subject, now: real, n: nat, cost: real, tokens: int)
      requires Valid(config)
      modifies this
      ensures var l := LimitsFor(config, s);
        Value() == if l.None? then old(Value()) else
          Recorded(config, old(Value()), s, l.value,
                   Added(CurrentUsage(old(slots), s, Start(now, l.value.window)), n, cost, tokens))
    {
      hide Start, Lookup, Without, CurrentUsage, Newest;
      var limits := LimitsFor(config, s);
      if limits.None? {
        return;
      }
      ghost var before := slots;
      var u := Current(s, limits.value, now);
      var v := Added(u, n, cost, tokens);
      PutTwice(config, before, s, u, v);
      Store(s, v);
      if Warns(limits.value, v) {
        var v' := RaiseAlert(s, Warning, v);
        PutTwice(config, before, s, v, v');
        Store(s, v');
      }
    }
  }

  /** Changing the last entry in place is putting the changed entry. */
  lemma PutTwice(c: Config, slots: seq<Slot>, s: Subject, u: Usage, v: Usage)
    requires c.maxSubjects >= 1
    ensures var p := Put(c, slots, s, u);
      p != [] && p[|p| - 1] == Slot(s, u) && Put(c, slots, s, v) == p[..|p| - 1] + [Slot(s, v)]
  {
    var w := Without(slots, s);
    assert (w + [Slot(s, u)])[..|w|] == w == (w + [Slot(s, v)])[..|w|];
  }

  // ---- the table -------------------------------------------------------------------------------------

  lemma {:induction false} WithoutOthers(slots: seq<Slot>, s: Subject, k: Subject)
    requires k != s
    ensures Lookup(Without(slots, s), k) == Lookup(slots, k)
  {
    if slots != [] {
      var init, last := slots[..|slots| - 1], slots[|slots| - 1];
      WithoutOthers(init, s, k);
      var w := Without(init, s);
      assert (w + [last])[..|w|] == w && w + [] == w;
    }
  }

  lemma {:induction false} SuffixLookup(slots: seq<Slot>, n: nat, k: Subject)
    requires n <= |slots|
    ensures Lookup(slots[n..], k) == Lookup(slots, k) || Lookup(slots[n..], k) == None
  {
    if n < |slots| && slots[|slots| - 1].subject != k {
      SuffixLookup(slots[..|slots| - 1], n, k);
      assert slots[n..][..|slots| - n - 1] == slots[..|slots| - 1][n..];
    }
  }

  lemma PutLookup(c: Config, slots: seq<Slot>, s: Subject, u: Usage, k: Subject)
    requires c.maxSubjects >= 1
    ensures var p := Put(c, slots, s, u);
      if k == s then Lookup(p, k) == Some(u) else Lookup(p, k) == Lookup(slots, k) || Lookup(p, k) == None
  {
    var w := Without(slots, s) + [Slot(s, u)];
    assert w[..|w| - 1] == Without(slots, s);
    if |w| > c.maxSubjects {
      SuffixLookup(w, |w| - c.maxSubjects, k);
      assert w[|w| - c.maxSubjects..][c.maxSubjects - 1] == w[|w| - 1];
    }
    if k != s {
      WithoutOthers(slots, s, k);
    }
  }

  // ---- runs --------------------------------------------------------------------------------------------

  /** A call on the manager, or a checked request that ends without being recorded. */
  datatype Act = Do(event: Event) | Abandon(subject: Subject)

  function After(c: Config, run: seq<Act>): Book
    requires Valid(c)
  {
    if run == [] then Book([], 0, []) else
    var before := After(c, run[..|run| - 1]);
    match run[|run| - 1]
    case Do(e) => Step(c, before, e)
    case Abandon(_) => before
  }

  /** Requests of a subject that passed their check and were not recorded yet. */
  function Outstanding(c: Config, run: seq<Act>, s: Subject): int
    requires Valid(c)
  {
    if run == [] then 0 else
    var before := run[..|run| - 1];
    Outstanding(c, before, s) +
    match run[|run| - 1]
    case Abandon(k) => if k == s then -1 else 0
    case Do(e) =>
      if e.subject != s then 0 else if e.Record? then -1 else if Passes(c, After(c, before), e) then 1 else 0
  }

  function Clock(run: seq<Act>): real {
    if run == [] then 0.0
    else if run[|run| - 1].Do? then run[|run| - 1].event.now
    else Clock(run[..|run| - 1])
  }

  /** The clock never goes back, and only requests that passed a check are recorded or abandoned. */
  predicate Possible(c: Config, run: seq<Act>)
    requires Valid(c)
  {
    run == [] ||
    (var before, a := run[..|run| - 1], run[|run| - 1];
     Possible(c, before) &&
     match a
     case Abandon(s) => Outstanding(c, before, s) >= 1
     case Do(e) => Clock(before) <= e.now && (e.Record? ==> Outstanding(c, before, e.subject) >= 1))
  }

  /** At most `k` requests of the subject between check and record at any time. */
  predicate AtMost(c: Config, run: seq<Act>, s: Subject, k: nat)
    requires Valid(c)
  {
    Outstanding(c, run, s) <= k && (run == [] || AtMost(c, run[..|run| - 1], s, k))
  }

  /** The subject never leaves the table once it is there. */
  predicate NeverDropped(c: Config, run: seq<Act>, s: Subject)
    requires Valid(c)
  {
    run == [] ||
    (var before := run[..|run| - 1];
     NeverDropped(c, before, s)
     && (Lookup(After(c, before).slots, s).Some? ==> Lookup(After(c, run).slots, s).Some?))
  }

  /** Requests of the subject recorded in the window that begins at `start`. */
  function RecordedIn(run: seq<Act>, s: Subject, window: nat, start: real): nat
    requires window >= 1
  {
    if run == [] then 0 else
    var a := run[|run| - 1];
    RecordedIn(run[..|run| - 1], s, window, start)
    + if a.Do? && a.event.Record? && a.event.subject == s && Start(a.event.now, window) == start then 1 else 0
  }

  lemma StartMonotone(x: real, y: real, window: nat)
    requires window >= 1 && x <= y
    ensures Start(x, window) <= Start(y, window)
  {
    var w := window as real;
    assert x / w <= y / w;
    var i, j := (x / w).Floor, (y / w).Floor;
    assert i <= j;
    assert (j - i) as real * w >= 0.0;
    assert j as real * w - i as real * w == (j - i) as real * w;
  }

  // ---- who stays in the table --------------------------------------------------------------------------

  /** The subject an act is for, if it has limits. */
  function Actor(c: Config, a: Act): Option<Subject> {
    if a.Do? && LimitsFor(c, a.event.subject).Some? then Some(a.event.subject) else None
  }

  predicate Acted(c: Config, run: seq<Act>, s: Subject) {
    run != [] && (Actor(c, run[|run| - 1]) == Some(s) || Acted(c, run[..|run| - 1], s))
  }

  /** The other limited subjects that acted since `s` last did. */
  function Since(c: Config, run: seq<Act>, s: Subject): set<Subject> {
    if run == [] then {} else
    match Actor(c, run[|run| - 1])
    case None => Since(c, run[..|run| - 1], s)
    case Some(k) => if k == s then {} else Since(c, run[..|run| - 1], s) + {k}
  }

  /** The subjects behind the entry of `s`. */
  function Behind(slots: seq<Slot>, s: Subject): set<Subject> {
    if slots == [] || slots[|slots| - 1].subject == s then {}
    else Behind(slots[..|slots| - 1], s) + {slots[|slots| - 1].subject}
  }

  predicate OneEach(slots: seq<Slot>) {
    slots == [] || (Lookup(slots[..|slots| - 1], slots[|slots| - 1].subject) == None && OneEach(slots[..|slots| - 1]))
  }

  lemma {:induction false} BehindTracked(slots: seq<Slot>, s: Subject, k: Subject)
    requires k in Behind(slots, s)
    ensures Lookup(slots, k).Some?
  {
    if slots[|slots| - 1].subject != k {
      BehindTracked(slots[..|slots| - 1], s, k);
    }
  }

  lemma {:induction false} BehindSize(slots: seq<Slot>, s: Subject)
    requires Lookup(slots, s).Some?
    ensures |Behind(slots, s)| < |slots|
  {
    if slots[|slots| - 1].subject != s {
      BehindSize(slots[..|slots| - 1], s);
    }
  }

  /** If the last entries are not of `s`, they are all behind it. */
  lemma {:induction false} BehindAtLeast(slots: seq<Slot>, n: nat, s: Subject)
    requires n <= |slots| && OneEach(slots) && Lookup(slots[n..], s) == None
    ensures |Behind(slots, s)| >= |slots| - n
  {
    if n < |slots| {
      var init, last := slots[..|slots| - 1], slots[|slots| - 1];
      assert slots[n..][..|slots| - n - 1] == init[n..] && slots[n..][|slots| - n - 1] == last;
      BehindAtLeast(init, n, s);
      if last.subject in Behind(init, s) {
        BehindTracked(init, s, last.subject);
      }
    }
  }

  lemma {:induction false} WithoutOneEach(slots: seq<Slot>, t: Subject)
    requires OneEach(slots)
    ensures OneEach(Without(slots, t)) && Lookup(Without(slots, t), t) == None
  {
    if slots != [] {
      var init, last := slots[..|slots| - 1], slots[|slots| - 1];
      WithoutOneEach(init, t);
      var w := Without(init, t);
      assert (w + [last])[..|w|] == w && w + [] == w;
      if last.subject != t {
        WithoutOthers(init, t, last.subject);
      }
    }
  }

  lemma {:induction false} WithoutBehind(slots: seq<Slot>, t: Subject, s: Subject)
    requires s != t
    ensures Behind(Without(slots, t), s) == Behind(slots, s) - {t}
  {
    if slots != [] {
      var init, last := slots[..|slots| - 1], slots[|slots| - 1];
      WithoutBehind(init, t, s);
      var w := Without(init, t);
      assert (w + [last])[..|w|] == w && w + [] == w;
    }
  }

  lemma {:induction false} SuffixBehind(slots: seq<Slot>, n: nat, s: Subject)
    requires n <= |slots|
    ensures OneEach(slots) ==> OneEach(slots[n..])
    ensures Lookup(slots[n..], s).Some? ==> Behind(slots[n..], s) == Behind(slots, s)
  {
    if n < |slots| {
      var init, last := slots[..|slots| - 1], slots[|slots| - 1];
      assert slots[n..][..|slots| - n - 1] == init[n..] && slots[n..][|slots| - n - 1] == last;
      SuffixBehind(init, n, s);
      SuffixLookup(init, n, last.subject);
    }
  }

  lemma SubsetSize(a: set<Subject>, b: set<Subject>)
    requires a <= b
    ensures |a| <= |b|
  {
    assert b == a + (b - a);
  }

  /** What the table holds of `s`: the entries behind it are those of the subjects that acted since, and if it
      is gone they filled the table. */
  ghost predicate Recent(slots: seq<Slot>, s: Subject, acted: bool, since: set<Subject>, max: nat) {
    if Lookup(slots, s).Some? then acted && Behind(slots, s) == since else acted ==> |since| >= max
  }

  lemma PutRecent(c: Config, slots: seq<Slot>, t: Subject, u: Usage, s: Subject, acted: bool, since: set<Subject>)
    requires c.maxSubjects >= 1 && OneEach(slots) && Recent(slots, s, acted, since, c.maxSubjects)
    ensures OneEach(Put(c, slots, t, u))
    ensures Recent(Put(c, slots, t, u), s, acted || s == t, if s == t then {} else since + {t}, c.maxSubjects)
  {
    var w, all := Without(slots, t), Without(slots, t) + [Slot(t, u)];
    assert all[..|w|] == w;
    WithoutOneEach(slots, t);
    PutLookup(c, slots, t, u, s);
    var n := if |all| > c.maxSubjects then |all| - c.maxSubjects else 0;
    assert all[0..] == all && Put(c, slots, t, u) == all[n..];
    SuffixBehind(all, n, s);
    if s != t {
      WithoutOthers(slots, t, s);
      WithoutBehind(slots, t, s);
      SubsetSize(since, since + {t});
      if Lookup(all[n..], s) == None && Lookup(slots, s).Some? {
        BehindAtLeast(all, n, s);
      }
    }
  }

  lemma {:induction false} EveryRunRecent(c: Config, run: seq<Act>, s: Subject)
    requires Valid(c)
    ensures var slots := After(c, run).slots;
            OneEach(slots) && Recent(slots, s, Acted(c, run, s), Since(c, run, s), c.maxSubjects)
  {
    if run != [] {
      var before, a := run[..|run| - 1], run[|run| - 1];
      EveryRunRecent(c, before, s);
      if Actor(c, a).Some? {
        var u := StepPuts(c, After(c, before), a.event);
        PutRecent(c, After(c, before).slots, a.event.subject, u, s, Acted(c, before, s), Since(c, before, s));
      }
      hide Recent, OneEach, Put, Lookup, Start;
    }
  }

  /** Every act of a limited subject puts its entry last. */
  lemma StepPuts(c: Config, b: Book, e: Event) returns (u: Usage)
    requires Valid(c) && LimitsFor(c, e.subject).Some?
    ensures Step(c, b, e).slots == Put(c, b.slots, e.subject, u)
  {
    hide Start, Put, Lookup, Over, Warns;
    var l := LimitsFor(c, e.subject).value;
    var v := CurrentUsage(b.slots, e.subject, Start(e.now, l.window));
    u := match e
      case Check(_, _, estimate) => Marked(c, v, Exceeded, Over(l, v, estimate).Some?)
      case Record(_, _, cost, tokens) => var x := Added(v, 1, cost, tokens); Marked(c, x, Warning, Warns(l, x))
      case AddUsage(_, _, cost, tokens) => var x := Added(v, 0, cost, tokens); Marked(c, x, Warning, Warns(l, x))
      case Query(_, _) => v;
  }

  /** A subject is in the table if and only if it acted and fewer than `maxSubjects` other limited subjects
      acted since. */
  lemma TrackedIff(c: Config, run: seq<Act>, s: Subject)
    requires Valid(c)
    ensures Lookup(After(c, run).slots, s).Some? <==> Acted(c, run, s) && |Since(c, run, s)| < c.maxSubjects
  {
    EveryRunRecent(c, run, s);
    TableBounded(c, run);
    if Lookup(After(c, run).slots, s).Some? {
      BehindSize(After(c, run).slots, s);
    }
  }

  /** Between two acts of the subject fewer than `maxSubjects` others act. */
  predicate Undisturbed(c: Config, run: seq<Act>, s: Subject) {
    (Acted(c, run, s) ==> |Since(c, run, s)| < c.maxSubjects) && (run == [] || Undisturbed(c, run[..|run| - 1], s))
  }

  /** That is exactly when it never leaves the table once it is there. */
  lemma {:induction false} NeverDroppedIff(c: Config, run: seq<Act>, s: Subject)
    requires Valid(c)
    ensures NeverDropped(c, run, s) <==> Undisturbed(c, run, s)
    ensures NeverDropped(c, run, s) && Acted(c, run, s) ==> Lookup(After(c, run).slots, s).Some?
  {
    TrackedIff(c, run, s);
    if run != [] {
      NeverDroppedIff(c, run[..|run| - 1], s);
      TrackedIff(c, run[..|run| - 1], s);
      if Actor(c, run[|run| - 1]) == Some(s) {
        ActsTracked(c, run, s);
      }
    }
    hide After, Since, Lookup;
  }

  lemma ActsTracked(c: Config, run: seq<Act>, s: Subject)
    requires Valid(c) && run != [] && Actor(c, run[|run| - 1]) == Some(s)
    ensures Lookup(After(c, run).slots, s).Some?
  {
    TrackedIff(c, run, s);
    assert Since(c, run, s) == {};
  }

  // ---- what is known of one subject after a run ---------------------------------------------------------

  ghost predicate Tracked(run: seq<Act>, s: Subject, w: nat, v: Option<Usage>, open: int, most: int)
    requires w >= 1
  {
    && open >= 0
    && (forall st: real :: RecordedIn(run, s, w, st) <= most)
    && match v
       case None => open == 0 && forall st: real :: RecordedIn(run, s, w, st) == 0
       case Some(u) =>
         && u.start <= Start(Clock(run), w) && u.requests == RecordedIn(run, s, w, u.start) && u.requests + open <= most
         && forall st: real :: st > u.start ==> RecordedIn(run, s, w, st) == 0
  }

  /** The subject's usage as the current window sees it keeps within the bound. */
  lemma CurrentTracked(run: seq<Act>, s: Subject, w: nat, slots: seq<Slot>, open: int, most: int, now: real)
    requires w >= 1 && Tracked(run, s, w, Lookup(slots, s), open, most) && Clock(run) <= now && open <= most
    ensures var u := CurrentUsage(slots, s, Start(now, w));
      && u.start == Start(now, w) && u.requests == RecordedIn(run, s, w, u.start) && u.requests + open <= most
      && forall st: real :: st > u.start ==> RecordedIn(run, s, w, st) == 0
  {
    StartMonotone(Clock(run), now, w);
    hide Start;
  }

  /** What an act of another subject, or an abandoned request, leaves. */
  lemma OthersTracked(run: seq<Act>, a: Act, s: Subject, w: nat, v: Option<Usage>, open: int, open': int, most: int)
    requires w >= 1 && Tracked(run, s, w, v, open, most) && 0 <= open' <= open
    requires a.Do? ==> a.event.subject != s && Clock(run) <= a.event.now
    ensures Tracked(run + [a], s, w, v, open', most)
  {
    var all := run + [a];
    assert all[..|all| - 1] == run;
    if a.Do? {
      StartMonotone(Clock(run), a.event.now, w);
    }
    hide Start;
    forall st: real ensures RecordedIn(all, s, w, st) == RecordedIn(run, s, w, st) { }
  }

  /** The subject's own act turns its current usage `u` into `v`. */
  lemma OwnTracked(run: seq<Act>, e: Event, s: Subject, w: nat, u: Usage, v: Usage, open: int, open': int, most: int)
    requires w >= 1 && e.subject == s && u.start == v.start == Start(e.now, w)
    requires u.requests == RecordedIn(run, s, w, u.start) && forall st: real :: st > u.start ==> RecordedIn(run, s, w, st) == 0
    requires forall st: real :: RecordedIn(run, s, w, st) <= most
    requires v.requests == u.requests + (if e.Record? then 1 else 0)
    requires open' >= 0 && v.requests + open' <= most
    ensures Tracked(run + [Do(e)], s, w, Some(v), open', most)
  {
    var all := run + [Do(e)];
    assert all[..|all| - 1] == run;
    hide Start;
    forall st: real
      ensures RecordedIn(all, s, w, st) == RecordedIn(run, s, w, st) + if e.Record? && st == u.start then 1 else 0
    { }
  }

  lemma StepLookup(c: Config, b: Book, e: Event, k: Subject)
    requires Valid(c)
    ensures var after := Lookup(Step(c, b, e).slots, k);
      if LimitsFor(c, e.subject).None? then after == Lookup(b.slots, k)
      else if k != e.subject then after == Lookup(b.slots, k) || after == None
      else
        var l := LimitsFor(c, k).value;
        var u := CurrentUsage(b.slots, k, Start(e.now, l.window));
        match e
        case Check(_, _, estimate) => after == Some(Marked(c, u, Exceeded, Over(l, u, estimate).Some?))
        case Record(_, _, cost, tokens) =>
          var x := Added(u, 1, cost, tokens); after == Some(Marked(c, x, Warning, Warns(l, x)))
        case AddUsage(_, _, cost, tokens) =>
          var x := Added(u, 0, cost, tokens); after == Some(Marked(c, x, Warning, Warns(l, x)))
        case Query(_, _) => after == Some(u)
  {
    hide Start, CurrentUsage, Lookup, Put;
    if LimitsFor(c, e.subject).Some? {
      var l := LimitsFor(c, e.subject).value;
      var u := CurrentUsage(b.slots, e.subject, Start(e.now, l.window));
      match e
      case Check(s, _, estimate) => PutLookup(c, b.slots, s, Marked(c, u, Exceeded, Over(l, u, estimate).Some?), k);
      case Record(s, _, cost, tokens) =>
        var x := Added(u, 1, cost, tokens);
        PutLookup(c, b.slots, s, Marked(c, x, Warning, Warns(l, x)), k);
      case AddUsage(s, _, cost, tokens) =>
        var x := Added(u, 0, cost, tokens);
        PutLookup(c, b.slots, s, Marked(c, x, Warning, Warns(l, x)), k);
      case Query(s, _) => PutLookup(c, b.slots, s, u, k);
    }
  }

  /** The subject has a request cap `m`, and at most `k >= 1` requests between check and record. */
  ghost predicate Capped(c: Config, s: Subject, m: nat, k: nat) {
    k >= 1 && LimitsFor(c, s).Some? && LimitsFor(c, s).value.maxRequests == Some(m)
  }

  lemma OwnStep(c: Config, run: seq<Act>, e: Event, m: nat, k: nat, open: int, open': int)
    requires Valid(c) && Capped(c, e.subject, m, k)
    requires var w := LimitsFor(c, e.subject).value.window;
             Tracked(run, e.subject, w, Lookup(After(c, run).slots, e.subject), open, m + k - 1)
    requires Clock(run) <= e.now && (m == 0 ==> open == 0) && open <= k && open' <= k && (e.Record? ==> open >= 1)
    requires open' == open + if e.Record? then -1 else if Passes(c, After(c, run), e) then 1 else 0
    ensures var w := LimitsFor(c, e.subject).value.window;
            Tracked(run + [Do(e)], e.subject, w, Lookup(Step(c, After(c, run), e).slots, e.subject), open', m + k - 1)
    ensures m == 0 ==> open' == 0
  {
    var b, s, l := After(c, run), e.subject, LimitsFor(c, e.subject).value;
    StepLookup(c, b, e, s);
    CurrentTracked(run, s, l.window, b.slots, open, m + k - 1, e.now);
    var u := CurrentUsage(b.slots, s, Start(e.now, l.window));
    var v := Lookup(Step(c, b, e).slots, s).value;
    hide After, Start, Lookup, CurrentUsage, Step;
    OwnTracked(run, e, s, l.window, u, v, open, open', m + k - 1);
  }

  lemma {:induction false} EveryRunTracked(c: Config, run: seq<Act>, s: Subject, m: nat, k: nat)
    requires Valid(c) && Capped(c, s, m, k) && Possible(c, run) && AtMost(c, run, s, k) && NeverDropped(c, run, s)
    ensures Tracked(run, s, LimitsFor(c, s).value.window, Lookup(After(c, run).slots, s), Outstanding(c, run, s), m + k - 1)
    ensures Outstanding(c, run, s) <= k && (m == 0 ==> Outstanding(c, run, s) == 0)
  {
    if run != [] {
      var before, a := run[..|run| - 1], run[|run| - 1];
      assert before + [a] == run;
      EveryRunTracked(c, before, s, m, k);
      var open, open' := Outstanding(c, before, s), Outstanding(c, run, s);
      var v := Lookup(After(c, before).slots, s);
      if a.Do? && a.event.subject == s {
        OwnStep(c, before, a.event, m, k, open, open');
      } else {
        if a.Do? {
          StepLookup(c, After(c, before), a.event, s);
        }
        hide Step, Lookup;
        OthersTracked(before, a, s, LimitsFor(c, s).value.window, v, open, open', m + k - 1);
      }
    }
  }

  /** With at most `k` requests between check and record, no window ever counts more than the cap plus `k - 1`;
      with one at a time, never more than the cap. */
  lemma OvershootBounded(c: Config, run: seq<Act>, s: Subject, m: nat, k: nat, start: real)
    requires Valid(c) && Capped(c, s, m, k) && Possible(c, run) && AtMost(c, run, s, k) && Undisturbed(c, run, s)
    ensures RecordedIn(run, s, LimitsFor(c, s).value.window, start) <= m + k - 1
  {
    NeverDroppedIff(c, run, s);
    EveryRunTracked(c, run, s, m, k);
  }

  lemma {:induction false} TableBounded(c: Config, run: seq<Act>)
    requires Valid(c)
    ensures |After(c, run).slots| <= c.maxSubjects
  {
    if run != [] {
      TableBounded(c, run[..|run| - 1]);
    }
  }

  // ---- a limit of zero ----------------------------------------------------------------------------------

  predicate CostsFine(slots: seq<Slot>) {
    forall x <- slots :: x.usage.cost >= 0.0
  }

  lemma {:induction false} WithoutFine(slots: seq<Slot>, s: Subject)
    requires CostsFine(slots)
    ensures CostsFine(Without(slots, s))
  {
    if slots != [] {
      assert slots[|slots| - 1] in slots;
      WithoutFine(slots[..|slots| - 1], s);
    }
  }

  lemma {:induction false} LookupFine(slots: seq<Slot>, s: Subject)
    requires CostsFine(slots)
    ensures Lookup(slots, s).Some? ==> Lookup(slots, s).value.cost >= 0.0
  {
    if slots != [] {
      assert slots[|slots| - 1] in slots;
      LookupFine(slots[..|slots| - 1], s);
    }
  }

  lemma {:induction false} CostsNeverNegative(c: Config, run: seq<Act>)
    requires Valid(c)
    ensures CostsFine(After(c, run).slots)
  {
    if run != [] {
      var before := After(c, run[..|run| - 1]);
      CostsNeverNegative(c, run[..|run| - 1]);
      if run[|run| - 1].Do? {
        var s := run[|run| - 1].event.subject;
        WithoutFine(before.slots, s);
        LookupFine(before.slots, s);
        hide Lookup, Without, Start, CostsFine;
        StepFine(c, before, run[|run| - 1].event);
      }
    }
  }

  lemma StepFine(c: Config, b: Book, e: Event)
    requires Valid(c) && CostsFine(b.slots) && CostsFine(Without(b.slots, e.subject))
    requires Lookup(b.slots, e.subject).Some? ==> Lookup(b.slots, e.subject).value.cost >= 0.0
    ensures CostsFine(Step(c, b, e).slots)
  {
    hide Lookup, Without, Start, Over, Warns;
  }

  /** After any run a limit of 0 blocks every request, whichever limit it is and whatever the estimate. */
  lemma ZeroBlocksEverything(c: Config, run: seq<Act>, s: Subject, now: real, estimate: real)
    requires Valid(c) && LimitsFor(c, s).Some? && estimate >= 0.0
    requires var l := LimitsFor(c, s).value; l.maxRequests == Some(0) || l.maxTokens == Some(0) || l.maxCost == Some(0.0)
    ensures !Passes(c, After(c, run), Check(s, now, estimate))
  {
    CostsNeverNegative(c, run);
    LookupFine(After(c, run).slots, s);
    hide After, Lookup, Start;
  }

  // ---- alerts ----------------------------------------------------------------------------------------------

  /** Alerts of the subject so far: each once, none from a window still to come, and those of the
      current window are marked on its usage. */
  ghost predicate AlertsFit(alerts: seq<Alert>, s: Subject, v: Option<Usage>, latest: real) {
    && (v.Some? ==> v.value.start <= latest)
    && forall a <- alerts | a.subject == s ::
         && multiset(alerts)[a] == 1 && v.Some? && a.start <= v.value.start
         && (a.start == v.value.start ==> a.kind in v.value.alerted)
  }

  lemma RaiseFits(c: Config, alerts: seq<Alert>, s: Subject, v: Option<Usage>, latest: real,
                  u: Usage, kind: Kind, due: bool, now: real)
    requires AlertsFit(alerts, s, v, latest) && latest <= now && u.start == now
    requires u.alerted == if v.Some? && v.value.start == now then v.value.alerted else {}
    ensures AlertsFit(alerts + Sent(c, s, u, kind, due), s, Some(Marked(c, u, kind, due)), now)
  {
    var sent := Sent(c, s, u, kind, due);
    assert multiset(alerts + sent) == multiset(alerts) + multiset(sent);
    if sent != [] {
      assert sent[0] !in alerts;
    }
  }

  lemma StepAlerts(c: Config, b: Book, e: Event, s: Subject, latest: real)
    requires Valid(c) && e.subject == s && LimitsFor(c, s).Some?
    requires AlertsFit(b.alerts, s, Lookup(b.slots, s), latest) && latest <= Start(e.now, LimitsFor(c, s).value.window)
    ensures var b' := Step(c, b, e);
            AlertsFit(b'.alerts, s, Lookup(b'.slots, s), Start(e.now, LimitsFor(c, s).value.window))
  {
    var l := LimitsFor(c, s).value;
    var start := Start(e.now, l.window);
    var v, u := Lookup(b.slots, s), CurrentUsage(b.slots, s, start);
    StepLookup(c, b, e, s);
    hide Start, Lookup, Put, AlertsFit, Sent, Marked, Over, Warns;
    match e
    case Check(_, _, estimate) =>
      RaiseFits(c, b.alerts, s, v, latest, u, Exceeded, Over(l, u, estimate).Some?, start);
    case Record(_, _, cost, tokens) =>
      var x := Added(u, 1, cost, tokens);
      RaiseFits(c, b.alerts, s, v, latest, x, Warning, Warns(l, x), start);
    case AddUsage(_, _, cost, tokens) =>
      var x := Added(u, 0, cost, tokens);
      RaiseFits(c, b.alerts, s, v, latest, x, Warning, Warns(l, x), start);
    case Query(_, _) =>
      RaiseFits(c, b.alerts, s, v, latest, u, Warning, false, start);
  }

  /** A step sends alerts of its own subject only. */
  lemma StepSends(c: Config, b: Book, e: Event) returns (more: seq<Alert>)
    requires Valid(c)
    ensures Step(c, b, e).alerts == b.alerts + more && forall a <- more :: a.subject == e.subject
  {
    hide Start, Put, Over, Warns, CurrentUsage, Marked, Alerts;
    more := Step(c, b, e).alerts[|b.alerts|..];
  }

  lemma OtherAlerts(c: Config, b: Book, e: Event, s: Subject, v: Option<Usage>, latest: real, later: real)
    requires Valid(c) && e.subject != s && AlertsFit(b.alerts, s, v, latest) && latest <= later
    ensures AlertsFit(Step(c, b, e).alerts, s, v, later)
  {
    hide Step;
    var more := StepSends(c, b, e);
    assert multiset(b.alerts + more) == multiset(b.alerts) + multiset(more);
  }

  lemma {:induction false} EveryRunAlerts(c: Config, run: seq<Act>, s: Subject)
    requires Valid(c) && LimitsFor(c, s).Some? && Possible(c, run) && NeverDropped(c, run, s)
    ensures var b := After(c, run);
            AlertsFit(b.alerts, s, Lookup(b.slots, s), Start(Clock(run), LimitsFor(c, s).value.window))
  {
    if run != [] {
      var before, a := run[..|run| - 1], run[|run| - 1];
      var w := LimitsFor(c, s).value.window;
      EveryRunAlerts(c, before, s);
      if a.Do? {
        StartMonotone(Clock(before), a.event.now, w);
        StepLookup(c, After(c, before), a.event, s);
        hide Step, Start, AlertsFit;
        if a.event.subject == s {
          StepAlerts(c, After(c, before), a.event, s, Start(Clock(before), w));
        } else {
          OtherAlerts(c, After(c, before), a.event, s, Lookup(After(c, before).slots, s),
                      Start(Clock(before), w), Start(a.event.now, w));
        }
      }
    }
  }

  /** Each kind of alert is sent at most once per subject and window. */
  lemma AlertedOnce(c: Config, run: seq<Act>, a: Alert)
    requires Valid(c) && LimitsFor(c, a.subject).Some? && Possible(c, run) && Undisturbed(c, run, a.subject)
    ensures multiset(After(c, run).alerts)[a] <= 1
  {
    NeverDroppedIff(c, run, a.subject);
    EveryRunAlerts(c, run, a.subject);
  }

  // ---- why the subject must stay in the table -----------------------------------------------------------------

  const ONE_REQUEST := Limits(None, None, Some(1), None, 60)

  const A := Caller("a")
  const B := Caller("b")

  /** With a table of one, another subject's call makes the first one's count start over: its cap of one
      request a minute is passed twice in the same minute, one request at a time. */
  lemma DroppedSubjectStartsOver(c: Config)
    requires c == Config(Some(ONE_REQUEST), map[], map[], 1, false)
    ensures var e := Check(A, 0.0, 0.0);
            var b1 := Step(c, Step(c, Book([], 0, []), e), Record(A, 0.0, 0.0, 0));
            Passes(c, Book([], 0, []), e) && !Passes(c, b1, e)
            && Passes(c, Step(c, b1, Check(B, 0.0, 0.0)), e)
  {
    var e, b0 := Check(A, 0.0, 0.0), Book([], 0, []);
    var b1 := Step(c, Step(c, b0, e), Record(A, 0.0, 0.0, 0));
    StepLookup(c, b0, e, A);
    StepLookup(c, Step(c, b0, e), Record(A, 0.0, 0.0, 0), A);
    var b2 := Step(c, b1, Check(B, 0.0, 0.0));
    StepLookup(c, b1, Check(B, 0.0, 0.0), B);
    assert Lookup(b2.slots, A) == None by {
      assert |b2.slots| <= 1;
      if b2.slots != [] { assert b2.slots[..|b2.slots| - 1] == []; }
    }
  }
}
