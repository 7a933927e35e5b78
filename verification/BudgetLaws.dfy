/** What a budget has counted, refused and announced, from the history of requests alone. */
module BudgetLaws {
  import opened Common
  import opened Budgets

  // ----- windows ---------------------------------------------------------------------------------------

  /** A window starts at a multiple of its length and holds the moments until the next one. */
  lemma WindowOf(now: real, window: nat) returns (k: int)
    requires window >= 1
    ensures Start(now, window) == k as real * window as real
    ensures Start(now, window) <= now < Start(now, window) + window as real
  {
    k := (now / window as real).Floor;
    Between(now, window as real, now / window as real, k as real);
  }

  function Times(x: real, w: real): real { x * w }

  lemma TimesOrder(x: real, y: real, w: real)
    requires w > 0.0
    ensures x < y ==> Times(x, w) < Times(y, w)
    ensures Times(x + 1.0, w) == Times(x, w) + w
  {
    if x < y {
      Grows(y - x, w);
      assert (y - x) * w == y * w - x * w;
    }
  }

  lemma Between(x: real, w: real, r: real, k: real)
    requires w > 0.0 && r == x / w && k <= r < k + 1.0
    ensures k * w <= x < k * w + w
  {
    TimesOrder(k, r, w);
    TimesOrder(r, k + 1.0, w);
    assert Times(r, w) == x by { Quotient(x, w, r); }
    assert Times(k, w) == k * w;
  }

  lemma Quotient(x: real, w: real, r: real)
    requires w > 0.0 && r == x / w
    ensures r * w == x
  {
  }

  lemma Grows(d: real, w: real)
    requires d >= 0.0 && w > 0.0
    ensures d * w >= 0.0 && (d > 0.0 ==> d * w > 0.0)
  {
  }

  // ----- what was spent ----------------------------------------------------------------------------------

  /** Requests, tokens and cost recorded for the subject in the window that begins at `start`; negative amounts
      count as none. */
  function RequestsIn(run: seq<Act>, s: Subject, window: nat, start: real): nat
    requires window >= 1
  {
    if run == [] then 0 else
    var a := run[|run| - 1];
    RequestsIn(run[..|run| - 1], s, window, start)
    + if Spends(a, s, window, start) && a.event.Record? then 1 else 0
  }

  function TokensIn(run: seq<Act>, s: Subject, window: nat, start: real): int
    requires window >= 1
  {
    if run == [] then 0 else
    var a := run[|run| - 1];
    TokensIn(run[..|run| - 1], s, window, start)
    + if Spends(a, s, window, start) && a.event.tokens > 0 then a.event.tokens else 0
  }

  function CostIn(run: seq<Act>, s: Subject, window: nat, start: real): real
    requires window >= 1
  {
    if run == [] then 0.0 else
    var a := run[|run| - 1];
    CostIn(run[..|run| - 1], s, window, start)
    + if Spends(a, s, window, start) && a.event.cost > 0.0 then a.event.cost else 0.0
  }

  predicate Spends(a: Act, s: Subject, window: nat, start: real)
    requires window >= 1
  {
    a.Do? && (a.event.Record? || a.event.AddUsage?) && a.event.subject == s && Start(a.event.now, window) == start
  }

  predicate NothingIn(run: seq<Act>, s: Subject, window: nat, start: real)
    requires window >= 1
  {
    RequestsIn(run, s, window, start) == 0 && TokensIn(run, s, window, start) == 0 && CostIn(run, s, window, start) == 0.0
  }

  ghost predicate Holds(run: seq<Act>, s: Subject, w: nat, u: Usage)
    requires w >= 1
  {
    && u.requests == RequestsIn(run, s, w, u.start) && u.tokens == TokensIn(run, s, w, u.start)
    && u.cost == CostIn(run, s, w, u.start)
    && forall st: real :: st > u.start ==> NothingIn(run, s, w, st)
  }

  /** What the table holds of the subject is what was recorded in its window, and nothing was recorded later. */
  ghost predicate Exact(run: seq<Act>, s: Subject, w: nat, v: Option<Usage>)
    requires w >= 1
  {
    match v
    case None => forall st: real :: NothingIn(run, s, w, st)
    case Some(u) => u.start <= Start(Clock(run), w) && Holds(run, s, w, u)
  }

  /** The usage the current window sees. */
  lemma CurrentExact(run: seq<Act>, s: Subject, w: nat, slots: seq<Slot>, now: real)
    requires w >= 1 && Exact(run, s, w, Lookup(slots, s)) && Clock(run) <= now
    ensures var u := CurrentUsage(slots, s, Start(now, w)); u.start == Start(now, w) && Holds(run, s, w, u)
  {
    StartMonotone(Clock(run), now, w);
    hide Start, RequestsIn, TokensIn, CostIn;
    var u := CurrentUsage(slots, s, Start(now, w));
    assert NothingIn(run, s, w, u.start) || Lookup(slots, s) == Some(u);
  }

  lemma OneMore(run: seq<Act>, a: Act, s: Subject, w: nat, st: real)
    requires w >= 1
    ensures var all := run + [a];
      && RequestsIn(all, s, w, st) == RequestsIn(run, s, w, st) + (if Spends(a, s, w, st) && a.event.Record? then 1 else 0)
      && TokensIn(all, s, w, st) == TokensIn(run, s, w, st)
                                    + (if Spends(a, s, w, st) && a.event.tokens > 0 then a.event.tokens else 0)
      && CostIn(all, s, w, st) == CostIn(run, s, w, st)
                                  + (if Spends(a, s, w, st) && a.event.cost > 0.0 then a.event.cost else 0.0)
  {
    assert (run + [a])[..|run|] == run;
  }

  /** What the subject's own event makes of its current usage, alerts aside. */
  function Spent(u: Usage, e: Event): Usage {
    match e
    case Record(_, _, cost, tokens) => Added(u, 1, cost, tokens)
    case AddUsage(_, _, cost, tokens) => Added(u, 0, cost, tokens)
    case _ => u
  }

  lemma OwnExact(run: seq<Act>, e: Event, s: Subject, w: nat, u: Usage, v: Usage)
    requires w >= 1 && e.subject == s && u.start == Start(e.now, w) && Holds(run, s, w, u)
    requires v == Spent(u, e).(alerted := v.alerted)
    ensures Exact(run + [Do(e)], s, w, Some(v))
  {
    var all := run + [Do(e)];
    assert all[..|all| - 1] == run;
    assert Clock(all) == e.now;
    hide Start, RequestsIn, TokensIn, CostIn;
    OneMore(run, Do(e), s, w, u.start);
    forall st: real | st > v.start ensures NothingIn(all, s, w, st) {
      OneMore(run, Do(e), s, w, st);
      assert NothingIn(run, s, w, st);
    }
  }

  lemma OthersExact(run: seq<Act>, a: Act, s: Subject, w: nat, v: Option<Usage>)
    requires w >= 1 && Exact(run, s, w, v) && (a.Do? ==> a.event.subject != s && Clock(run) <= a.event.now)
    ensures Exact(run + [a], s, w, v)
  {
    var all := run + [a];
    assert all[..|all| - 1] == run;
    if a.Do? {
      StartMonotone(Clock(run), a.event.now, w);
    }
    hide Start, RequestsIn, TokensIn, CostIn;
    forall st: real ensures NothingIn(all, s, w, st) <==> NothingIn(run, s, w, st) {
      OneMore(run, a, s, w, st);
    }
    if v.Some? {
      OneMore(run, a, s, w, v.value.start);
    }
  }

  lemma OwnLookup(c: Config, b: Book, e: Event, l: Limits) returns (v: Usage)
    requires Valid(c) && LimitsFor(c, e.subject) == Some(l)
    ensures Lookup(Step(c, b, e).slots, e.subject) == Some(v)
    ensures v == Spent(CurrentUsage(b.slots, e.subject, Start(e.now, l.window)), e).(alerted := v.alerted)
  {
    StepLookup(c, b, e, e.subject);
    v := Lookup(Step(c, b, e).slots, e.subject).value;
    hide Lookup, Step, CurrentUsage, Start;
  }

  lemma {:induction false} EveryRunExact(c: Config, run: seq<Act>, s: Subject)
    requires Valid(c) && LimitsFor(c, s).Some? && Possible(c, run) && NeverDropped(c, run, s)
    ensures Exact(run, s, LimitsFor(c, s).value.window, Lookup(After(c, run).slots, s))
  {
    if run != [] {
      var before, a := run[..|run| - 1], run[|run| - 1];
      var l := LimitsFor(c, s).value;
      assert before + [a] == run;
      EveryRunExact(c, before, s);
      hide Exact, Lookup, Start;
      if a.Do? && a.event.subject == s {
        CurrentExact(before, s, l.window, After(c, before).slots, a.event.now);
        var v := OwnLookup(c, After(c, before), a.event, l);
        hide Holds, CurrentUsage, Step;
        OwnExact(before, a.event, s, l.window, CurrentUsage(After(c, before).slots, s, Start(a.event.now, l.window)), v);
      } else {
        if a.Do? {
          StepLookup(c, After(c, before), a.event, s);
        }
        hide Step;
        OthersExact(before, a, s, l.window, Lookup(After(c, before).slots, s));
      }
    }
  }

  // ----- what a check answers --------------------------------------------------------------------------------

  /** The limit that stands in the way of one more request of estimated cost `estimate`, if any. */
  function Blocks(l: Limits, requests: nat, tokens: int, cost: real, estimate: real): Option<LimitName> {
    if l.maxRequests.Some? && requests >= l.maxRequests.value then Some(Requests)
    else if l.maxTokens.Some? && tokens >= l.maxTokens.value then Some(Tokens)
    else if l.maxCost.Some? && (if estimate == 0.0 then cost >= l.maxCost.value else cost + estimate > l.maxCost.value)
    then Some(Cost)
    else None
  }

  /** A check is decided by what was recorded in the window it falls into: a request passes if and only if it keeps
      within the cap on requests, the tokens spent are below theirs, and the cost with the estimate does not
      exceed its own, or is below it if there is no estimate. */
  lemma DecidedBySpending(c: Config, run: seq<Act>, s: Subject, now: real, estimate: real)
    requires Valid(c) && LimitsFor(c, s).Some? && Possible(c, run) && Undisturbed(c, run, s) && Clock(run) <= now
    ensures var l := LimitsFor(c, s).value;
      var start := Start(now, l.window);
      Over(l, CurrentUsage(After(c, run).slots, s, start), estimate)
        == Blocks(l, RequestsIn(run, s, l.window, start), TokensIn(run, s, l.window, start), CostIn(run, s, l.window, start),
                  estimate)
    ensures Passes(c, After(c, run), Check(s, now, estimate)) <==>
      var l := LimitsFor(c, s).value;
      var start := Start(now, l.window);
      Blocks(l, RequestsIn(run, s, l.window, start), TokensIn(run, s, l.window, start), CostIn(run, s, l.window, start),
             estimate).None?
  {
    NeverDroppedIff(c, run, s);
    EveryRunExact(c, run, s);
    CurrentExact(run, s, LimitsFor(c, s).value.window, After(c, run).slots, now);
    hide After, Lookup, Start, RequestsIn, TokensIn, CostIn, CurrentUsage, Exact, Possible, Undisturbed, NeverDropped;
  }

  // ----- refusals ------------------------------------------------------------------------------------------

  /** Checks of the run that did not pass. */
  function RefusedIn(c: Config, run: seq<Act>): nat
    requires Valid(c)
  {
    if run == [] then 0 else
    var before, a := run[..|run| - 1], run[|run| - 1];
    RefusedIn(c, before) + if a.Do? && a.event.Check? && !Passes(c, After(c, before), a.event) then 1 else 0
  }

  lemma {:induction false} RefusalsCounted(c: Config, run: seq<Act>)
    requires Valid(c)
    ensures After(c, run).rejections == RefusedIn(c, run)
  {
    if run != [] {
      RefusalsCounted(c, run[..|run| - 1]);
      hide Start, CurrentUsage, Put;
    }
  }

  // ----- alerts ----------------------------------------------------------------------------------------------

  /** What `a` says became true with the last act: a check was refused, or spending has reached the warning. */
  ghost predicate DueNow(c: Config, before: seq<Act>, last: Act, a: Alert)
    requires Valid(c) && LimitsFor(c, a.subject).Some?
  {
    var l := LimitsFor(c, a.subject).value;
    && last.Do? && last.event.subject == a.subject && Start(last.event.now, l.window) == a.start
    && match a.kind
       case Exceeded => last.event.Check? && !Passes(c, After(c, before), last.event)
       case Warning =>
         && (last.event.Record? || last.event.AddUsage?) && l.warnCost.Some?
         && CostIn(before + [last], a.subject, l.window, a.start) >= l.warnCost.value
  }

  ghost predicate Due(c: Config, run: seq<Act>, a: Alert)
    requires Valid(c) && LimitsFor(c, a.subject).Some?
  {
    run != [] && (Due(c, run[..|run| - 1], a) || DueNow(c, run[..|run| - 1], run[|run| - 1], a))
  }

  /** Marks on the usage of a window stand for alerts that were sent. */
  ghost predicate MarksSent(alerts: seq<Alert>, s: Subject, v: Option<Usage>) {
    v.Some? ==> forall k <- v.value.alerted :: Alert(s, k, v.value.start) in alerts
  }

  /** The alert an event may cause, and whether it is due. */
  function KindOf(e: Event): Kind { if e.Check? then Exceeded else Warning }

  predicate IsDue(l: Limits, u: Usage, e: Event) {
    match e
    case Check(_, _, estimate) => Over(l, u, estimate).Some?
    case Query(_, _) => false
    case _ => Warns(l, Spent(u, e))
  }

  lemma OwnAlerts(c: Config, b: Book, e: Event, l: Limits)
    requires Valid(c) && LimitsFor(c, e.subject) == Some(l)
    ensures var u := CurrentUsage(b.slots, e.subject, Start(e.now, l.window));
      && Step(c, b, e).alerts == b.alerts + Sent(c, e.subject, Spent(u, e), KindOf(e), IsDue(l, u, e))
      && Lookup(Step(c, b, e).slots, e.subject) == Some(Marked(c, Spent(u, e), KindOf(e), IsDue(l, u, e)))
  {
    StepLookup(c, b, e, e.subject);
    hide Lookup, CurrentUsage, Start, Put, Over, Warns;
  }

  lemma AlertStep(c: Config, b: Book, e: Event, l: Limits, u: Usage)
    requires Valid(c) && c.alerting && LimitsFor(c, e.subject) == Some(l)
    requires u == CurrentUsage(b.slots, e.subject, Start(e.now, l.window)) && u.start == Start(e.now, l.window)
    requires MarksSent(b.alerts, e.subject, Lookup(b.slots, e.subject))
    ensures MarksSent(Step(c, b, e).alerts, e.subject, Lookup(Step(c, b, e).slots, e.subject))
    ensures forall a: Alert :: a.subject == e.subject ==>
      (a in Step(c, b, e).alerts <==>
        a in b.alerts || (IsDue(l, u, e) && a.kind == KindOf(e) && a.start == Start(e.now, l.window)))
  {
    OwnAlerts(c, b, e, l);
    CurrentMarks(b.alerts, e.subject, b.slots, Start(e.now, l.window));
    hide Lookup, CurrentUsage, Start, Step, IsDue;
  }

  lemma CurrentMarks(alerts: seq<Alert>, s: Subject, slots: seq<Slot>, start: real)
    requires MarksSent(alerts, s, Lookup(slots, s))
    ensures MarksSent(alerts, s, Some(CurrentUsage(slots, s, start)))
  {
    hide Lookup;
  }

  lemma IsDueNow(c: Config, before: seq<Act>, e: Event, a: Alert, l: Limits, u: Usage)
    requires Valid(c) && LimitsFor(c, a.subject) == Some(l) && e.subject == a.subject
    requires u == CurrentUsage(After(c, before).slots, a.subject, Start(e.now, l.window)) && u.start == Start(e.now, l.window)
    requires Holds(before, a.subject, l.window, u)
    ensures DueNow(c, before, Do(e), a) <==> IsDue(l, u, e) && a.kind == KindOf(e) && a.start == Start(e.now, l.window)
  {
    OneMore(before, Do(e), a.subject, l.window, u.start);
    hide After, Start, CurrentUsage, RequestsIn, TokensIn, CostIn;
  }

  /** In every run an alert was sent if and only if what it says became true, if its subject is never dropped. */
  lemma {:induction false} AlertedIff(c: Config, run: seq<Act>, a: Alert)
    requires Valid(c) && c.alerting && LimitsFor(c, a.subject).Some? && Possible(c, run) && NeverDropped(c, run, a.subject)
    ensures a in After(c, run).alerts <==> Due(c, run, a)
    ensures MarksSent(After(c, run).alerts, a.subject, Lookup(After(c, run).slots, a.subject))
  {
    if run != [] {
      var before, last := run[..|run| - 1], run[|run| - 1];
      var s, l := a.subject, LimitsFor(c, a.subject).value;
      assert before + [last] == run;
      AlertedIff(c, before, a);
      if last.Do? && last.event.subject == s {
        EveryRunExact(c, before, s);
        CurrentExact(before, s, l.window, After(c, before).slots, last.event.now);
        var u := CurrentUsage(After(c, before).slots, s, Start(last.event.now, l.window));
        hide Start, Lookup, CurrentUsage, Step, Exact, Holds, NeverDropped, Possible, DueNow, IsDue, MarksSent;
        IsDueNow(c, before, last.event, a, l, u);
        AlertStep(c, After(c, before), last.event, l, u);
      } else {
        hide Start, Lookup, CurrentUsage, Possible, MarksSent;
        AlertOthers(c, before, last, a);
      }
    }
  }

  lemma AlertOthers(c: Config, before: seq<Act>, last: Act, a: Alert)
    requires Valid(c) && LimitsFor(c, a.subject).Some? && !(last.Do? && last.event.subject == a.subject)
    requires NeverDropped(c, before + [last], a.subject)
    requires MarksSent(After(c, before).alerts, a.subject, Lookup(After(c, before).slots, a.subject))
    ensures var b, b' := After(c, before), After(c, before + [last]);
      && (a in b'.alerts <==> a in b.alerts) && !DueNow(c, before, last, a)
      && MarksSent(b'.alerts, a.subject, Lookup(b'.slots, a.subject))
  {
    var all := before + [last];
    assert all[..|all| - 1] == before;
    if last.Do? {
      var more := StepSends(c, After(c, before), last.event);
      StepLookup(c, After(c, before), last.event, a.subject);
      hide Step, Lookup, Start;
    }
  }

  /** Exactly one alert for each kind, subject and window in which it became due. */
  lemma AlertedExactly(c: Config, run: seq<Act>, a: Alert)
    requires Valid(c) && c.alerting && LimitsFor(c, a.subject).Some? && Possible(c, run) && Undisturbed(c, run, a.subject)
    ensures multiset(After(c, run).alerts)[a] == if Due(c, run, a) then 1 else 0
  {
    NeverDroppedIff(c, run, a.subject);
    AlertedIff(c, run, a);
    AlertedOnce(c, run, a);
    hide *;
  }

  /** With no one to tell, no alert is sent. */
  lemma {:induction false} NoneToTell(c: Config, run: seq<Act>)
    requires Valid(c) && !c.alerting
    ensures After(c, run).alerts == []
  {
    if run != [] {
      NoneToTell(c, run[..|run| - 1]);
      hide Start, CurrentUsage, Put, Over, Warns;
    }
  }
}
