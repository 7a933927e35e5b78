/** The per-provider circuit breaker: its operations on values, the class that performs them
    in place, and what holds over every run. */
module Breaker {

  datatype Phase = Closed | Open | HalfOpen

  /** `reset` is the reset timeout in seconds, `maxProbes` the half-open call limit. */
  datatype Config = Config(threshold: nat, reset: real, maxProbes: int)

  datatype State = State(phase: Phase, failures: nat, openedAt: real, probes: nat, totalOpened: nat)

  const FRESH: State := State(Closed, 0, 0.0, 0, 0)

  /** The `state` getter: an open breaker whose timeout has passed turns half-open when looked at. */
  function Look(c: Config, b: State, now: real): State {
    if b.phase.Open? && now - b.openedAt >= c.reset then b.(phase := HalfOpen, probes := 0) else b
  }

  predicate WouldAllow(c: Config, b: State, now: real) {
    var s := Look(c, b, now);
    s.phase.Closed? || (s.phase.HalfOpen? && s.probes < c.maxProbes)
  }

  function Allow(c: Config, b: State, now: real): State {
    var s := Look(c, b, now);
    if s.phase.HalfOpen? && s.probes < c.maxProbes then s.(probes := s.probes + 1) else s
  }

  function DropProbe(b: State): State {
    if b.probes > 0 then b.(probes := b.probes - 1) else b
  }

  function Trip(b: State, now: real): State {
    b.(phase := Open, openedAt := now, probes := 0, totalOpened := b.totalOpened + 1)
  }

  function Success(c: Config, b: State, now: real): State {
    var s := Look(c, b, now);
    match s.phase
    case Open => s
    case HalfOpen => DropProbe(s).(phase := Closed, failures := 0)
    case Closed => s.(failures := 0)
  }

  function Failure(c: Config, b: State, now: real): State {
    var s := Look(c, b, now);
    match s.phase
    case Open => s
    case HalfOpen => Trip(s, now)
    case Closed =>
      var f := s.(failures := s.failures + 1);
      if f.failures >= c.threshold then Trip(f, now) else f
  }

  /** `release` reads the stored state without the timeout check of the getter. */
  function Release(b: State): State {
    if b.phase.HalfOpen? then DropProbe(b) else b
  }

  // ----- The class -----------------------------------------------------------------------

  class CircuitBreaker {
    const cfg: Config
    var phase: Phase
    var failures: nat
    var openedAt: real
    var probes: nat
    var totalOpened: nat

    function Value(): State
      reads this
    {
      State(phase, failures, openedAt, probes, totalOpened)
    }

    constructor (cfg: Config)
      ensures this.cfg == cfg && Value() == FRESH
    {
      this.cfg := cfg;
      phase, failures, openedAt, probes, totalOpened := Closed, 0, 0.0, 0, 0;
    }

    method Current(now: real) returns (p: Phase)
      modifies this
      ensures Value() == Look(cfg, old(Value()), now) && p == phase
    {
      if phase == Open && now - openedAt >= cfg.reset {
        phase := HalfOpen;
        probes := 0;
      }
      p := phase;
    }

    method WouldAdmit(now: real) returns (ok: bool)
      modifies this
      ensures Value() == Look(cfg, old(Value()), now) && ok == WouldAllow(cfg, old(Value()), now)
    {
      var p := Current(now);
      ok := p == Closed || (p == HalfOpen && probes < cfg.maxProbes);
    }

    method Admit(now: real) returns (ok: bool)
      modifies this
      ensures Value() == Allow(cfg, old(Value()), now) && ok == WouldAllow(cfg, old(Value()), now)
    {
      var p := Current(now);
      if p == Closed {
        return true;
      }
      if p == HalfOpen {
        if probes < cfg.maxProbes {
          probes := probes + 1;
          return true;
        }
      }
      return false;
    }

    method RecordSuccess(now: real)
      modifies this
      ensures Value() == Success(cfg, old(Value()), now)
    {
      var p := Current(now);
      if p == Open {
        return;
      }
      if p == HalfOpen && probes > 0 {
        probes := probes - 1;
      }
      phase := Closed;
      failures := 0;
    }

    method RecordFailure(now: real)
      modifies this
      ensures Value() == Failure(cfg, old(Value()), now)
    {
      var p := Current(now);
      if p == Open {
        return;
      }
      if p == HalfOpen {
        if probes > 0 {
          probes := probes - 1;
        }
        OpenNow(now);
        return;
      }
      failures := failures + 1;
      if failures >= cfg.threshold {
        OpenNow(now);
      }
    }

    method GiveBack()
      modifies this
      ensures Value() == Release(old(Value()))
    {
      if phase == HalfOpen && probes > 0 {
        probes := probes - 1;
      }
    }

    method OpenNow(now: real)
      modifies this
      ensures Value() == Trip(old(Value()), now)
    {
      phase := Open;
      openedAt := now;
      probes := 0;
      totalOpened := totalOpened + 1;
    }
  }

  // ----- Runs ------------------------------------------------------------------------------

  datatype Event = LookAt | AllowCall | Succeed | Fail | GiveUp
  datatype Tick = Tick(event: Event, at: real)

  function Step(c: Config, b: State, t: Tick): State {
    match t.event
    case LookAt => Look(c, b, t.at)
    case AllowCall => Allow(c, b, t.at)
    case Succeed => Success(c, b, t.at)
    case Fail => Failure(c, b, t.at)
    case GiveUp => Release(b)
  }

  function Run(c: Config, ts: seq<Tick>): State {
    if ts == [] then FRESH else Step(c, Run(c, ts[..|ts| - 1]), ts[|ts| - 1])
  }

  /** The instants at which the breaker opened during a run, in order. */
  function Openings(c: Config, ts: seq<Tick>): seq<real> {
    if ts == [] then []
    else
      var before := ts[..|ts| - 1];
      if Run(c, ts).totalOpened > Run(c, before).totalOpened then Openings(c, before) + [ts[|ts| - 1].at]
      else Openings(c, before)
  }

  ghost predicate Monotone(ts: seq<Tick>) {
    forall i, j :: 0 <= i < j < |ts| ==> ts[i].at <= ts[j].at
  }

  /** While a breaker is closed its failure count stays below the threshold, in any order of events. */
  lemma {:induction false} ClosedBelowThreshold(c: Config, ts: seq<Tick>)
    requires c.threshold >= 1
    ensures Run(c, ts).phase.Closed? ==> Run(c, ts).failures < c.threshold
  {
    if ts != [] {
      ClosedBelowThreshold(c, ts[..|ts| - 1]);
    }
  }

  /** Failures recorded after the last success, whatever else happened. */
  function FailsSinceSuccess(ts: seq<Tick>): nat {
    if ts == [] then 0
    else match ts[|ts| - 1].event
         case Succeed => 0
         case Fail => FailsSinceSuccess(ts[..|ts| - 1]) + 1
         case _ => FailsSinceSuccess(ts[..|ts| - 1])
  }

  /** A closed breaker has counted exactly the failures after the last success. */
  lemma {:induction false} CountsSinceSuccess(c: Config, ts: seq<Tick>)
    ensures Run(c, ts).phase.Closed? ==> Run(c, ts).failures == FailsSinceSuccess(ts)
  {
    if ts != [] {
      CountsSinceSuccess(c, ts[..|ts| - 1]);
    }
  }

  /** So it opens with the failure that makes them as many as the threshold, and with no other event. */
  lemma OpensAtThreshold(c: Config, ts: seq<Tick>, t: Tick)
    requires Run(c, ts).phase.Closed?
    ensures var b := Run(c, ts + [t]);
      if t.event.Fail? && FailsSinceSuccess(ts) + 1 >= c.threshold then b.phase.Open? && b.openedAt == t.at
      else b.phase.Closed?
  {
    CountsSinceSuccess(c, ts);
    RunAppend(c, ts, t);
  }

  /** A half-open breaker is closed by a success and opened again by a failure, and by nothing else; until its
      timeout has passed an open one ignores everything. */
  lemma ProbeDecides(c: Config, ts: seq<Tick>, t: Tick)
    requires !Run(c, ts).phase.Closed?
    ensures var b, b' := Run(c, ts), Run(c, ts + [t]);
      if b.phase.Open? && t.at - b.openedAt < c.reset then b' == b
      else if t.event.Succeed? then b'.phase.Closed? && b'.failures == 0
      else if t.event.Fail? then b'.phase.Open? && b'.openedAt == t.at
      else !b'.phase.Closed? && b'.openedAt == b.openedAt
  {
    RunAppend(c, ts, t);
  }

  // ----- Probes of one half-open phase --------------------------------------------------------

  /** Calls admitted and given back since the breaker last turned half-open, and how many are still out. */
  datatype Probes = Probes(admitted: nat, givenBack: nat, out: nat)

  function ProbesSince(c: Config, ts: seq<Tick>): Probes {
    if ts == [] then Probes(0, 0, 0)
    else
      var before, t := Run(c, ts[..|ts| - 1]), ts[|ts| - 1];
      var p := if before.phase.HalfOpen? then ProbesSince(c, ts[..|ts| - 1]) else Probes(0, 0, 0);
      if t.event.AllowCall? && WouldAllow(c, before, t.at) then Probes(p.admitted + 1, p.givenBack, p.out + 1)
      else if t.event.GiveUp? then Probes(p.admitted, p.givenBack + 1, if p.out > 0 then p.out - 1 else 0)
      else p
  }

  /** A half-open breaker knows how many of its calls are out. So it lets through no more than allowed, plus one for
      each given back. */
  lemma {:induction false} HalfOpenAdmissions(c: Config, ts: seq<Tick>)
    ensures var p := ProbesSince(c, ts);
      Run(c, ts).phase.HalfOpen? ==>
        && Run(c, ts).probes == p.out && (p.out == 0 || p.out <= c.maxProbes)
        && p.admitted <= p.out + p.givenBack && (p.admitted == 0 || p.admitted <= c.maxProbes + p.givenBack)
  {
    if ts != [] {
      HalfOpenAdmissions(c, ts[..|ts| - 1]);
    }
  }

  lemma {:induction false} OpeningsCount(c: Config, ts: seq<Tick>)
    ensures |Openings(c, ts)| == Run(c, ts).totalOpened
    ensures Openings(c, ts) != [] ==>
      Openings(c, ts)[|Openings(c, ts)| - 1] == Run(c, ts).openedAt
    ensures Openings(c, ts) == [] ==> Run(c, ts).phase.Closed?
    ensures Monotone(ts) && ts != [] ==> forall o <- Openings(c, ts) :: o <= ts[|ts| - 1].at
  {
    if ts != [] {
      OpeningsCount(c, ts[..|ts| - 1]);
    }
  }

  /** Since the last opening at least the reset timeout passed before the breaker left `Open`. */
  lemma {:induction false} LeavingOpenTakesReset(c: Config, ts: seq<Tick>)
    requires Monotone(ts) && ts != [] && Openings(c, ts) != [] && !Run(c, ts).phase.Open?
    ensures ts[|ts| - 1].at - Run(c, ts).openedAt >= c.reset
  {
    var before := ts[..|ts| - 1];
    OpeningsCount(c, ts);
    OpeningsCount(c, before);
    if before != [] && Openings(c, before) != [] && !Run(c, before).phase.Open? {
      LeavingOpenTakesReset(c, before);
      assert ts[|ts| - 2].at <= ts[|ts| - 1].at;
    }
  }

  /** Consecutive openings are at least one reset timeout apart. */
  lemma {:induction false} OpeningsApart(c: Config, ts: seq<Tick>, i: nat)
    requires Monotone(ts) && i + 1 < |Openings(c, ts)|
    ensures Openings(c, ts)[i + 1] - Openings(c, ts)[i] >= c.reset
  {
    var before := ts[..|ts| - 1];
    OpeningsCount(c, before);
    if i + 1 < |Openings(c, before)| {
      OpeningsApart(c, before, i);
    } else {
      assert before != [];
      assert ts[|ts| - 2].at <= ts[|ts| - 1].at;
      if !Run(c, before).phase.Open? {
        LeavingOpenTakesReset(c, before);
      }
    }
  }

  /** `k` times `r`, by repeated addition. */
  function Times(k: nat, r: real): real {
    if k == 0 then 0.0 else Times(k - 1, r) + r
  }

  lemma {:induction false} TimesIsProduct(k: nat, r: real)
    ensures Times(k, r) == k as real * r
  {
    if k > 0 {
      TimesIsProduct(k - 1, r);
      assert k as real * r == (k - 1) as real * r + r;
    }
  }

  lemma {:induction false} OpeningsSpan(c: Config, ts: seq<Tick>, k: nat)
    requires Monotone(ts) && k < |Openings(c, ts)|
    ensures Openings(c, ts)[k] - Openings(c, ts)[0] >= Times(k, c.reset)
  {
    if k > 0 {
      OpeningsSpan(c, ts, k - 1);
      OpeningsApart(c, ts, k - 1);
    }
  }

  lemma OpenedWithin(c: Config, ts: seq<Tick>)
    requires Monotone(ts) && Openings(c, ts) != []
    ensures Run(c, ts).totalOpened >= 1 && Times(Run(c, ts).totalOpened - 1, c.reset) <= ts[|ts| - 1].at - Openings(c, ts)[0]
  {
    OpeningsCount(c, ts);
    var o := Openings(c, ts);
    var k := |o| - 1;
    assert o[k] in o;
    OpeningsSpan(c, ts, k);
    assert Run(c, ts).totalOpened - 1 == k;
  }

  /** `total_opened` is at most one plus the time since the first opening over the reset timeout. */
  lemma OpenedAtMost(c: Config, ts: seq<Tick>)
    requires Monotone(ts) && Openings(c, ts) != []
    ensures Run(c, ts).totalOpened >= 1
    ensures (Run(c, ts).totalOpened - 1) as real * c.reset <= ts[|ts| - 1].at - Openings(c, ts)[0]
  {
    hide Run, Openings, Monotone, Times;
    OpenedWithin(c, ts);
    TimesIsProduct(Run(c, ts).totalOpened - 1, c.reset);
  }

  // ----- One failing call at a time ---------------------------------------------------------

  /** A call asked for at `start`; if it is admitted it fails at `end`. */
  datatype Attempt = Attempt(start: real, end: real)

  /** The events of calls made one after the other, every admitted one failing. */
  function Failing(c: Config, calls: seq<Attempt>): seq<Tick> {
    if calls == [] then []
    else
      var last := calls[|calls| - 1];
      var ts := Failing(c, calls[..|calls| - 1]);
      if WouldAllow(c, Run(c, ts), last.start)
      then ts + [Tick(AllowCall, last.start), Tick(Fail, last.end)]
      else ts + [Tick(AllowCall, last.start)]
  }

  function Admitted(c: Config, calls: seq<Attempt>): nat {
    if calls == [] then 0
    else
      var before := calls[..|calls| - 1];
      Admitted(c, before) + (if WouldAllow(c, Run(c, Failing(c, before)), calls[|calls| - 1].start) then 1 else 0)
  }

  ghost predicate OneAtATime(calls: seq<Attempt>) {
    && (forall i :: 0 <= i < |calls| ==> calls[i].start <= calls[i].end)
    && (forall i, j :: 0 <= i < j < |calls| ==> calls[i].end <= calls[j].start)
  }

  lemma RunAppend(c: Config, ts: seq<Tick>, t: Tick)
    ensures Run(c, ts + [t]) == Step(c, Run(c, ts), t)
  {
    assert (ts + [t])[..|ts|] == ts;
  }

  lemma {:induction false} FailingIsMonotone(c: Config, calls: seq<Attempt>)
    requires OneAtATime(calls)
    ensures Monotone(Failing(c, calls))
    ensures forall t <- Failing(c, calls) :: t.at <= calls[|calls| - 1].end
  {
    if calls != [] {
      FailingIsMonotone(c, calls[..|calls| - 1]);
    }
  }

  /** While every call fails the breaker admits the threshold and then one probe per opening. */
  lemma {:induction false} AdmittedByOpenings(c: Config, calls: seq<Attempt>)
    requires OneAtATime(calls) && c.threshold >= 1
    ensures var b := Run(c, Failing(c, calls));
      if b.totalOpened == 0 then b.phase.Closed? && Admitted(c, calls) == b.failures < c.threshold
      else !b.phase.Closed? && b.probes == 0 && Admitted(c, calls) == c.threshold + b.totalOpened - 1
  {
    if calls != [] {
      var before, last := calls[..|calls| - 1], calls[|calls| - 1];
      AdmittedByOpenings(c, before);
      var ts := Failing(c, before);
      RunAppend(c, ts, Tick(AllowCall, last.start));
      RunAppend(c, ts + [Tick(AllowCall, last.start)], Tick(Fail, last.end));
      assert ts + [Tick(AllowCall, last.start)] + [Tick(Fail, last.end)]
          == ts + [Tick(AllowCall, last.start), Tick(Fail, last.end)];
    }
  }

  /** Against a provider that always fails, admitted calls are at most the threshold plus the
      time since the first opening over the reset timeout. */
  lemma AdmittedAtMost(c: Config, calls: seq<Attempt>)
    requires OneAtATime(calls) && c.threshold >= 1
    ensures var ts := Failing(c, calls);
      if Openings(c, ts) == [] then Admitted(c, calls) < c.threshold
      else
        && Admitted(c, calls) >= c.threshold
        && (Admitted(c, calls) - c.threshold) as real * c.reset <= ts[|ts| - 1].at - Openings(c, ts)[0]
  {
    hide Run, Openings, Monotone, Failing, Admitted;
    var ts := Failing(c, calls);
    AdmittedByOpenings(c, calls);
    OpeningsCount(c, ts);
    if Openings(c, ts) != [] {
      FailingIsMonotone(c, calls);
      assert Admitted(c, calls) - c.threshold == Run(c, ts).totalOpened - 1;
      OpenedAtMost(c, ts);
    }
  }
}
