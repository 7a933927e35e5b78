/** How requests end, and when they go on to the next candidate, in every run. */
module Outcomes {
  import opened Common
  import opened Errors
  import opened Legs
  import opened Router
  import opened RouterSafety
  import opened RouterTheorems
  import Breaker

  predicate Answers(legs: map<Id, Leg>, id: Id) {
    id in legs && legs[id].phase == Done(Answered)
  }

  /** The error a call ended with, if it did. */
  function FailureOf(legs: map<Id, Leg>, id: Id): Option<ErrorKind> {
    if id in legs && legs[id].phase.Done? && legs[id].phase.outcome.Failed? then Some(legs[id].phase.outcome.kind) else None
  }

  /** May go on after this error. */
  predicate GoesOn(c: RouterConfig, k: ErrorKind) {
    c.failover && OthersMaySucceed(k)
  }

  // ----- What a request's phase says of its calls --------------------------------------------------

  /** Calls before the one awaited were not answered, and none was when the request looks for the next. */
  ghost predicate OnlyAwaitedAnswers(legs: map<Id, Leg>, rid: nat, r: Request) {
    forall id <- legs :: id.0 == rid && legs[id].phase == Done(Answered) ==>
      r.phase == Finished(Aborted)
      || (r.index <= id.1 <= r.index + 1 && !r.phase.Looping? && r.phase != Finished(Raised)
          && (r.phase.Direct? || r.phase.PrimaryOnly? || r.phase.HedgeFirst? || r.phase.StreamOpen? ==> id.1 == r.index))
  }

  ghost predicate CancelledOnlyAtEnd(legs: map<Id, Leg>, rid: nat, r: Request) {
    forall id <- legs :: id.0 == rid ==>
      && (legs[id].cancelling ==> r.phase.Draining? || r.phase.Finished?)
      && (legs[id].phase == Done(Cancelled) ==> legs[id].cancelling)
  }

  predicate Final(p: ReqPhase, f: Router.Final) {
    p == Finished(f) || p == Draining(f)
  }

  ghost predicate Tells(legs: map<Id, Leg>, rid: nat, r: Request) {
    && OnlyAwaitedAnswers(legs, rid, r) && CancelledOnlyAtEnd(legs, rid, r)
    && (Final(r.phase, Returned) ==> Answers(legs, (rid, r.index)) || Answers(legs, (rid, r.index + 1)))
    && (r.phase.Hedged? ==>
          && (r.phase.first.Some? ==> FailureOf(legs, (rid, r.index)) == r.phase.first)
          && (r.phase.second.Some? ==> FailureOf(legs, (rid, r.index + 1)) == r.phase.second))
    && r.phase != Draining(Raised)
  }

  ghost predicate AllTell(s: Sys) {
    forall rid <- s.reqs :: Tells(s.legs, rid, s.reqs[rid])
  }

  lemma SameLegsTell(legs: map<Id, Leg>, legs': map<Id, Leg>, rid: nat, r: Request)
    requires Tells(legs, rid, r)
    requires forall id: Id :: id.0 == rid ==> (id in legs' <==> id in legs) && (id in legs ==> legs'[id] == legs[id])
    ensures Tells(legs', rid, r)
  {
  }

  lemma OthersTell(s: Sys, s': Sys, at: nat, r: Request)
    requires AllTell(s) && at in s.reqs && OnlyMoved(s, s', at, r) && Tells(s'.legs, at, r)
    ensures AllTell(s')
  {
    hide Tells;
    forall rid <- s'.reqs ensures Tells(s'.legs, rid, s'.reqs[rid]) {
      if rid != at {
        SameLegsTell(s.legs, s'.legs, rid, s.reqs[rid]);
      }
    }
  }

  // ----- Each event keeps it ---------------------------------------------------------------------------

  /** A pending call moved; if it was cancelled, it was being cancelled. */
  lemma LegMoveTells(legs: map<Id, Leg>, id: Id, x: Leg, rid: nat, r: Request)
    requires Tells(legs, rid, r) && ReqInv(legs, rid, r) && id in legs && !legs[id].phase.Done?
    requires x.cancelling == legs[id].cancelling && (x.phase == Done(Cancelled) ==> x.cancelling)
    ensures Tells(legs[id := x], rid, r)
  {
    if id.0 != rid {
      SameLegsTell(legs, legs[id := x], rid, r);
    } else {
      assert id.1 == r.index || id.1 == r.index + 1 || r.phase == Finished(Aborted);
    }
  }

  lemma LegEventTells(c: RouterConfig, s: Sys, id: Id, e: Event)
    requires Inv(c, s) && AllTell(s) && EnabledAt(c, s, LegMoves(id, e))
    ensures AllTell(Step(c, s, LegMoves(id, e)))
  {
    var cfg, scene := c.providers[s.legs[id].provider], SceneOf(s, id);
    var x := Next(cfg, s.now, scene, e).leg;
    LegStep(cfg, s.now, scene, e);
    assert forall rid <- s.reqs :: ReqInv(s.legs, rid, s.reqs[rid]);
    hide Inv, Known, EnabledIn, Next, Tells, ReqInv;
    forall rid <- s.reqs ensures Tells(s.legs[id := x], rid, s.reqs[rid]) {
      LegMoveTells(s.legs, id, x, rid, s.reqs[rid]);
    }
  }

  lemma LegStep(c: ProviderConfig, now: real, s: Scene, e: Event)
    requires EnabledIn(c, now, s, e)
    ensures !s.leg.phase.Done?
    ensures var x := Next(c, now, s, e).leg;
      x.cancelling == s.leg.cancelling && (x.phase == Done(Cancelled) ==> x.cancelling) && x.provider == s.leg.provider
  {
  }

  lemma AdvanceTells(legs: map<Id, Leg>, rid: nat, r: Request, r': Request)
    requires Tells(legs, rid, r) && r.phase.Looping? && (r'.phase.Looping? || r'.phase == Finished(Raised))
    ensures Tells(legs, rid, r')
  {
  }

  lemma OpenTells(legs: map<Id, Leg>, rid: nat, r: Request, r': Request, pos: nat, leg: Leg)
    requires Tells(legs, rid, r) && (rid, pos) !in legs && leg.phase.Entered? && !leg.cancelling && r'.index == r.index
    requires if r.phase.Looping? then r'.phase.Direct? || r'.phase.HedgeFirst?
             else r.phase.HedgeFirst? && r'.phase == Hedged(None, None)
    ensures Tells(legs[(rid, pos) := leg], rid, r')
  {
  }

  lemma LoopTells(c: RouterConfig, s: Sys, at: nat)
    requires Inv(c, s) && AllTell(s) && at in s.reqs && s.reqs[at].phase.Looping?
    ensures AllTell(LoopStep(c, s, at))
  {
    InvParts(c, s);
    var r, s' := s.reqs[at], LoopStep(c, s, at);
    var b := LoopShape(c, s, at);
    var r' := s'.reqs[at];
    assert Tells(s.legs, at, r);
    hide Inv, LegsOk, ReqsOk, Accounts, Timely, LoopStep, Known, Tells, AllTell;
    if Opened(c, s, s', at, r', b) {
      NotUsedYet(c, s, at, r'.index);
      OpenTells(s.legs, at, r, r', r'.index, NewLeg(c, r', r'.index, b));
    } else {
      AdvanceTells(s.legs, at, r, r');
    }
    OthersTell(s, s', at, r');
  }

  lemma ResumedTells(c: RouterConfig, legs: map<Id, Leg>, rid: nat, r: Request)
    requires Tells(legs, rid, r) && ReqInv(legs, rid, r) && (rid, r.index) in legs
    requires r.phase.Direct? || r.phase.HedgeFirst? || r.phase.PrimaryOnly? || r.phase.StreamOpen?
    requires legs[(rid, r.index)].phase.Done? || (r.phase.Direct? && legs[(rid, r.index)].phase.Streaming?)
    ensures Tells(legs, rid, Resumed(c, r, legs[(rid, r.index)].phase))
  {
  }

  lemma DrainedTells(legs: map<Id, Leg>, rid: nat, r: Request, f: Final)
    requires Tells(legs, rid, r) && r.phase == Draining(f)
    ensures Tells(legs, rid, r.(phase := Finished(f)))
  {
  }

  /** With the legs as they were and one request changed, only that one moved. */
  lemma OnlyThis(s: Sys, s': Sys, at: nat)
    requires at in s.reqs && at in s'.reqs && s' == s.(reqs := s.reqs[at := s'.reqs[at]])
    ensures OnlyMoved(s, s', at, s'.reqs[at])
  {
  }

  lemma ResumeTells(c: RouterConfig, s: Sys, at: nat)
    requires AllTell(s) && CanResume(s, at) && ReqInv(s.legs, at, s.reqs[at])
    ensures AllTell(ResumeStep(c, s, at))
  {
    var r, s' := s.reqs[at], ResumeStep(c, s, at);
    assert Tells(s.legs, at, r);
    hide AllTell, Tells, ReqInv, Resumed;
    if r.phase.Draining? {
      DrainedTells(s.legs, at, r, r.phase.final);
    } else {
      assert (at, r.index) in s.legs;
      assert s.legs[(at, r.index)].phase.Done? || (r.phase.Direct? && s.legs[(at, r.index)].phase.Streaming?);
      ResumedTells(c, s.legs, at, r);
    }
    OnlyThis(s, s', at);
    hide CanResume, ResumeStep;
    OthersTell(s, s', at, s'.reqs[at]);
  }

  lemma PrimaryTells(legs: map<Id, Leg>, rid: nat, r: Request)
    requires Tells(legs, rid, r) && r.phase.HedgeFirst?
    ensures Tells(legs, rid, r.(phase := PrimaryOnly))
  {
  }

  lemma NewLegRests(c: RouterConfig, r: Request, pos: nat, b: Breaker.State)
    requires pos < |r.cands|
    ensures NewLeg(c, r, pos, b).phase.Entered? && !NewLeg(c, r, pos, b).cancelling
  {
  }

  lemma HedgeTells(c: RouterConfig, s: Sys, at: nat)
    requires Known(c, s) && LegsOk(c, s) && ReqsOk(s) && AllTell(s)
    requires HedgeTimerDue(s, at) && s.reqs[at].index + 1 < |s.reqs[at].cands|
    ensures AllTell(HedgeStep(c, s, at))
  {
    assert at in s.reqs && s.reqs[at].phase.HedgeFirst? && Tells(s.legs, at, s.reqs[at]);
    hide LegsOk, ReqsOk, HedgeStep, Known, MayBecome, OnlyMoved, AllTell, Awaits, Tells, NewLeg, HedgeTimerDue;
    var r, s' := s.reqs[at], HedgeStep(c, s, at);
    var b := HedgeShape(c, s, at);
    PartnerNotUsed(c, s, at);
    HedgeMoves(c, s, at);
    HedgedTells(c, s, s', at, r, s'.reqs[at], b);
  }

  lemma HedgedTells(c: RouterConfig, s: Sys, s': Sys, at: nat, r: Request, r': Request, b: Breaker.State)
    requires AllTell(s) && at in s.reqs && s.reqs[at] == r && OnlyMoved(s, s', at, r') && Tells(s.legs, at, r)
    requires r.phase.HedgeFirst? && r.index + 1 < |r.cands| && (at, r.index + 1) !in s.legs
    requires if r'.phase.Hedged? then
               && r' == r.(skip := r.skip + {r.cands[r.index + 1]}, phase := Hedged(None, None))
               && s'.legs == s.legs[(at, r.index + 1) := NewLeg(c, r', r.index + 1, b)]
             else r' == r.(phase := PrimaryOnly) && s'.legs == s.legs
    ensures AllTell(s')
  {
    hide AllTell, Tells, NewLeg;
    if r'.phase.Hedged? {
      NewLegRests(c, r', r.index + 1, b);
      OpenTells(s.legs, at, r, r', r.index + 1, NewLeg(c, r', r.index + 1, b));
    } else {
      PrimaryTells(s.legs, at, r);
    }
    hide OnlyMoved;
    OthersTell(s, s', at, r');
  }

  lemma MarkTells(legs: map<Id, Leg>, legs': map<Id, Leg>, rid: nat, r: Request, final: Final)
    requires Tells(legs, rid, r) && Marked(legs, legs', rid, r.index) && !final.Raised?
    requires !r.phase.Looping? && !r.phase.Finished?
    requires final.Returned? ==> Answers(legs, (rid, r.index)) || Answers(legs, (rid, r.index + 1))
    ensures Tells(legs', rid, r.(phase := Draining(final)))
  {
  }

  lemma DrainTells(s: Sys, at: nat, final: Final)
    requires AllTell(s) && at in s.reqs && !final.Raised? && !s.reqs[at].phase.Looping? && !s.reqs[at].phase.Finished?
    requires final.Returned? ==> Answers(s.legs, (at, s.reqs[at].index)) || Answers(s.legs, (at, s.reqs[at].index + 1))
    ensures AllTell(Drain(s, at, final))
  {
    var r, s' := s.reqs[at], Drain(s, at, final);
    CancelBothMarks(s, at, r.index);
    assert Tells(s.legs, at, r);
    MarkTells(s.legs, s'.legs, at, r, final);
    hide CancelBoth, AllTell, Tells;
    OthersTell(s, s', at, s'.reqs[at]);
  }

  lemma PairTells(c: RouterConfig, legs: map<Id, Leg>, rid: nat, r: Request, second: bool, k: ErrorKind)
    requires Tells(legs, rid, r) && ReqInv(legs, rid, r) && r.phase.Hedged?
    requires if second then r.phase.second.None? else r.phase.first.None?
    requires FailureOf(legs, (rid, if second then r.index + 1 else r.index)) == Some(k)
    ensures Tells(legs, rid, PairFailed(c, r, second, k))
  {
  }

  lemma CollectTells(c: RouterConfig, s: Sys, at: nat, second: bool)
    requires AllTell(s) && CanCollect(s, at, second) && ReqInv(s.legs, at, s.reqs[at])
    ensures AllTell(CollectStep(c, s, at, second))
  {
    var r := s.reqs[at];
    var id := (at, if second then r.index + 1 else r.index);
    assert Tells(s.legs, at, r);
    match s.legs[id].phase.outcome
    case Answered => DrainTells(s, at, Returned);
    case Cancelled => DrainTells(s, at, Aborted);
    case Failed(k) =>
      PairTells(c, s.legs, at, r, second, k);
      hide AllTell, Tells, ReqInv, PairFailed;
      OthersTell(s, CollectStep(c, s, at, second), at, PairFailed(c, r, second, k));
  }

  lemma AbortTells(c: RouterConfig, s: Sys, at: nat)
    requires AllTell(s) && CanAbort(s, at)
    ensures AllTell(AbortStep(s, at))
  {
    var r := s.reqs[at];
    if r.phase.HedgeFirst? {
      assert Tells(s.legs, at, r);
      assert Tells(s.legs, at, r.(phase := Finished(Aborted)));
      hide AllTell, Tells;
      OthersTell(s, AbortStep(s, at), at, r.(phase := Finished(Aborted)));
    } else {
      DrainTells(s, at, Aborted);
    }
  }

  lemma InvOf(c: RouterConfig, s: Sys, rid: nat)
    requires Inv(c, s)
    ensures Known(c, s) && (rid in s.reqs ==> ReqInv(s.legs, rid, s.reqs[rid]))
  {
  }

  lemma ArriveTells(c: RouterConfig, s: Sys, ev: SysEvent)
    requires Known(c, s) && AllTell(s) && ev.Arrive? && EnabledAt(c, s, ev)
    ensures AllTell(Step(c, s, ev))
  {
    assert forall id <- s.legs :: LegBelongs(c, s, id);
  }

  lemma StepTells(c: RouterConfig, s: Sys, ev: SysEvent)
    requires Inv(c, s) && AllTell(s) && EnabledAt(c, s, ev)
    ensures AllTell(Step(c, s, ev))
  {
    hide Inv, Known, AllTell, LoopStep, ResumeStep, HedgeStep, CollectStep, AbortStep, Next, EnabledIn, CanTick, ReqInv, LegsOk, ReqsOk, Accounts, Timely;
    match ev
    case Arrive(_, _, _, _, _) => InvOf(c, s, ev.rid); ArriveTells(c, s, ev);
    case LegMoves(id, e) => LegEventTells(c, s, id, e);
    case Loop(at) => LoopTells(c, s, at);
    case Resume(at) => InvOf(c, s, at); ResumeTells(c, s, at);
    case HedgeTimer(at) => InvOf(c, s, at); InvParts(c, s); HedgeTells(c, s, at);
    case Collect(at, second) => InvOf(c, s, at); CollectTells(c, s, at, second);
    case Abort(at) => AbortTells(c, s, at);
    case Tick(_) => TickTells(s, Step(c, s, ev));
  }

  lemma TickTells(s: Sys, s': Sys)
    requires AllTell(s) && s'.legs == s.legs && s'.reqs == s.reqs
    ensures AllTell(s')
  {
  }

  lemma {:induction false} EveryRunTells(c: RouterConfig, evs: seq<SysEvent>, ss: seq<Sys>, i: nat)
    requires IsRun(c, evs, ss) && i < |ss|
    ensures AllTell(ss[i])
  {
    hide EnabledAt, Step;
    if i > 0 {
      EveryRunTells(c, evs, ss, i - 1);
      EveryRun(c, evs, ss, i - 1);
      assert EnabledAt(c, ss[i - 1], evs[i - 1]) && ss[i - 1 + 1] == Step(c, ss[i - 1], evs[i - 1]);
      hide AllTell, Inv;
      StepTells(c, ss[i - 1], evs[i - 1]);
    }
  }

  /** A request that returns has an answer; one that raises has none, and no call left. */
  lemma EndsAsAnswered(c: RouterConfig, evs: seq<SysEvent>, ss: seq<Sys>, i: nat, rid: nat)
    requires IsRun(c, evs, ss) && i < |ss| && rid in ss[i].reqs
    ensures Final(ss[i].reqs[rid].phase, Returned) ==> exists id <- ss[i].legs :: id.0 == rid && Answers(ss[i].legs, id)
    ensures ss[i].reqs[rid].phase == Finished(Raised) ==>
      forall id <- ss[i].legs :: id.0 == rid ==> ss[i].legs[id].phase.Done? && !Answers(ss[i].legs, id)
    ensures ss[i].reqs[rid].phase != Draining(Raised)
  {
    EveryRun(c, evs, ss, i);
    EveryRunTells(c, evs, ss, i);
    hide IsRun, Inv, Known;
    InvOf(c, ss[i], rid);
    assert Tells(ss[i].legs, rid, ss[i].reqs[rid]);
    hide AllTell;
  }

  // ----- Why a request goes on, raises or is aborted -------------------------------------------------------

  /** Why `ev` takes request `rid` past the candidate it is at: the provider was asked already as a partner or its
      breaker refuses; its call failed and another provider may succeed; or both calls of a pair failed, where
      the first one's error decides unless the second met the deadline. */
  ghost predicate GoesOnBy(c: RouterConfig, s: Sys, ev: SysEvent, rid: nat)
    requires Known(c, s) && rid in s.reqs
  {
    var r := s.reqs[rid];
    var e1, e2 := FailureOf(s.legs, (rid, r.index)), FailureOf(s.legs, (rid, r.index + 1));
    && r.index < |r.cands|
    && match ev
       case Loop(at) => at == rid && r.phase.Looping? && (r.cands[r.index] in r.skip || Refuses(c, s, r.cands[r.index]))
       case Resume(at) => at == rid && !r.phase.Hedged? && !r.phase.StreamOpen? && e1.Some? && GoesOn(c, e1.value)
       case Collect(at, _) =>
         at == rid && r.phase.Hedged? && e1.Some? && e2.Some? && GoesOn(c, e1.value) && !e2.value.Deadline?
       case _ => false
  }

  /** Why `ev` makes request `rid` raise: no candidate is left; its call failed in a way no other provider can help,
      or after its stream had begun; or both calls of a pair failed and it may not go on. */
  ghost predicate RaisesBy(c: RouterConfig, s: Sys, ev: SysEvent, rid: nat)
    requires rid in s.reqs
  {
    var r := s.reqs[rid];
    var e1, e2 := FailureOf(s.legs, (rid, r.index)), FailureOf(s.legs, (rid, r.index + 1));
    match ev
    case Loop(at) => at == rid && r.phase.Looping? && r.index == |r.cands|
    case Resume(at) => at == rid && !r.phase.Hedged? && e1.Some? && (r.phase.StreamOpen? || !GoesOn(c, e1.value))
    case Collect(at, _) =>
      at == rid && r.phase.Hedged? && e1.Some? && e2.Some? && (!GoesOn(c, e1.value) || e2.value.Deadline?)
    case _ => false
  }

  ghost predicate Refuses(c: RouterConfig, s: Sys, p: string)
    requires Known(c, s)
  {
    p in c.providers && !Breaker.WouldAllow(c.providers[p].breaker, s.breakers[p], s.now)
  }

  /** What one step may do to the course of a request. */
  ghost predicate Course(c: RouterConfig, s: Sys, ev: SysEvent, s': Sys, rid: nat)
    requires Known(c, s) && rid in s.reqs && rid in s'.reqs
  {
    var r, r' := s.reqs[rid], s'.reqs[rid];
    && r'.cands == r.cands
    && (if r'.index == r.index then true else r'.index == r.index + 1 && r'.phase.Looping? && GoesOnBy(c, s, ev, rid))
    && (r'.phase == Finished(Raised) && r.phase != Finished(Raised) ==> RaisesBy(c, s, ev, rid))
    && (Final(r'.phase, Aborted) <==> Final(r.phase, Aborted) || ev == Abort(rid))
    && (r.phase.Finished? ==> r'.phase == r.phase)
    && (forall p <- r'.skip :: p in r.skip || Partnered(s, ev, s', rid, p))
  }

  /** `ev` asks `p` as the partner of the call awaited. */
  ghost predicate Partnered(s: Sys, ev: SysEvent, s': Sys, rid: nat, p: string)
    requires rid in s.reqs
  {
    var r := s.reqs[rid];
    && ev == HedgeTimer(rid) && r.index + 1 < |r.cands| && p == r.cands[r.index + 1]
    && (rid, r.index + 1) !in s.legs && (rid, r.index + 1) in s'.legs
  }

  lemma SameCourse(c: RouterConfig, s: Sys, ev: SysEvent, s': Sys, rid: nat)
    requires Known(c, s) && rid in s.reqs && rid in s'.reqs && s'.reqs[rid] == s.reqs[rid] && ev != Abort(rid)
    ensures Course(c, s, ev, s', rid)
  {
    hide Known;
  }

  lemma LoopCourse(c: RouterConfig, s: Sys, rid: nat)
    requires Known(c, s) && rid in s.reqs && s.reqs[rid].phase.Looping?
    ensures var s' := LoopStep(c, s, rid); rid in s'.reqs && Course(c, s, Loop(rid), s', rid)
  {
    assert RequestOk(c, s.reqs[rid]);
  }

  lemma ResumedCourse(c: RouterConfig, r: Request, p: Phase)
    requires p.Done? || p.Streaming?
    ensures var r' := Resumed(c, r, p);
      && r'.cands == r.cands && r'.skip == r.skip && !r'.phase.Draining?
      && (if p.Done? && p.outcome.Failed? then
            if r.phase.StreamOpen? || !GoesOn(c, p.outcome.kind) then r' == r.(phase := Finished(Raised))
            else r' == r.(phase := Looping, index := r.index + 1)
          else r'.index == r.index && r'.phase != Finished(Raised))
      && (r'.phase == Finished(Aborted) <==> p == Done(Cancelled))
  {
  }

  lemma ResumeCourse(c: RouterConfig, s: Sys, rid: nat)
    requires Known(c, s) && CanResume(s, rid) && Tells(s.legs, rid, s.reqs[rid]) && ReqInv(s.legs, rid, s.reqs[rid])
    ensures var s' := ResumeStep(c, s, rid); rid in s'.reqs && Course(c, s, Resume(rid), s', rid)
  {
    var r, s' := s.reqs[rid], ResumeStep(c, s, rid);
    if r.phase.Draining? {
      hide Known, ReqInv;
      assert s'.reqs[rid] == r.(phase := Finished(r.phase.final));
    } else {
      var p := s.legs[(rid, r.index)].phase;
      assert p != Done(Cancelled) && r.index < |r.cands|;
      hide Known, ReqInv, Tells, Resumed, GoesOn;
      ResumedCourse(c, r, p);
      assert s'.reqs[rid] == Resumed(c, r, p);
    }
  }

  lemma HedgeCourse(c: RouterConfig, s: Sys, rid: nat)
    requires Known(c, s) && LegsOk(c, s) && ReqsOk(s) && HedgeTimerDue(s, rid) && s.reqs[rid].index + 1 < |s.reqs[rid].cands|
    ensures var s' := HedgeStep(c, s, rid); rid in s'.reqs && Course(c, s, HedgeTimer(rid), s', rid)
  {
    assert s.reqs[rid].phase.HedgeFirst?;
    hide LegsOk, ReqsOk, HedgeStep, Known, Awaits, NewLeg, HedgeTimerDue;
    var b := HedgeShape(c, s, rid);
    PartnerNotUsed(c, s, rid);
  }

  lemma PairCourse(c: RouterConfig, r: Request, second: bool, k: ErrorKind)
    requires r.phase.Hedged? && (if second then r.phase.second.None? else r.phase.first.None?)
    ensures var r' := PairFailed(c, r, second, k);
      var e1, e2 := if second then r.phase.first else Some(k), if second then Some(k) else r.phase.second;
      && r'.cands == r.cands && r'.skip == r.skip
      && if e1.None? || e2.None? then r'.index == r.index && r'.phase.Hedged?
         else if GoesOn(c, e1.value) && !e2.value.Deadline? then r' == r.(phase := Looping, index := r.index + 1)
         else r' == r.(phase := Finished(Raised))
  {
  }

  lemma AnswerCourse(c: RouterConfig, s: Sys, ev: SysEvent, rid: nat)
    requires Known(c, s) && rid in s.reqs && s.reqs[rid].phase.Hedged? && ev != Abort(rid)
    ensures var s' := Drain(s, rid, Returned); rid in s'.reqs && Course(c, s, ev, s', rid)
  {
    hide Known, CancelBoth;
  }

  lemma PairEndsCourse(c: RouterConfig, s: Sys, ev: SysEvent, rid: nat, second: bool, k: ErrorKind)
    requires Known(c, s) && rid in s.reqs && s.reqs[rid].phase.Hedged? && s.reqs[rid].index < |s.reqs[rid].cands|
    requires ev == Collect(rid, second)
    requires var r := s.reqs[rid];
      && (if second then r.phase.second.None? else r.phase.first.None?)
      && FailureOf(s.legs, (rid, if second then r.index + 1 else r.index)) == Some(k)
      && (r.phase.first.Some? ==> FailureOf(s.legs, (rid, r.index)) == r.phase.first)
      && (r.phase.second.Some? ==> FailureOf(s.legs, (rid, r.index + 1)) == r.phase.second)
    ensures Course(c, s, ev, WithRequest(s, rid, PairFailed(c, s.reqs[rid], second, k)), rid)
  {
    PairCourse(c, s.reqs[rid], second, k);
    hide Known, PairFailed, GoesOn, FailureOf;
  }

  lemma CollectCourse(c: RouterConfig, s: Sys, rid: nat, second: bool)
    requires Known(c, s) && CanCollect(s, rid, second) && Tells(s.legs, rid, s.reqs[rid]) && ReqInv(s.legs, rid, s.reqs[rid])
    ensures var s' := CollectStep(c, s, rid, second); rid in s'.reqs && Course(c, s, Collect(rid, second), s', rid)
  {
    var r := s.reqs[rid];
    var o := s.legs[(rid, if second then r.index + 1 else r.index)].phase.outcome;
    assert !o.Cancelled? && r.index < |r.cands|;
    assert r.phase.first.Some? ==> FailureOf(s.legs, (rid, r.index)) == r.phase.first;
    assert r.phase.second.Some? ==> FailureOf(s.legs, (rid, r.index + 1)) == r.phase.second;
    hide Known, Course, PairFailed, Drain, Tells, ReqInv, CancelledOnlyAtEnd, OnlyAwaitedAnswers;
    if o.Failed? {
      PairEndsCourse(c, s, Collect(rid, second), rid, second, o.kind);
    } else {
      AnswerCourse(c, s, Collect(rid, second), rid);
    }
  }

  lemma AbortCourse(c: RouterConfig, s: Sys, rid: nat)
    requires Known(c, s) && CanAbort(s, rid)
    ensures var s' := AbortStep(s, rid); rid in s'.reqs && Course(c, s, Abort(rid), s', rid)
  {
  }

  /** The request whose own step `ev` is, or that it cancels. */
  function Actor(ev: SysEvent): Option<nat> {
    match ev
    case Loop(rid) => Some(rid)
    case Resume(rid) => Some(rid)
    case HedgeTimer(rid) => Some(rid)
    case Collect(rid, _) => Some(rid)
    case Abort(rid) => Some(rid)
    case _ => None
  }

  lemma OwnCourse(c: RouterConfig, s: Sys, ev: SysEvent, rid: nat)
    requires Inv(c, s) && AllTell(s) && EnabledAt(c, s, ev) && Actor(ev) == Some(rid)
    ensures Known(c, s) && rid in s.reqs && rid in Step(c, s, ev).reqs && Course(c, s, ev, Step(c, s, ev), rid)
  {
    InvOf(c, s, rid);
    InvParts(c, s);
    assert rid in s.reqs ==> Tells(s.legs, rid, s.reqs[rid]);
    hide Inv, Known, AllTell, Tells, LoopStep, ResumeStep, HedgeStep, CollectStep, AbortStep, ReqInv, LegsOk, ReqsOk,
         Accounts, Timely, Course;
    match ev
    case Loop(at) => LoopCourse(c, s, at);
    case Resume(at) => ResumeCourse(c, s, at);
    case HedgeTimer(at) => HedgeCourse(c, s, at);
    case Collect(at, second) => CollectCourse(c, s, at, second);
    case Abort(at) => AbortCourse(c, s, at);
  }

  lemma LoopMovesOne(c: RouterConfig, s: Sys, at: nat, rid: nat)
    requires Known(c, s) && at in s.reqs && s.reqs[at].phase.Looping? && rid in s.reqs && rid != at
    ensures rid in LoopStep(c, s, at).reqs && LoopStep(c, s, at).reqs[rid] == s.reqs[rid]
  {
  }

  lemma HedgeMovesOne(c: RouterConfig, s: Sys, at: nat, rid: nat)
    requires Known(c, s) && HedgeTimerDue(s, at) && s.reqs[at].index + 1 < |s.reqs[at].cands| && rid in s.reqs && rid != at
    ensures rid in HedgeStep(c, s, at).reqs && HedgeStep(c, s, at).reqs[rid] == s.reqs[rid]
  {
  }

  lemma DrainMovesOne(s: Sys, at: nat, final: Final, rid: nat)
    requires at in s.reqs && rid in s.reqs && rid != at
    ensures rid in Drain(s, at, final).reqs && Drain(s, at, final).reqs[rid] == s.reqs[rid]
  {
  }

  /** An event of another request, a call's step and the clock leave a request as it is. */
  lemma OthersCourse(c: RouterConfig, s: Sys, ev: SysEvent, rid: nat)
    requires Known(c, s) && EnabledAt(c, s, ev) && rid in s.reqs && Actor(ev) != Some(rid)
    ensures rid in Step(c, s, ev).reqs && Step(c, s, ev).reqs[rid] == s.reqs[rid]
  {
    hide Known, LoopStep, HedgeStep, Drain, CanResume, CanTick, HedgeTimerDue, EnabledIn, Next;
    match ev
    case Loop(at) => LoopMovesOne(c, s, at, rid);
    case HedgeTimer(at) => HedgeMovesOne(c, s, at, rid);
    case Collect(at, _) => DrainMovesOne(s, at, Returned, rid); DrainMovesOne(s, at, Aborted, rid);
    case Abort(at) => DrainMovesOne(s, at, Aborted, rid);
    case _ =>
  }

  /** In every run each step keeps every request on course. */
  lemma StepCourse(c: RouterConfig, evs: seq<SysEvent>, ss: seq<Sys>, j: nat, rid: nat)
    requires IsRun(c, evs, ss) && j < |evs| && rid in ss[j].reqs
    ensures Known(c, ss[j]) && rid in ss[j + 1].reqs && Course(c, ss[j], evs[j], ss[j + 1], rid)
  {
    EveryRun(c, evs, ss, j);
    EveryRunTells(c, evs, ss, j);
    hide Inv, Known, AllTell, Step, EnabledAt, Start, Course;
    assert EnabledAt(c, ss[j], evs[j]) && ss[j + 1] == Step(c, ss[j], evs[j]);
    InvOf(c, ss[j], rid);
    if Actor(evs[j]) == Some(rid) {
      OwnCourse(c, ss[j], evs[j], rid);
    } else {
      OthersCourse(c, ss[j], evs[j], rid);
      SameCourse(c, ss[j], evs[j], ss[j + 1], rid);
    }
  }

  /** A request not there yet arrives with its first candidate to try. */
  lemma Appears(c: RouterConfig, evs: seq<SysEvent>, ss: seq<Sys>, j: nat, rid: nat)
    requires IsRun(c, evs, ss) && j < |evs| && rid !in ss[j].reqs && rid in ss[j + 1].reqs
    ensures var r := ss[j + 1].reqs[rid]; r.index == 0 && r.phase.Looping? && r.skip == {}
  {
    hide Step, EnabledAt, Start;
    assert EnabledAt(c, ss[j], evs[j]) && ss[j + 1] == Step(c, ss[j], evs[j]);
    EveryRun(c, evs, ss, j);
    hide IsRun, Inv;
    InvOf(c, ss[j], rid);
    NewcomerOnly(c, ss[j], evs[j], rid);
  }

  lemma NewcomerOnly(c: RouterConfig, s: Sys, ev: SysEvent, rid: nat)
    requires Known(c, s) && EnabledAt(c, s, ev) && rid !in s.reqs && rid in Step(c, s, ev).reqs
    ensures var r := Step(c, s, ev).reqs[rid]; r.index == 0 && r.phase.Looping? && r.skip == {}
  {
    hide Known, LoopStep, HedgeStep, Drain, CanTick, HedgeTimerDue, EnabledIn, Next, Resumed, PairFailed;
    match ev
    case Loop(at) => LoopNoNew(c, s, at, rid);
    case HedgeTimer(at) => HedgeNoNew(c, s, at, rid);
    case Collect(at, _) => DrainNoNew(s, at, Returned, rid); DrainNoNew(s, at, Aborted, rid);
    case Abort(at) => DrainNoNew(s, at, Aborted, rid);
    case _ =>
  }

  lemma LoopNoNew(c: RouterConfig, s: Sys, at: nat, rid: nat)
    requires Known(c, s) && at in s.reqs && s.reqs[at].phase.Looping? && rid !in s.reqs
    ensures rid !in LoopStep(c, s, at).reqs
  {
  }

  lemma HedgeNoNew(c: RouterConfig, s: Sys, at: nat, rid: nat)
    requires Known(c, s) && HedgeTimerDue(s, at) && s.reqs[at].index + 1 < |s.reqs[at].cands| && rid !in s.reqs
    ensures rid !in HedgeStep(c, s, at).reqs
  {
  }

  lemma DrainNoNew(s: Sys, at: nat, final: Final, rid: nat)
    requires at in s.reqs && rid !in s.reqs
    ensures rid !in Drain(s, at, final).reqs
  {
  }

  /** In every run: a candidate that was passed was passed for a reason. */
  lemma {:induction false} PassedFor(c: RouterConfig, evs: seq<SysEvent>, ss: seq<Sys>, m: nat, rid: nat, i: nat)
    returns (j: nat)
    requires IsRun(c, evs, ss) && m < |ss| && rid in ss[m].reqs && i < ss[m].reqs[rid].index
    ensures j < m && rid in ss[j].reqs && ss[j].reqs[rid].index == i
    ensures Known(c, ss[j]) && GoesOnBy(c, ss[j], evs[j], rid)
  {
    hide Step, EnabledAt, Start, GoesOnBy, RaisesBy, Partnered, Known;
    assert m > 0 by { StartsEmpty(c, evs, ss); }
    if rid !in ss[m - 1].reqs {
      Appears(c, evs, ss, m - 1, rid);
    } else {
      StepCourse(c, evs, ss, m - 1, rid);
      if i < ss[m - 1].reqs[rid].index {
        j := PassedFor(c, evs, ss, m - 1, rid, i);
      } else {
        j := m - 1;
      }
    }
  }

  lemma StartsEmpty(c: RouterConfig, evs: seq<SysEvent>, ss: seq<Sys>)
    requires IsRun(c, evs, ss)
    ensures ss[0].reqs == map[]
  {
  }

  /** A provider that is skipped was asked before as the partner of a call. */
  lemma {:induction false} SkippedWasAsked(c: RouterConfig, evs: seq<SysEvent>, ss: seq<Sys>, m: nat, rid: nat, p: string)
    returns (j: nat)
    requires IsRun(c, evs, ss) && m < |ss| && rid in ss[m].reqs && p in ss[m].reqs[rid].skip
    ensures j < m && rid in ss[j].reqs && Partnered(ss[j], evs[j], ss[j + 1], rid, p)
  {
    hide Step, EnabledAt, Start, GoesOnBy, RaisesBy, Partnered, Known;
    assert m > 0 by { StartsEmpty(c, evs, ss); }
    if rid !in ss[m - 1].reqs {
      Appears(c, evs, ss, m - 1, rid);
    } else {
      StepCourse(c, evs, ss, m - 1, rid);
      if p in ss[m - 1].reqs[rid].skip {
        j := SkippedWasAsked(c, evs, ss, m - 1, rid, p);
      } else {
        j := m - 1;
      }
    }
  }

  /** In every run: a request that raised did so for a reason. */
  lemma {:induction false} RaisedFor(c: RouterConfig, evs: seq<SysEvent>, ss: seq<Sys>, m: nat, rid: nat)
    returns (j: nat)
    requires IsRun(c, evs, ss) && m < |ss| && rid in ss[m].reqs && ss[m].reqs[rid].phase == Finished(Raised)
    ensures j < m && rid in ss[j].reqs && RaisesBy(c, ss[j], evs[j], rid)
  {
    hide Step, EnabledAt, Start, GoesOnBy, RaisesBy, Partnered, Known;
    assert m > 0 by { StartsEmpty(c, evs, ss); }
    if rid !in ss[m - 1].reqs {
      Appears(c, evs, ss, m - 1, rid);
    } else {
      StepCourse(c, evs, ss, m - 1, rid);
      if ss[m - 1].reqs[rid].phase == Finished(Raised) {
        j := RaisedFor(c, evs, ss, m - 1, rid);
      } else {
        j := m - 1;
      }
    }
  }

  /** The caller cancelled the request within the first `m` events. */
  ghost predicate Cancels(evs: seq<SysEvent>, m: nat, rid: nat)
    requires m <= |evs|
  {
    exists j :: 0 <= j < m && evs[j] == Abort(rid)
  }

  lemma {:induction false} AbortedIff(c: RouterConfig, evs: seq<SysEvent>, ss: seq<Sys>, m: nat, rid: nat)
    requires IsRun(c, evs, ss) && m < |ss|
    ensures rid in ss[m].reqs ==> (Final(ss[m].reqs[rid].phase, Aborted) <==> Cancels(evs, m, rid))
    ensures rid !in ss[m].reqs ==> !Cancels(evs, m, rid)
  {
    hide Step, EnabledAt, Start, GoesOnBy, RaisesBy, Partnered, Known;
    if m == 0 {
      StartsEmpty(c, evs, ss);
    } else {
      AbortedIff(c, evs, ss, m - 1, rid);
      assert Cancels(evs, m, rid) <==> Cancels(evs, m - 1, rid) || evs[m - 1] == Abort(rid);
      if rid in ss[m - 1].reqs {
        StepCourse(c, evs, ss, m - 1, rid);
      } else {
        NotCancelledYet(c, evs, ss, m - 1, rid);
        if rid in ss[m].reqs {
          Appears(c, evs, ss, m - 1, rid);
        }
      }
    }
  }

  lemma NotCancelledYet(c: RouterConfig, evs: seq<SysEvent>, ss: seq<Sys>, j: nat, rid: nat)
    requires IsRun(c, evs, ss) && j < |evs| && rid !in ss[j].reqs
    ensures evs[j] != Abort(rid)
  {
    assert EnabledAt(c, ss[j], evs[j]);
  }

  /** How a request that is over ended: aborted if and only if its caller cancelled it; and otherwise with a
      response if and only if one of its calls was answered. */
  lemma EndsHow(c: RouterConfig, evs: seq<SysEvent>, ss: seq<Sys>, m: nat, rid: nat)
    requires IsRun(c, evs, ss) && m < |ss| && rid in ss[m].reqs && ss[m].reqs[rid].phase.Finished?
    ensures var final := ss[m].reqs[rid].phase.final;
      && (final.Aborted? <==> Cancels(evs, m, rid))
      && (!final.Aborted? ==> (final.Returned? <==> exists id <- ss[m].legs :: id.0 == rid && Answers(ss[m].legs, id)))
  {
    hide IsRun, Cancels;
    AbortedIff(c, evs, ss, m, rid);
    EndsAsAnswered(c, evs, ss, m, rid);
  }

  // ----- What the other steps of a request do -------------------------------------------------------------

  /** A fresh call of the candidate at `pos`. */
  ghost predicate Opens(s: Sys, s': Sys, rid: nat, pos: nat)
    requires rid in s.reqs
  {
    && pos < |s.reqs[rid].cands| && (rid, pos) in s'.legs && s'.legs == s.legs[(rid, pos) := s'.legs[(rid, pos)]]
    && s'.legs[(rid, pos)].phase.Entered? && s'.legs[(rid, pos)].provider == s.reqs[rid].cands[pos]
    && s'.legs[(rid, pos)].attempts == []
  }

  /** A candidate that is not skipped and whose breaker admits a call is called; and after the hedge delay the next one
      is asked too, if hedging is on, the request does not stream, and that one is another provider not yet asked. */
  lemma CallsIfAdmitted(c: RouterConfig, s: Sys, rid: nat)
    requires Known(c, s) && rid in s.reqs && s.reqs[rid].phase.Looping? && s.reqs[rid].index < |s.reqs[rid].cands|
    requires var p := s.reqs[rid].cands[s.reqs[rid].index]; p !in s.reqs[rid].skip && !Refuses(c, s, p)
    ensures EnabledAt(c, s, Loop(rid))
    ensures var s', r := Step(c, s, Loop(rid)), s.reqs[rid];
      var another := r.index + 1 < |r.cands| && r.cands[r.index + 1] != r.cands[r.index] && r.cands[r.index + 1] !in r.skip;
      && Opens(s, s', rid, r.index)
      && s'.reqs == s.reqs[rid := r.(phase := if r.hedge.Some? && !r.streaming && another
                                              then HedgeFirst(s.now + r.hedge.value) else Direct)]
  {
    assert RequestOk(c, s.reqs[rid]);
    hide Known, RequestOk;
  }

  /** When the delay is over the partner is called if and only if its breaker admits it; it will not be asked again. */
  lemma AsksPartnerIf(c: RouterConfig, s: Sys, rid: nat)
    requires Known(c, s) && EnabledAt(c, s, HedgeTimer(rid))
    ensures var s', r := Step(c, s, HedgeTimer(rid)), s.reqs[rid];
      var p := r.cands[r.index + 1];
      if Refuses(c, s, p) then s'.reqs == s.reqs[rid := r.(phase := PrimaryOnly)] && s'.legs == s.legs
      else Opens(s, s', rid, r.index + 1)
           && s'.reqs == s.reqs[rid := r.(phase := Hedged(None, None), skip := r.skip + {p})]
  {
    assert RequestOk(c, s.reqs[rid]);
    hide Known, RequestOk, HedgeTimerDue;
  }

  /** A cancelled request cancels the calls it waits for; one in its first hedge wait is over at once. */
  lemma AbortCancels(c: RouterConfig, s: Sys, rid: nat)
    requires Known(c, s) && EnabledAt(c, s, Abort(rid))
    ensures var s', r := Step(c, s, Abort(rid)), s.reqs[rid];
      if r.phase.HedgeFirst? then s'.reqs == s.reqs[rid := r.(phase := Finished(Aborted))] && s'.legs == s.legs
      else s'.reqs == s.reqs[rid := r.(phase := Draining(Aborted))] && Marked(s.legs, s'.legs, rid, r.index)
  {
    CancelBothMarks(s, rid, s.reqs[rid].index);
    hide Known, CancelBoth, Marked;
  }

  /** The first answer of a pair is the response, and the other call is cancelled. */
  lemma FirstAnswerWins(c: RouterConfig, s: Sys, rid: nat, second: bool)
    requires Known(c, s) && EnabledAt(c, s, Collect(rid, second))
    requires Answers(s.legs, (rid, if second then s.reqs[rid].index + 1 else s.reqs[rid].index))
    ensures var s', r := Step(c, s, Collect(rid, second)), s.reqs[rid];
      s'.reqs == s.reqs[rid := r.(phase := Draining(Returned))] && Marked(s.legs, s'.legs, rid, r.index)
  {
    CollectsAnswer(c, s, rid, second);
    CancelBothMarks(s, rid, s.reqs[rid].index);
    hide Known, CancelBoth, Marked, PairFailed, CollectStep, CanCollect;
  }

  /** A request arrives with its candidates, its deadline counted from now, and none of them tried. */
  lemma ArrivesWith(c: RouterConfig, s: Sys, ev: SysEvent)
    requires ev.Arrive? && EnabledAt(c, s, ev)
    ensures ev.rid !in s.reqs && Step(c, s, ev).legs == s.legs && Step(c, s, ev).now == s.now
    ensures Step(c, s, ev).reqs == s.reqs[ev.rid := Step(c, s, ev).reqs[ev.rid]]
    ensures var r := Step(c, s, ev).reqs[ev.rid];
      && r.cands == ev.cands && r.arrived == s.now && r.hedge == ev.hedge && r.streaming == ev.streaming
      && r.deadline == (if ev.seconds.Some? then Some(s.now + ev.seconds.value) else None)
      && r.index == 0 && r.skip == {} && r.phase.Looping?
  {
  }

  lemma CollectsAnswer(c: RouterConfig, s: Sys, rid: nat, second: bool)
    requires CanCollect(s, rid, second)
    requires Answers(s.legs, (rid, if second then s.reqs[rid].index + 1 else s.reqs[rid].index))
    ensures CollectStep(c, s, rid, second) == Drain(s, rid, Returned)
  {
    hide Drain, PairFailed;
  }
}
