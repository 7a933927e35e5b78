/** The agent loop: call the model, run its tools, wait for a human where needed, resume later. The
    model, the tools, the limits and the token estimate are arbitrary functions of the environment. */
module Harness {
  import opened Common
  import opened Context

  datatype Agent = Agent(approvalTools: set<string>, askWhenUncertain: bool, plan: bool, maxSteps: nat,
                         contextTokens: int, keepRecent: nat)

  datatype Reply = Answer(text: string) | ToolCalls(text: string, calls: seq<Call>) | ModelError | Shutdown
  datatype ToolResult = Output(text: string) | NeedsApproval
  datatype Limit = Pause | CancelRun | Kill | DeadlineHit | MaxSteps | CostLimit | TokenLimit

  /** How the environment answers the `n`-th question it is asked. */
  datatype World = World(reply: nat -> Reply, tool: nat -> ToolResult, limit: nat -> Option<Limit>,
                         stalled: seq<Message> -> bool, count: seq<Message> -> int, note: seq<Message> -> string)

  datatype Status = Created | Running | WaitingApproval | Paused | Completed | Failed | Cancelled
  datatype Reason = NoReason | Error | ShutDown | Stalled | Done | Limited(limit: Limit)

  datatype LogEvent = Asked(call: Call) | Decided(call: Call, approved: bool) | Ran(call: Call)

  /** What the environment was asked, with the number of the question. */
  datatype Ask = AskLimit(n: nat) | AskPlan(n: nat) | AskModel(n: nat) | AskTool(n: nat, call: Call)

  /** The answer lets the run go on: no limit is reached, the model answers and, within the loop, with tool calls, and
      the tool has an output. */
  ghost predicate GoesOn(w: World, a: Ask) {
    match a
    case AskLimit(n) => w.limit(n).None?
    case AskPlan(n) => !w.reply(n).ModelError? && !w.reply(n).Shutdown?
    case AskModel(n) => w.reply(n).ToolCalls? && w.reply(n).calls != []
    case AskTool(n, _) => w.tool(n).Output?
  }

  /** The model's answer ends the run with `text`. */
  predicate Concludes(r: Reply, text: string) {
    (r.Answer? && r.text == text) || (r.ToolCalls? && r.calls == [] && r.text == text)
  }

  const REVIEW_TOOL: string := "request_human_review"
  const PLAN_MARK: string := "\n\n[Plan]\n"
  const FOLLOW: string := "\n\nFollow the plan; revise it if a step fails."

  // ----- Histories with unanswered calls ------------------------------------------------

  /** `msgs` is well formed but for the calls `left` of its last assistant message, still to be answered. */
  ghost predicate Open(msgs: seq<Message>, left: seq<Call>) {
    exists h, text, done, results :: OpenAt(msgs, left, h, text, done, results)
  }

  ghost predicate OpenAt(msgs: seq<Message>, left: seq<Call>, h: seq<Message>, text: string, done: seq<Call>,
                         results: seq<Message>) {
    WellFormed(h) && Results(results, done) && msgs == h + [Assistant(text, done + left)] + results
  }

  lemma AskOpens(h: seq<Message>, text: string, calls: seq<Call>)
    requires WellFormed(h)
    ensures Open(h + [Assistant(text, calls)], calls)
  {
    assert [] + calls == calls;
    assert h + [Assistant(text, calls)] + [] == h + [Assistant(text, calls)];
    assert OpenAt(h + [Assistant(text, calls)], calls, h, text, [], []);
  }

  lemma ResultAnswers(msgs: seq<Message>, left: seq<Call>, content: string)
    requires left != [] && Open(msgs, left)
    ensures Open(msgs + [Tool(content, left[0].id)], left[1..])
  {
    var h, text, done, results :| OpenAt(msgs, left, h, text, done, results);
    var m := Tool(content, left[0].id);
    assert done + left == done + [left[0]] + left[1..];
    assert msgs + [m] == h + [Assistant(text, done + left)] + (results + [m]);
    assert OpenAt(msgs + [m], left[1..], h, text, done + [left[0]], results + [m]);
  }

  lemma CallBlock(text: string, calls: seq<Call>, results: seq<Message>)
    requires Results(results, calls)
    ensures Blocks([Assistant(text, calls)] + results)
  {
    var block := [Assistant(text, calls)] + results;
    assert block[1..|calls| + 1] == results && block[|calls| + 1..] == [];
  }

  lemma AppendBlock(h: seq<Message>, block: seq<Message>)
    requires WellFormed(h) && Blocks(block)
    ensures WellFormed(h + block)
  {
    TailOfAppend(h, block);
    BlocksAppend(h[1..], block);
  }

  lemma TailOfAppend(h: seq<Message>, block: seq<Message>)
    requires h != []
    ensures (h + block)[1..] == h[1..] + block
  {
  }

  lemma AllAnswered(msgs: seq<Message>)
    requires Open(msgs, [])
    ensures WellFormed(msgs)
  {
    var h, text, done, results :| OpenAt(msgs, [], h, text, done, results);
    assert done + [] == done;
    CallBlock(text, done, results);
    AppendBlock(h, [Assistant(text, done)] + results);
    assert msgs == h + ([Assistant(text, done)] + results);
  }

  lemma AnswerCloses(h: seq<Message>, text: string)
    requires WellFormed(h)
    ensures WellFormed(h + [Assistant(text, [])])
  {
    CallBlock(text, [], []);
    assert [Assistant(text, [])] + [] == [Assistant(text, [])];
    AppendBlock(h, [Assistant(text, [])]);
  }

  // ----- The human's decisions ---------------------------------------------------------------

  /** A tool that needs approval runs only right after a human, asked about that very call, approved it. */
  ghost predicate Approved(log: seq<LogEvent>, approvalTools: set<string>) {
    forall i :: 0 <= i < |log| && log[i].Ran? && log[i].call.name in approvalTools ==>
      i >= 2 && log[i - 1] == Decided(log[i].call, true) && log[i - 2] == Asked(log[i].call)
  }

  lemma DecisionKeepsApproved(log: seq<LogEvent>, tools: set<string>, e: LogEvent)
    requires Approved(log, tools) && !e.Ran?
    ensures Approved(log + [e], tools)
  {
  }

  lemma RunKeepsApproved(log: seq<LogEvent>, tools: set<string>, call: Call)
    requires Approved(log, tools)
    requires call.name in tools ==>
      |log| >= 2 && log[|log| - 1] == Decided(call, true) && log[|log| - 2] == Asked(call)
    ensures Approved(log + [Ran(call)], tools)
  {
  }

  predicate Contains(s: string, t: string) {
    exists i :: 0 <= i <= |s| && t <= s[i..]
  }

  class HarnessRunner {
    const agent: Agent
    const task: string

    // the durable record
    var stored: seq<Message>
    var pending: Option<seq<Call>>
    var status: Status
    var reason: Reason
    var step: nat

    // the working copy of one execution, and the number of questions asked of the environment
    var msgs: seq<Message>
    var asked: nat

    /** Every history sent to the model, and what happened to calls that humans decide about. */
    ghost var sent: seq<seq<Message>>
    ghost var log: seq<LogEvent>
    ghost var asks: seq<Ask>

    /** A human must decide before this call is made. */
    predicate MustAsk(call: Call)
    {
      call.name in agent.approvalTools || Review(call)
    }

    predicate Review(call: Call)
    {
      call.name == REVIEW_TOOL && agent.askWhenUncertain
    }

    /** Every question asked from number `from` on let the run go on. */
    ghost predicate WentOn(w: World, from: nat)
      reads this
    {
      from <= |asks| && forall i :: from <= i < |asks| ==> GoesOn(w, asks[i])
    }

    /** The last question was the limit's, and limit `l` was reached: as reported, or by the number of steps. */
    ghost predicate LimitAsked(w: World, l: Limit)
      reads this
    {
      && asks != [] && asks[|asks| - 1].AskLimit?
      && var told := w.limit(asks[|asks| - 1].n);
         told == Some(l)
         || (l == MaxSteps && step >= agent.maxSteps && (told.None? || told.value.CostLimit? || told.value.TokenLimit?))
    }

    /** The last question was the model's, and it failed, or was shut down. */
    ghost predicate ModelSaid(w: World, r: Reply)
      reads this
    {
      asks != [] && (asks[|asks| - 1].AskModel? || asks[|asks| - 1].AskPlan?) && w.reply(asks[|asks| - 1].n) == r
    }

    /** Why an execution that began with question `from` is over: nothing but the last answer stopped it, and what
        status it got for that. */
    ghost predicate StoppedFor(w: World, from: nat)
      reads this
    {
      && from <= |asks|
      && (forall i :: from <= i < |asks| - 1 ==> GoesOn(w, asks[i]))
      && match status
         case Completed =>
           && reason == Done && |asks| > from && asks[|asks| - 1].AskModel? && stored != []
           && stored[|stored| - 1].Assistant? && stored[|stored| - 1].calls == []
           && Concludes(w.reply(asks[|asks| - 1].n), stored[|stored| - 1].content)
         case WaitingApproval =>
           && pending.Some? && pending.value != []
           && (if WentOn(w, from) then MustAsk(pending.value[0])
               else asks[|asks| - 1].AskTool? && asks[|asks| - 1].call == pending.value[0])
         case Failed =>
           if reason.Error? then |asks| > from && ModelSaid(w, ModelError)
           else if reason.Stalled? then WentOn(w, from) && w.stalled(stored)
           else reason.Limited? && |asks| > from && LimitAsked(w, reason.limit)
                && !reason.limit.Pause? && !reason.limit.CancelRun? && !reason.limit.Kill?
         case Cancelled =>
           reason.Limited? && |asks| > from && LimitAsked(w, reason.limit) && (reason.limit.CancelRun? || reason.limit.Kill?)
         case Paused =>
           |asks| > from && if reason.ShutDown? then ModelSaid(w, Shutdown) else reason == Limited(Pause) && LimitAsked(w, Pause)
         case _ => false
    }

    ghost predicate TaskFirst(h: seq<Message>)
    {
      h != [] && h[0].User? && task <= h[0].content
    }

    /** What holds at all times: every history sent so far was acceptable, every run call approved. */
    ghost predicate Clean()
      reads this
    {
      && (forall h <- sent :: WellFormed(h) && TaskFirst(h))
      && Approved(log, agent.approvalTools)
    }

    ghost predicate AsksAbout(calls: seq<Call>)
      reads this
    {
      calls != [] && log != [] && log[|log| - 1] == Asked(calls[0])
    }

    /** Between executions: the stored history is complete, or stops at the call a human is asked about. */
    ghost predicate Valid()
      reads this
    {
      && Clean() && TaskFirst(stored)
      && match pending
         case None => WellFormed(stored)
         case Some(calls) => Open(stored, calls) && AsksAbout(calls)
    }

    predicate IsFinal()
      reads this
    {
      status == Completed || status == Cancelled || (status == Failed && reason != Error)
    }

    constructor (agent: Agent, task: string)
      ensures Valid() && this.agent == agent && this.task == task && sent == [] && log == []
      ensures stored == [User(task)] && pending == None && status == Created
    {
      this.agent, this.task := agent, task;
      stored, pending, status, reason, step := [User(task)], None, Created, NoReason, 0;
      msgs, asked := [], 0;
      sent, log, asks := [], [], [];
    }

    /** `_execute`: run, or continue a run with the human's decision on the call it waits for. */
    method Execute(decision: Option<bool>, w: World)
      requires Valid()
      modifies this
      ensures Valid() && status != Running
      ensures forall h: seq<Message> <- sent :: WellFormed(h) && h != [] && h[0].User? && task <= h[0].content
      ensures Approved(log, agent.approvalTools)
      ensures pending.None? ==> WellFormed(stored)
      ensures old(IsFinal()) ==> stored == old(stored) && status == old(status) && sent == old(sent) && log == old(log)
      ensures old(sent) <= sent && old(log) <= log && old(asks) <= asks
      ensures if old(IsFinal()) then asks == old(asks) else StoppedFor(w, |old(asks)|)
      ensures !old(IsFinal()) && old(pending).Some? && decision.Some? ==>
        && old(pending).value != [] && |log| > |old(log)|
        && log[|old(log)|] == Decided(old(pending).value[0], decision.value)
    {
      if IsFinal() {
        return;
      }
      ghost var from := |asks|;
      msgs := stored;
      var calls := pending;
      status, pending := Running, None;
      var stop := Resume(calls, decision, w, from);
      if !stop {
        Loop(w, from);
      }
    }

    /** The calls the human was asked about, if the run waited for that; else the plan, if one is to be made. */
    method Resume(calls: Option<seq<Call>>, decision: Option<bool>, w: World, ghost from: nat) returns (stop: bool)
      requires Clean() && TaskFirst(msgs) && pending.None? && WentOn(w, from)
      requires if calls.Some? then Open(msgs, calls.value) && AsksAbout(calls.value) else WellFormed(msgs)
      modifies this
      ensures if stop then Valid() && status != Running && StoppedFor(w, from) else Working() && WentOn(w, from)
      ensures old(sent) <= sent && old(log) <= log && old(asks) <= asks
      ensures calls.None? && !(agent.plan && old(step) == 0) ==> !stop && asks == old(asks) && msgs == old(msgs)
      ensures calls.None? && agent.plan && old(step) == 0 && !stop ==>
        if Contains(old(msgs)[0].content, PLAN_MARK) then msgs == old(msgs)
        else asks == old(asks) + [AskLimit(old(asked)), AskPlan(old(asked) + 1)]
             && !w.reply(old(asked) + 1).ModelError? && !w.reply(old(asked) + 1).Shutdown?
             && msgs == Planned(old(msgs), w.reply(old(asked) + 1).text)
      ensures calls.Some? && decision.Some? ==>
        |log| > |old(log)| && log[|old(log)|] == Decided(calls.value[0], decision.value)
    {
      hide StoppedFor, LimitAsked, Valid, Open, Approved;
      if calls.Some? {
        stop := Tools(calls.value, decision, w, from);
        return;
      }
      if agent.plan && step == 0 {
        var reached := LimitReached(w);
        if reached.Some? {
          EndLimited(reached.value, w, from);
          return true;
        }
        var planned := Plan(w, from);
        return !planned;
      }
      return false;
    }

    /** Between model calls: the working copy is complete, nothing is pending. */
    ghost predicate Working()
      reads this
    {
      Clean() && WellFormed(msgs) && TaskFirst(msgs) && pending.None?
    }

    method Loop(w: World, ghost from: nat)
      requires Working() && WentOn(w, from)
      modifies this
      ensures Valid() && status != Running && StoppedFor(w, from)
      ensures old(sent) <= sent && old(log) <= log && old(asks) <= asks
    {
      hide *;
      var over := false;
      while !over
        invariant if over then Valid() && status != Running && StoppedFor(w, from) else Working() && WentOn(w, from)
        invariant old(sent) <= sent && old(log) <= log && old(asks) <= asks
        decreases !over, agent.maxSteps - step
      {
        over := Turn(w, from);
      }
    }

    /** One turn: ask the model, and run the tools it calls. */
    method Turn(w: World, ghost from: nat) returns (over: bool)
      requires Working() && WentOn(w, from)
      modifies this
      ensures if over then Valid() && status != Running && StoppedFor(w, from)
              else Working() && WentOn(w, from) && step == old(step) + 1 <= agent.maxSteps
      ensures old(sent) <= sent && old(log) <= log && old(asks) <= asks
    {
      hide StoppedFor, LimitAsked, Valid, Open, Approved;
      var reached := LimitReached(w);
      if reached.Some? {
        EndLimited(reached.value, w, from);
        return true;
      }
      var reply := Model(w);
      match reply {
        case ModelError =>
          Halt(reply, w, from);
          return true;
        case Shutdown =>
          Halt(reply, w, from);
          return true;
        case Answer(text) =>
          step := step + 1;
          Conclude(text, w, from);
          return true;
        case ToolCalls(text, calls) =>
          step := step + 1;
          if calls == [] {
            Conclude(text, w, from);
            return true;
          }
          over := Act(text, calls, w, from);
      }
    }

    /** All questions from `from` on but the last let the run go on. */
    ghost predicate Until(w: World, from: nat)
      reads this
    {
      from < |asks| && forall i :: from <= i < |asks| - 1 ==> GoesOn(w, asks[i])
    }

    /** The model answered: the run is complete. */
    method Conclude(text: string, w: World, ghost from: nat)
      requires Working() && Until(w, from) && asks[|asks| - 1].AskModel? && Concludes(w.reply(asks[|asks| - 1].n), text)
      modifies this
      ensures Valid() && status == Completed && sent == old(sent) && log == old(log) && asks == old(asks)
      ensures stored == old(msgs) + [Assistant(text, [])] && StoppedFor(w, from)
    {
      AnswerCloses(msgs, text);
      msgs := msgs + [Assistant(text, [])];
      Checkpoint();
      End(Done);
    }

    /** The model failed, or the program shuts down: only a failed run is at its end, and both keep their history. */
    method Halt(r: Reply, w: World, ghost from: nat)
      requires Working() && Until(w, from) && ModelSaid(w, r) && (r.ModelError? || r.Shutdown?)
      modifies this`stored, this`status, this`reason
      ensures Valid() && stored == msgs && StoppedFor(w, from)
      ensures status == if r.ModelError? then Failed else Paused
    {
      Checkpoint();
      if r.ModelError? {
        status, reason := Failed, Error;
      } else {
        status, reason := Paused, ShutDown;
      }
    }

    method EndLimited(l: Limit, w: World, ghost from: nat)
      requires Working() && Until(w, from) && LimitAsked(w, l)
      modifies this`stored, this`status, this`reason
      ensures Valid() && stored == msgs && reason == Limited(l) && StoppedFor(w, from)
    {
      End(Limited(l));
    }

    /** The model asked for tools: run them, checkpoint, and stop if the run waits or has stalled. */
    method Act(text: string, calls: seq<Call>, w: World, ghost from: nat) returns (over: bool)
      requires Working() && calls != [] && WentOn(w, from)
      modifies this
      ensures old(sent) <= sent && old(log) <= log && old(asks) <= asks && step == old(step)
      ensures if over then Valid() && status != Running && StoppedFor(w, from) else Working() && WentOn(w, from)
      ensures !over ==> |msgs| == |old(msgs)| + 1 + |calls| && msgs[..|old(msgs)| + 1] == old(msgs) + [Assistant(text, calls)]
    {
      AskOpens(msgs, text, calls);
      msgs := msgs + [Assistant(text, calls)];
      over := Tools(calls, None, w, from);
      if over {
        return;
      }
      Checkpoint();
      if w.stalled(msgs) {
        End(Stalled);
        return true;
      }
    }

    method LimitReached(w: World) returns (r: Option<Limit>)
      modifies this`asked, this`asks
      ensures asks == old(asks) + [AskLimit(old(asked))] && asked == old(asked) + 1
      ensures if r.None? then step < agent.maxSteps && w.limit(old(asked)).None? else LimitAsked(w, r.value)
    {
      r := w.limit(asked);
      asks := asks + [AskLimit(asked)];
      asked := asked + 1;
      if step >= agent.maxSteps && (r.None? || r.value.CostLimit? || r.value.TokenLimit?) {
        r := Some(MaxSteps);
      }
    }

    /** `_model`: compact the history if it is too long, keep the result, and send it. */
    method Model(w: World) returns (r: Reply)
      requires Working()
      modifies this`msgs, this`asked, this`asks, this`sent
      ensures Working() && sent == old(sent) + [msgs] && msgs[0] == old(msgs[0])
      ensures asks == old(asks) + [AskModel(old(asked))] && r == w.reply(old(asked))
      ensures var rest := Shrunk(old(msgs)[1..], agent.keepRecent);
        if w.count(old(msgs)) <= agent.contextTokens then msgs == old(msgs)
        else if w.count(old(msgs)[..1] + rest) <= agent.contextTokens then msgs == old(msgs)[..1] + rest
        else Shortened(old(msgs)[0], rest, w.count, agent.contextTokens, w.note, msgs)
    {
      var ctx, changed := Compact(msgs, w.count, agent.contextTokens, agent.keepRecent, w.note);
      if changed {
        CompactedIsWellFormed(msgs, agent.keepRecent, ctx);
        msgs := ctx;
      }
      sent := sent + [msgs];
      r := w.reply(asked);
      asks := asks + [AskModel(asked)];
      asked := asked + 1;
    }

    /** The task message with the plan behind it, if there is one. */
    static function Planned(h: seq<Message>, plan: string): seq<Message>
      requires h != []
    {
      if plan == "" then h else h[0 := User(h[0].content + PLAN_MARK + plan + FOLLOW)]
    }

    /** `_plan`: a plan is appended to the task message, once. */
    method Plan(w: World, ghost from: nat) returns (ok: bool)
      requires Working() && WentOn(w, from)
      modifies this
      ensures Clean() && sent == old(sent) && log == old(log) && old(asks) <= asks
      ensures ok ==> Working() && WentOn(w, from)
      ensures !ok ==> Valid() && status != Running && StoppedFor(w, from)
      ensures Contains(old(msgs)[0].content, PLAN_MARK) ==> ok && msgs == old(msgs) && asks == old(asks)
      ensures ok && !Contains(old(msgs)[0].content, PLAN_MARK) ==>
        && asks == old(asks) + [AskPlan(old(asked))] && !w.reply(old(asked)).ModelError? && !w.reply(old(asked)).Shutdown?
        && msgs == Planned(old(msgs), w.reply(old(asked)).text)
    {
      if Contains(msgs[0].content, PLAN_MARK) {
        return true;
      }
      var reply := w.reply(asked);
      asks := asks + [AskPlan(asked)];
      asked := asked + 1;
      match reply {
        case ModelError =>
          Halt(reply, w, from);
          return false;
        case Shutdown =>
          Halt(reply, w, from);
          return false;
        case _ =>
          if reply.text != "" {
            var first := User(msgs[0].content + PLAN_MARK + reply.text + FOLLOW);
            assert [first] + msgs[1..] == msgs[0 := first];
            assert msgs[0 := first][1..] == msgs[1..];
            msgs := msgs[0 := first];
          }
          Checkpoint();
          return true;
      }
    }

    /** `_tools`: run the calls in order; true means that the run now waits for a human. */
    method Tools(calls: seq<Call>, decision: Option<bool>, w: World, ghost from: nat) returns (stop: bool)
      requires Clean() && TaskFirst(msgs) && pending.None? && calls != [] && Open(msgs, calls)
      requires decision.Some? ==> AsksAbout(calls)
      requires WentOn(w, from)
      modifies this
      ensures old(sent) <= sent && old(log) <= log && old(asks) <= asks && step == old(step)
      ensures stop ==> Valid() && status == WaitingApproval && StoppedFor(w, from)
      ensures !stop ==> Working() && WentOn(w, from)
      ensures !stop ==> |msgs| == |old(msgs)| + |calls| && old(msgs) <= msgs
      ensures decision.Some? ==> |log| > |old(log)| && log[|old(log)|] == Decided(calls[0], decision.value)
    {
      var d := decision;
      for i := 0 to |calls|
        invariant Clean() && TaskFirst(msgs) && pending.None? && Open(msgs, calls[i..])
        invariant d.Some? ==> i == 0 && AsksAbout(calls)
        invariant old(sent) <= sent && old(log) <= log && old(asks) <= asks && step == old(step)
        invariant WentOn(w, from) && |msgs| == |old(msgs)| + i && old(msgs) <= msgs
        invariant decision.Some? ==> (if i == 0 then d == decision && log == old(log)
                                      else |log| > |old(log)| && log[|old(log)|] == Decided(calls[0], decision.value))
      {
        assert calls[i..][1..] == calls[i + 1..];
        stop := OneCall(calls[i..], d, w, from);
        if stop {
          return;
        }
        d := None;
      }
      assert calls[|calls|..] == [];
      AllAnswered(msgs);
      return false;
    }

    /** One turn of the loop in `_tools`, for the first of the calls `left`; `decision` is present only if a
        human has just decided about it. */
    method OneCall(left: seq<Call>, decision: Option<bool>, w: World, ghost from: nat) returns (stop: bool)
      requires Clean() && TaskFirst(msgs) && pending.None? && left != [] && Open(msgs, left)
      requires decision.Some? ==> AsksAbout(left)
      requires WentOn(w, from)
      modifies this
      ensures sent == old(sent) && old(log) <= log && old(asks) <= asks && step == old(step)
      ensures stop ==> Valid() && status == WaitingApproval && pending == Some(left) && stored == old(msgs)
      ensures stop ==> StoppedFor(w, from)
      ensures !stop ==> Clean() && TaskFirst(msgs) && pending.None? && Open(msgs, left[1..]) && WentOn(w, from)
      ensures !stop ==> old(msgs) <= msgs && |msgs| == |old(msgs)| + 1 && msgs[|old(msgs)|].Tool?
      ensures decision.None? && MustAsk(left[0]) ==> stop && asks == old(asks) && log == old(log) + [Asked(left[0])]
      ensures decision.Some? && (Review(left[0]) || !decision.value) ==>
        && !stop && asks == old(asks) && log == old(log) + [Decided(left[0], decision.value)]
        && msgs[|old(msgs)|].content == Said(left[0], decision.value)
      ensures decision != Some(false) && (if decision.None? then !MustAsk(left[0]) else !Review(left[0])) ==>
        && asks == old(asks) + [AskTool(old(asked), left[0])]
        && log == old(log) + (if decision.Some? then [Decided(left[0], true)] else []) + [Ran(left[0])]
                  + (if stop then [Asked(left[0])] else [])
        && (stop <==> w.tool(old(asked)).NeedsApproval?)
        && (!stop ==> msgs[|old(msgs)|].content == w.tool(old(asked)).text)
    {
      hide Open, TaskFirst, Approved, WellFormed, StoppedFor, Valid, GoesOn;
      var call := left[0];
      if decision.None? {
        if MustAsk(call) {
          Wait(left, w, from);
          return true;
        }
        stop := Invoke(left, w, from);
        return;
      }
      DecisionKeepsApproved(log, agent.approvalTools, Decided(call, decision.value));
      log := log + [Decided(call, decision.value)];
      if Review(call) || !decision.value {
        AppendResult(left, Said(call, decision.value));
        return false;
      }
      stop := Invoke(left, w, from);
    }

    /** What the model reads in place of an output when a human has decided. */
    function Said(call: Call, approved: bool): string
    {
      if Review(call) then
        if approved then "Human reviewer approved: proceed." else "Human reviewer declined; choose another approach."
      else "Denied by human reviewer; do not retry this call."
    }

    method Invoke(left: seq<Call>, w: World, ghost from: nat) returns (stop: bool)
      requires Clean() && TaskFirst(msgs) && pending.None? && left != [] && Open(msgs, left) && WentOn(w, from)
      requires left[0].name in agent.approvalTools ==>
        |log| >= 2 && log[|log| - 1] == Decided(left[0], true) && log[|log| - 2] == Asked(left[0])
      modifies this
      ensures sent == old(sent) && step == old(step)
      ensures log == old(log) + [Ran(left[0])] + if stop then [Asked(left[0])] else []
      ensures asks == old(asks) + [AskTool(old(asked), left[0])] && (stop <==> w.tool(old(asked)).NeedsApproval?)
      ensures stop ==> Valid() && status == WaitingApproval && pending == Some(left) && stored == old(msgs)
      ensures stop ==> StoppedFor(w, from)
      ensures !stop ==> Clean() && TaskFirst(msgs) && pending.None? && Open(msgs, left[1..]) && WentOn(w, from)
      ensures !stop ==> msgs == old(msgs) + [Tool(w.tool(old(asked)).text, left[0].id)]
    {
      hide Open, TaskFirst, Approved, WellFormed, StoppedFor, Valid;
      RunKeepsApproved(log, agent.approvalTools, left[0]);
      log := log + [Ran(left[0])];
      var result := w.tool(asked);
      asks := asks + [AskTool(asked, left[0])];
      asked := asked + 1;
      if result.NeedsApproval? {
        assert !GoesOn(w, asks[|asks| - 1]);
        Wait(left, w, from);
        return true;
      }
      AppendResult(left, result.text);
      return false;
    }

    method AppendResult(left: seq<Call>, content: string)
      requires left != [] && Open(msgs, left) && TaskFirst(msgs)
      modifies this`msgs
      ensures msgs == old(msgs) + [Tool(content, left[0].id)]
      ensures Open(msgs, left[1..]) && TaskFirst(msgs)
    {
      ResultAnswers(msgs, left, content);
      msgs := msgs + [Tool(content, left[0].id)];
    }

    /** A human must decide: by the agent's rules, or because the tool just said so. */
    ghost predicate Undecided(call: Call, w: World, from: nat)
      reads this
    {
      if WentOn(w, from) then MustAsk(call)
      else Until(w, from) && asks[|asks| - 1].AskTool? && asks[|asks| - 1].call == call
    }

    method Wait(left: seq<Call>, w: World, ghost from: nat)
      requires Clean() && TaskFirst(msgs) && left != [] && Open(msgs, left) && Undecided(left[0], w, from)
      modifies this`stored, this`pending, this`status, this`log
      ensures Valid() && status == WaitingApproval && pending == Some(left) && stored == msgs && StoppedFor(w, from)
      ensures log == old(log) + [Asked(left[0])]
    {
      hide Open, TaskFirst, Approved, WellFormed;
      DecisionKeepsApproved(log, agent.approvalTools, Asked(left[0]));
      stored, pending, status := msgs, Some(left), WaitingApproval;
      log := log + [Asked(left[0])];
    }

    method Checkpoint()
      requires Working()
      modifies this`stored
      ensures stored == msgs && Valid()
    {
      stored := msgs;
    }

    /** `_end`: only a pause can be resumed; every other reason is final. */
    method End(why: Reason)
      requires Working() && (why.Done? || why.Stalled? || why.Limited?)
      modifies this`stored, this`status, this`reason
      ensures Valid() && stored == msgs && reason == why && status != Running
      ensures if why == Limited(Pause) then status == Paused else IsFinal()
      ensures status == Completed <==> why.Done?
      ensures status == Cancelled <==> why == Limited(CancelRun) || why == Limited(Kill)
      ensures status == Failed <==> why.Stalled? || (why.Limited? && !why.limit.Pause? && !why.limit.CancelRun? && !why.limit.Kill?)
    {
      Checkpoint();
      reason := why;
      status := match why
        case Limited(Pause) => Paused
        case Done => Completed
        case Limited(CancelRun) => Cancelled
        case Limited(Kill) => Cancelled
        case _ => Failed;
    }
  }
}
