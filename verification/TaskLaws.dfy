/** What each event does to tasks, queues, runs and counters, in every state of every run. */
module TaskLaws {
  import opened Common
  import opened TaskBoard
  import opened Tasks

  // ----- settling a task -----------------------------------------------------------------------------------

  lemma {:induction false} PruneKeepsLast(b: Board, limit: nat)
    requires limit >= 1 && b.finished != [] && Distinct(b.finished)
    ensures var last := b.finished[|b.finished| - 1];
      (last in Prune(b, limit).tasks <==> last in b.tasks) && (last in b.tasks ==> Prune(b, limit).tasks[last] == b.tasks[last])
    decreases |b.finished|
  {
    if |b.finished| > limit {
      var b1 := b.(tasks := b.tasks - {b.finished[0]}, finished := b.finished[1..]);
      var last := b.finished[|b.finished| - 1];
      assert b.finished[1..][|b.finished| - 2] == last;
      assert last in b.finished[1..];
      PruneKeepsLast(b1, limit);
    }
  }

  /** The counters of the agent whose task ended: one more completed, or one more failed, or neither. */
  function Ended(st: Stats, status: Status): Stats {
    Stats(st.total, if status == Completed then st.completed + 1 else st.completed,
          if status == Failed then st.failed + 1 else st.failed)
  }

  /** Task `id` got its end status: it is stored with it, no longer active, and counted for its agent; all other unsettled
      tasks are as they were. */
  ghost predicate EndsAs(b: Board, b': Board, id: Id, status: Status, limit: nat)
    requires id in b.tasks
  {
    var agent := b.tasks[id].agent;
    && b'.active == b.active - {id}
    && (limit >= 1 ==> id in b'.tasks) && (id in b'.tasks ==> b'.tasks[id] == b.tasks[id].(status := status))
    && agent in b.agents && b'.agents == b.agents[agent := Ended(b.agents[agent], status)]
    && (forall j :: j != id && Unsettled(b, j) ==> j in b'.tasks && b'.tasks[j] == b.tasks[j])
  }

  lemma SettleEnds(b: Board, id: Id, status: Status, limit: nat)
    requires Good(b, limit) && Unsettled(b, id) && !Open(status)
    ensures EndsAs(b, Settle(b, id, status, limit), id, status, limit)
  {
    SettleKeeps(b, id, status, limit);
    SettleShape(b, id, status, limit);
    assert id in b.active && b.active[id] == b.tasks[id].agent;
    KeptAfter(b, id, status, limit);
    CountIsEnded(b, b.tasks[id].agent, status);
    hide Settle, Update, FinishedExact, Count;
  }

  lemma CountIsEnded(b: Board, agent: Agent, status: Status)
    requires agent in b.agents && !Open(status)
    ensures Count(b, agent, status).agents == b.agents[agent := Ended(b.agents[agent], status)]
  {
    assert b.agents[agent := b.agents[agent]] == b.agents;
  }

  lemma KeptAfter(b: Board, id: Id, status: Status, limit: nat)
    requires Good(b, limit) && Unsettled(b, id) && !Open(status)
    ensures var b' := Settle(b, id, status, limit); limit >= 1 ==> id in b'.tasks && b'.tasks[id] == b.tasks[id].(status := status)
  {
    MarkedFinished(b, id, status, limit);
    SettleShape(b, id, status, limit);
    hide Settle, Update;
    if limit >= 1 {
      var m := Marked(b, id, status);
      assert m.finished[|m.finished| - 1] == id;
      hide Remove;
      PruneKeepsLast(m, limit);
    }
  }

  // ----- each event ---------------------------------------------------------------------------------------------

  /** A new task belongs to its agent, with its priority, and waits; an unknown agent gets none. */
  lemma AssignDoes(s: State, agent: Agent, id: Id, priority: int, limit: nat)
    requires Enabled(s, Assign(agent, id, priority))
    ensures var s' := Step(s, Assign(agent, id, priority), limit);
      if agent !in s.board.agents then s' == s
      else
        var st := s.board.agents[agent];
        && s'.board.tasks == s.board.tasks[id := Task(agent, priority, Pending)]
        && s'.board.active == s.board.active[id := agent] && s'.board.finished == s.board.finished
        && s'.board.agents == s.board.agents[agent := Stats(st.total + 1, st.completed, st.failed)]
        && s'.queues == s.queues && s'.current == s.current
  {
  }

  /** A known task is put into its agent's queue, behind those there; nothing else changes. */
  lemma SubmitDoes(s: State, id: Id, limit: nat)
    ensures var s' := Step(s, Submit(id), limit);
      && s'.board == s.board && s'.current == s.current
      && if id !in s.board.tasks then s' == s
         else
           var t := s.board.tasks[id];
           var q := if t.agent in s.queues then s.queues[t.agent] else [];
           && s'.next == s.next + 1 && s'.queues.Keys == s.queues.Keys + {t.agent}
           && multiset(s'.queues[t.agent]) == multiset(q) + multiset{Ticket(t.priority, s.next, id)}
           && forall a <- s.queues :: a != t.agent ==> s'.queues[a] == s.queues[a]
  {
  }

  /** The worker takes one entry out of its queue and runs it if its task is still pending. */
  lemma DequeueDoes(s: State, agent: Agent, limit: nat) returns (t: Ticket)
    requires Enabled(s, Dequeue(agent))
    ensures var s' := Step(s, Dequeue(agent), limit);
      && t in s.queues[agent] && (forall u <- s.queues[agent] :: !Before(u, t))
      && s'.queues == s.queues[agent := s'.queues[agent]]
      && multiset(s'.queues[agent]) == multiset(s.queues[agent]) - multiset{t} && s'.board == s.board
      && s'.current == if t.id in s.board.tasks && s.board.tasks[t.id].status == Pending
                       then s.current[agent := Run(t.id, Created, false)] else s.current
  {
    hide *;
    HasQueue(s, agent);
    var q := s.queues[agent];
    var i := DequeuedAt(s, agent, limit);
    t := q[i];
    TakenOut(q, i);
  }

  lemma HasQueue(s: State, agent: Agent)
    requires Enabled(s, Dequeue(agent))
    ensures agent in s.queues && s.queues[agent] != []
  {
  }

  lemma DequeuedAt(s: State, agent: Agent, limit: nat) returns (i: nat)
    requires Enabled(s, Dequeue(agent)) && agent in s.queues && s.queues[agent] != []
    ensures i < |s.queues[agent]|
    ensures var s', q := Step(s, Dequeue(agent), limit), s.queues[agent];
      && (forall u <- q :: !Before(u, q[i]))
      && s'.queues == s.queues[agent := q[..i] + q[i + 1..]] && s'.board == s.board
      && s'.current == if q[i].id in s.board.tasks && s.board.tasks[q[i].id].status == Pending
                       then s.current[agent := Run(q[i].id, Created, false)] else s.current
  {
    i := Pick(s.queues[agent]);
    hide Pick, Before;
  }

  lemma TakenOut(q: seq<Ticket>, i: nat)
    requires i < |q|
    ensures multiset(q[..i] + q[i + 1..]) == multiset(q) - multiset{q[i]}
  {
    assert q == q[..i] + [q[i]] + q[i + 1..];
  }

  /** A run that begins makes its task running, unless it was stopped meanwhile; without its agent the task fails. */
  lemma StartDoes(run: seq<Event>, limit: nat, agent: Agent, known: bool)
    requires After(run, limit).Some? && Enabled(After(run, limit).value, Start(agent, known))
    ensures var s := After(run, limit).value;
      var s', r := Step(s, Start(agent, known), limit), s.current[agent];
      && s'.queues == s.queues && s'.current == s.current[agent := s'.current[agent]] && s'.current[agent].id == r.id
      && if r.stopping then s'.board == s.board && s'.current[agent].phase == Over
         else if known then
           && Is(s.board, r.id, Pending) && s'.current[agent] == Run(r.id, Dispatching, false)
           && s'.board == s.board.(tasks := s.board.tasks[r.id := s.board.tasks[r.id].(status := Running)])
         else Unsettled(s.board, r.id) && EndsAs(s.board, s'.board, r.id, Failed, limit) && s'.current[agent].phase == Over
  {
    EveryRun(run, limit);
    var s := After(run, limit).value;
    hide After;
    var r := s.current[agent];
    assert RunFits(s.board, agent, r);
    if !r.stopping && known {
      BoardStarted(s.board, r.id, limit);
    } else if !r.stopping {
      SettleEnds(s.board, r.id, Failed, limit);
    }
    hide Good, Settle, Update, EndsAs;
  }

  /** When a run ends its task is completed if it returned a result, and failed if it did not; a task settled
      meanwhile stays as it is. */
  lemma FinishDoes(run: seq<Event>, limit: nat, agent: Agent, outcome: Outcome)
    requires After(run, limit).Some? && Enabled(After(run, limit).value, Finish(agent, outcome))
    ensures var s := After(run, limit).value;
      var s', r := Step(s, Finish(agent, outcome), limit), s.current[agent];
      && s'.queues == s.queues && s'.current == s.current[agent := r.(phase := Over)]
      && if Unsettled(s.board, r.id)
         then EndsAs(s.board, s'.board, r.id, if outcome == Result then Completed else Failed, limit)
         else s'.board == s.board
  {
    EveryRun(run, limit);
    var s := After(run, limit).value;
    hide After;
    var id := s.current[agent].id;
    if Unsettled(s.board, id) {
      FinishSettles(s, agent, outcome, limit);
      SettleEnds(s.board, id, if outcome == Result then Completed else Failed, limit);
    }
    hide Good, Settle, Update, EndsAs;
  }

  /** Cancelling an unsettled task settles it and stops its run, if it has one. */
  lemma CancelDoes(run: seq<Event>, limit: nat, id: Id)
    requires After(run, limit).Some?
    ensures var s := After(run, limit).value;
      var s' := Step(s, Cancel(id), limit);
      && s'.queues == s.queues
      && if !Unsettled(s.board, id) then s' == s
         else
           var agent := s.board.tasks[id].agent;
           && EndsAs(s.board, s'.board, id, Cancelled, limit)
           && s'.current == if agent in s.current && s.current[agent].id == id
                            then s.current[agent := s.current[agent].(stopping := true)] else s.current
  {
    EveryRun(run, limit);
    var s := After(run, limit).value;
    hide After;
    if Unsettled(s.board, id) {
      SettleEnds(s.board, id, Cancelled, limit);
    }
    hide Good, Settle, Update, EndsAs;
  }

  // ----- the counters over runs ----------------------------------------------------------------------------------

  /** Whether `e` ends a task of `agent` with `status`. */
  predicate EndsTask(s: State, e: Event, agent: Agent, status: Status) {
    match e
    case Finish(a, outcome) =>
      a in s.current && Unsettled(s.board, s.current[a].id) && s.board.tasks[s.current[a].id].agent == agent
      && status == if outcome == Result then Completed else Failed
    case Start(a, known) =>
      a in s.current && !s.current[a].stopping && !known && status == Failed
      && Unsettled(s.board, s.current[a].id) && s.board.tasks[s.current[a].id].agent == agent
    case _ => false
  }

  function EndedIn(run: seq<Event>, limit: nat, agent: Agent, status: Status): nat {
    if run == [] || After(run[..|run| - 1], limit).None? then 0 else
    EndedIn(run[..|run| - 1], limit, agent, status)
    + if EndsTask(After(run[..|run| - 1], limit).value, run[|run| - 1], agent, status) then 1 else 0
  }

  function AssignedIn(run: seq<Event>, limit: nat, agent: Agent): nat {
    if run == [] || After(run[..|run| - 1], limit).None? then 0 else
    var e := run[|run| - 1];
    AssignedIn(run[..|run| - 1], limit, agent)
    + if e.Assign? && e.agent == agent && agent in After(run[..|run| - 1], limit).value.board.agents then 1 else 0
  }

  /** An agent's counters say how many tasks it was given, completed and failed. */
  ghost predicate CountersSay(b: Board, run: seq<Event>, limit: nat, agent: Agent) {
    if agent in b.agents
    then b.agents[agent] == Stats(AssignedIn(run, limit, agent), EndedIn(run, limit, agent, Completed),
                                  EndedIn(run, limit, agent, Failed))
    else AssignedIn(run, limit, agent) == EndedIn(run, limit, agent, Completed) == EndedIn(run, limit, agent, Failed) == 0
  }

  lemma StepCounters(before: seq<Event>, limit: nat, e: Event, agent: Agent)
    requires After(before, limit).Some? && Enabled(After(before, limit).value, e)
    ensures var s := After(before, limit).value;
      var b, b' := s.board, Step(s, e, limit).board;
      && (agent in b'.agents <==> agent in b.agents || e == Register(agent))
      && (agent in b'.agents ==>
            b'.agents[agent] ==
              if agent !in b.agents then Stats(0, 0, 0)
              else Stats(b.agents[agent].total + (if e.Assign? && e.agent == agent then 1 else 0),
                         b.agents[agent].completed + (if EndsTask(s, e, agent, Completed) then 1 else 0),
                         b.agents[agent].failed + (if EndsTask(s, e, agent, Failed) then 1 else 0)))
      && (agent !in b.agents ==> !EndsTask(s, e, agent, Completed) && !EndsTask(s, e, agent, Failed))
  {
    var s := After(before, limit).value;
    EveryRun(before, limit);
    assert forall id :: Unsettled(s.board, id) ==> id in s.board.active && s.board.tasks[id].agent in s.board.agents;
    match e
    case Assign(a, id, priority) => hide Inv; AssignDoes(s, a, id, priority, limit);
    case Submit(id) => hide Inv; SubmitDoes(s, id, limit);
    case Dequeue(a) => hide Inv; var t := DequeueDoes(s, a, limit);
    case Start(a, known) => StartDoes(before, limit, a, known); hide Inv, After, Step, Fail, Settle, Update;
    case Finish(a, outcome) => FinishDoes(before, limit, a, outcome); hide Inv, After, Step, Fail, Settle, Update;
    case Cancel(id) => CancelDoes(before, limit, id); hide Inv, After, Step, Settle;
    case Register(_) => hide Inv;
    case Reap(_) => hide Inv;
  }

  lemma {:induction false} CountersExact(run: seq<Event>, limit: nat, agent: Agent)
    requires After(run, limit).Some?
    ensures CountersSay(After(run, limit).value.board, run, limit, agent)
  {
    hide Step, EndsTask, Enabled;
    if run != [] {
      var before, e := run[..|run| - 1], run[|run| - 1];
      CountersExact(before, limit, agent);
      StepCounters(before, limit, e, agent);
    }
  }
}
