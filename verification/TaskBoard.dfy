/** The task store and the orchestrator: task status, active tasks and per-agent counters. */
module TaskBoard {

  type Id = nat
  type Agent = nat

  datatype Status = Pending | Running | Completed | Failed | Cancelled

  datatype Task = Task(agent: Agent, priority: int, status: Status)

  datatype Stats = Stats(total: nat, completed: nat, failed: nat)

  datatype Board = Board(tasks: map<Id, Task>, finished: seq<Id>, active: map<Id, Agent>, agents: map<Agent, Stats>)

  predicate Open(s: Status) {
    s == Pending || s == Running
  }

  /** `id` is stored and not settled. */
  predicate Unsettled(b: Board, id: Id) {
    id in b.tasks && Open(b.tasks[id].status)
  }

  predicate Is(b: Board, id: Id, s: Status) {
    id in b.tasks && b.tasks[id].status == s
  }

  function Remove(ids: seq<Id>, id: Id): (r: seq<Id>)
    ensures forall x :: x in r <==> x in ids && x != id
    ensures |r| <= |ids|
  {
    if ids == [] then []
    else
      assert ids == [ids[0]] + ids[1..];
      (if ids[0] != id then [ids[0]] else []) + Remove(ids[1..], id)
  }

  predicate Distinct(ids: seq<Id>) {
    ids == [] || (ids[0] !in ids[1..] && Distinct(ids[1..]))
  }

  /** The oldest finished tasks over the limit leave the store. */
  function Prune(b: Board, limit: nat): Board
    decreases |b.finished|
  {
    if |b.finished| <= limit then b
    else Prune(b.(tasks := b.tasks - {b.finished[0]}, finished := b.finished[1..]), limit)
  }

  /** `TaskStore.update` after the status was changed in place. */
  function Update(b: Board, id: Id, status: Status, limit: nat): Board
    requires id in b.tasks
  {
    var b := b.(tasks := b.tasks[id := b.tasks[id].(status := status)]);
    if Open(status) then b else Prune(b.(finished := Remove(b.finished, id) + [id]), limit)
  }

  function Count(b: Board, agent: Agent, status: Status): Board {
    if agent !in b.agents then b else
    var st := b.agents[agent];
    match status
    case Completed => b.(agents := b.agents[agent := st.(completed := st.completed + 1)])
    case Failed => b.(agents := b.agents[agent := st.(failed := st.failed + 1)])
    case _ => b
  }

  /** `complete_task`, `fail_task` and `cancel_task`. */
  function Settle(b: Board, id: Id, status: Status, limit: nat): Board
    requires id in b.tasks
  {
    var b' := Update(b, id, status, limit);
    if id !in b'.active then b' else Count(b'.(active := b'.active - {id}), b'.active[id], status)
  }

  function Assign(b: Board, agent: Agent, id: Id, priority: int): Board
    requires agent in b.agents
  {
    var st := b.agents[agent];
    b.(tasks := b.tasks[id := Task(agent, priority, Pending)], active := b.active[id := agent],
       agents := b.agents[agent := st.(total := st.total + 1)])
  }

  // ---- invariants -------------------------------------------------------------------------------

  /** A task is active exactly while it is pending or running, under its own agent. */
  ghost predicate ActiveExact(b: Board) {
    (forall id :: id in b.active <==> Unsettled(b, id))
    && forall id <- b.active :: id in b.tasks && b.active[id] == b.tasks[id].agent && b.active[id] in b.agents
  }

  /** The finished list holds every settled task that is still stored, once. */
  ghost predicate FinishedExact(b: Board) {
    Distinct(b.finished) && forall id :: id in b.finished <==> id in b.tasks && !Open(b.tasks[id].status)
  }

  function ActiveOf(b: Board, agent: Agent): set<Id> {
    set id | id in b.active && b.active[id] == agent
  }

  /** An agent's total is what completed, failed, was cancelled or is still active. */
  ghost predicate Counted(b: Board, cancelled: Agent -> nat) {
    forall a <- b.agents ::
      b.agents[a].total == b.agents[a].completed + b.agents[a].failed + cancelled(a) + |ActiveOf(b, a)|
  }

  ghost predicate Good(b: Board, limit: nat) {
    ActiveExact(b) && FinishedExact(b) && |b.finished| <= limit
  }

  // ---- what the operations keep -----------------------------------------------------------------

  lemma {:induction false} RemoveDistinct(ids: seq<Id>, id: Id)
    requires Distinct(ids)
    ensures Distinct(Remove(ids, id) + [id])
  {
    if ids == [] {
      assert [id][1..] == [];
    } else {
      RemoveDistinct(ids[1..], id);
      var rest := Remove(ids[1..], id) + [id];
      assert ids == [ids[0]] + ids[1..];
      assert Remove(ids, id) + [id] == if ids[0] != id then [ids[0]] + rest else rest;
    }
  }

  /** Pruning drops settled tasks only, and nothing else changes. */
  ghost predicate Pruned(b: Board, b': Board) {
    && b'.active == b.active && b'.agents == b.agents
    && (forall id <- b'.tasks :: id in b.tasks && b'.tasks[id] == b.tasks[id])
    && (forall id <- b.tasks :: Open(b.tasks[id].status) ==> id in b'.tasks)
  }

  lemma {:induction false} PruneKeeps(b: Board, limit: nat)
    requires FinishedExact(b)
    ensures FinishedExact(Prune(b, limit)) && |Prune(b, limit).finished| <= limit && Pruned(b, Prune(b, limit))
    decreases |b.finished|
  {
    if |b.finished| > limit {
      var b1 := b.(tasks := b.tasks - {b.finished[0]}, finished := b.finished[1..]);
      assert b.finished == [b.finished[0]] + b.finished[1..];
      PruneKeeps(b1, limit);
    }
  }

  /** `b'` is `b` with task `id` settled: only `id` changes status, and only settled tasks leave the store. */
  ghost predicate Settled(b: Board, b': Board, id: Id, status: Status) {
    && (forall j <- b'.tasks :: j in b.tasks &&
          b'.tasks[j] == if j == id then b.tasks[j].(status := status) else b.tasks[j])
    && (forall j :: j != id && Unsettled(b, j) ==> j in b'.tasks)
    && b'.active == b.active - {id}
  }

  /** The board with `id` settled, before pruning. */
  function Marked(b: Board, id: Id, status: Status): Board
    requires id in b.tasks
  {
    b.(tasks := b.tasks[id := b.tasks[id].(status := status)], finished := Remove(b.finished, id) + [id])
  }

  lemma MarkedFinished(b: Board, id: Id, status: Status, limit: nat)
    requires FinishedExact(b) && id in b.tasks && !Open(status)
    ensures FinishedExact(Marked(b, id, status))
    ensures Update(b, id, status, limit) == Prune(Marked(b, id, status), limit)
    ensures FinishedExact(Update(b, id, status, limit)) && |Update(b, id, status, limit).finished| <= limit
    ensures Pruned(Marked(b, id, status), Update(b, id, status, limit))
  {
    RemoveDistinct(b.finished, id);
    PruneKeeps(Marked(b, id, status), limit);
  }

  lemma SettleShape(b: Board, id: Id, status: Status, limit: nat)
    requires FinishedExact(b) && ActiveExact(b) && id in b.tasks && !Open(status)
    ensures var b1, b2 := Update(b, id, status, limit), Settle(b, id, status, limit);
            && b2.tasks == b1.tasks && b2.finished == b1.finished && b2.active == b.active - {id}
            && b2.agents == if id in b.active then Count(b, b.active[id], status).agents else b.agents
  {
    hide Update, Marked, FinishedExact, ActiveExact;
    MarkedFinished(b, id, status, limit);
    MarkedRest(b, id, status);
  }

  lemma MarkedRest(b: Board, id: Id, status: Status)
    requires id in b.tasks
    ensures Marked(b, id, status).active == b.active && Marked(b, id, status).agents == b.agents
  {
  }

  lemma MarkedSettled(b: Board, b1: Board, b2: Board, id: Id, status: Status)
    requires id in b.tasks && Pruned(Marked(b, id, status), b1)
    requires b2.tasks == b1.tasks && b2.active == b.active - {id}
    ensures Settled(b, b2, id, status)
  {
    hide Remove;
    var m := Marked(b, id, status);
    forall j | j != id && Unsettled(b, j) ensures j in b2.tasks {
      assert j in m.tasks;
    }
  }

  lemma SettledActive(b: Board, b2: Board, id: Id, status: Status)
    requires ActiveExact(b) && Settled(b, b2, id, status) && !Open(status) && b2.agents.Keys == b.agents.Keys
    ensures ActiveExact(b2)
  {
    forall j ensures j in b2.active <==> Unsettled(b2, j) {
      assert j in b.active <==> Unsettled(b, j);
    }
    forall j <- b2.active ensures j in b2.tasks && b2.active[j] == b2.tasks[j].agent && b2.active[j] in b2.agents {
      assert j in b.active;
      assert b.active[j] in b.agents.Keys;
    }
  }

  lemma SettleKeeps(b: Board, id: Id, status: Status, limit: nat)
    requires Good(b, limit) && id in b.tasks && !Open(status)
    ensures Good(Settle(b, id, status, limit), limit) && Settled(b, Settle(b, id, status, limit), id, status)
    ensures Settle(b, id, status, limit).agents.Keys == b.agents.Keys
  {
    hide Update, Settle, FinishedExact, ActiveExact, Marked, Pruned, Settled;
    var b1, b2 := Update(b, id, status, limit), Settle(b, id, status, limit);
    MarkedFinished(b, id, status, limit);
    SettleShape(b, id, status, limit);
    FinishedCongruent(b1, b2);
    MarkedSettled(b, b1, b2, id, status);
    SettledActive(b, b2, id, status);
  }

  lemma FinishedCongruent(b1: Board, b2: Board)
    requires FinishedExact(b1) && b1.tasks == b2.tasks && b1.finished == b2.finished
    ensures FinishedExact(b2)
  {
  }

  lemma SettleCounts(b: Board, id: Id, status: Status, limit: nat, cancelled: Agent -> nat)
    requires Good(b, limit) && Unsettled(b, id) && !Open(status) && Counted(b, cancelled)
    ensures var agent := b.tasks[id].agent;
            Counted(Settle(b, id, status, limit),
                    a => cancelled(a) + if status == Cancelled && a == agent then 1 else 0)
  {
    var b' := Settle(b, id, status, limit);
    var agent := b.tasks[id].agent;
    SettleShape(b, id, status, limit);
    assert id in b.active && b.active[id] == agent;
    hide Settle, Good, ActiveExact;
    forall a <- b'.agents
      ensures b'.agents[a].total == b'.agents[a].completed + b'.agents[a].failed
                + (cancelled(a) + if status == Cancelled && a == agent then 1 else 0) + |ActiveOf(b', a)|
    {
      assert ActiveOf(b', a) == ActiveOf(b, a) - {id};
      assert id in ActiveOf(b, a) <==> a == agent;
    }
  }

  lemma AssignGood(b: Board, agent: Agent, id: Id, priority: int, limit: nat)
    requires Good(b, limit) && agent in b.agents && id !in b.tasks
    ensures Good(Assign(b, agent, id, priority), limit)
  {
    hide Distinct;
    assert id !in b.active && id !in b.finished;
  }

  lemma AssignCounts(b: Board, agent: Agent, id: Id, priority: int, cancelled: Agent -> nat)
    requires Counted(b, cancelled) && agent in b.agents && id !in b.active
    ensures Counted(Assign(b, agent, id, priority), cancelled)
  {
    var b' := Assign(b, agent, id, priority);
    forall a <- b'.agents
      ensures b'.agents[a].total == b'.agents[a].completed + b'.agents[a].failed + cancelled(a) + |ActiveOf(b', a)|
    {
      if a == agent {
        assert ActiveOf(b', a) == ActiveOf(b, a) + {id};
      } else {
        assert ActiveOf(b', a) == ActiveOf(b, a);
      }
    }
  }

  // ---- the orchestrator object --------------------------------------------------------------------

  class Orchestrator {
    const maxFinished: nat
    var tasks: map<Id, Task>
    var finished: seq<Id>
    var active: map<Id, Agent>
    var agents: map<Agent, Stats>

    function Value(): Board
      reads this
    {
      Board(tasks, finished, active, agents)
    }

    constructor (maxFinished: nat)
      ensures Value() == Board(map[], [], map[], map[]) && this.maxFinished == maxFinished
    {
      this.maxFinished := maxFinished;
      tasks, finished, active, agents := map[], [], map[], map[];
    }

    method RegisterAgent(agent: Agent)
      modifies this
      ensures Value() == old(Value()).(agents := old(agents)[agent := Stats(0, 0, 0)])
    {
      agents := agents[agent := Stats(0, 0, 0)];
    }

    /** `id` is the identifier drawn for the new task. */
    method AssignTask(agent: Agent, id: Id, priority: int) returns (ok: bool)
      modifies this
      ensures ok <==> agent in old(agents)
      ensures Value() == if ok then Assign(old(Value()), agent, id, priority) else old(Value())
    {
      if agent !in agents {
        return false;
      }
      tasks := tasks[id := Task(agent, priority, Pending)];
      active := active[id := agent];
      agents := agents[agent := agents[agent].(total := agents[agent].total + 1)];
      return true;
    }

    /** `TaskStore.update`, with its pruning loop. */
    method Store(id: Id, status: Status)
      requires id in tasks
      modifies `tasks, `finished
      ensures Value() == Update(old(Value()), id, status, maxFinished)
    {
      tasks := tasks[id := tasks[id].(status := status)];
      if Open(status) {
        return;
      }
      finished := Remove(finished, id) + [id];
      ghost var target := Prune(Value(), maxFinished);
      while |finished| > maxFinished
        invariant Prune(Value(), maxFinished) == target
        invariant active == old(active) && agents == old(agents)
      {
        tasks := tasks - {finished[0]};
        finished := finished[1..];
      }
    }

    method StartTask(id: Id) returns (found: bool)
      modifies this
      ensures found <==> id in old(tasks)
      ensures Value() == if found then Update(old(Value()), id, Running, maxFinished) else old(Value())
    {
      found := id in tasks;
      if found {
        Store(id, Running);
      }
    }

    method CompleteTask(id: Id) returns (found: bool)
      modifies this
      ensures found <==> id in old(tasks)
      ensures Value() == if found then Settle(old(Value()), id, Completed, maxFinished) else old(Value())
    {
      found := id in tasks;
      if !found {
        return;
      }
      Store(id, Completed);
      if id in active {
        var agent := active[id];
        active := active - {id};
        if agent in agents {
          agents := agents[agent := agents[agent].(completed := agents[agent].completed + 1)];
        }
      }
    }

    method FailTask(id: Id) returns (found: bool)
      modifies this
      ensures found <==> id in old(tasks)
      ensures Value() == if found then Settle(old(Value()), id, Failed, maxFinished) else old(Value())
    {
      found := id in tasks;
      if !found {
        return;
      }
      Store(id, Failed);
      if id in active {
        var agent := active[id];
        active := active - {id};
        if agent in agents {
          agents := agents[agent := agents[agent].(failed := agents[agent].failed + 1)];
        }
      }
    }

    method CancelTask(id: Id)
      modifies this
      ensures Value() == if id in old(tasks) then Settle(old(Value()), id, Cancelled, maxFinished) else old(Value())
    {
      if id !in tasks {
        return;
      }
      Store(id, Cancelled);
      active := active - {id};
    }
  }
}
