/** The task runner: one worker per agent, a priority queue each, and cancellation at any point. */
module Tasks {
  import opened Common
  import opened TaskBoard

  /** A queue entry: higher priority first, then lower number. */
  datatype Ticket = Ticket(priority: int, number: nat, id: Id)

  datatype Phase = Created | Dispatching | Over

  /** The run a worker waits for; `stopping` once its cancellation was requested. */
  datatype Run = Run(id: Id, phase: Phase, stopping: bool)

  datatype Outcome = Result | NoResult | Error | Timeout | Stopped

  /** What happens between two awaits, in any order. */
  datatype Event =
    | Register(agent: Agent)
    | Assign(agent: Agent, id: Id, priority: int)
    | Submit(id: Id)
    | Dequeue(agent: Agent)
    | Start(agent: Agent, known: bool)
    | Finish(agent: Agent, outcome: Outcome)
    | Reap(agent: Agent)
    | Cancel(id: Id)

  datatype State = State(
    board: Board,
    queues: map<Agent, seq<Ticket>>,
    current: map<Agent, Run>,
    next: nat,
    used: set<Id>
  )

  predicate Before(t: Ticket, u: Ticket) {
    t.priority > u.priority || (t.priority == u.priority && t.number < u.number)
  }

  /** The entry a priority queue gives out. */
  function Pick(tickets: seq<Ticket>): (i: nat)
    requires tickets != []
    ensures i < |tickets| && forall u <- tickets :: !Before(u, tickets[i])
  {
    if |tickets| == 1 then 0 else
    assert tickets == [tickets[0]] + tickets[1..];
    var j := Pick(tickets[1..]);
    if Before(tickets[0], tickets[1..][j]) then 0 else j + 1
  }

  function Put(s: State, agent: Agent, priority: int, id: Id): State {
    var q := if agent in s.queues then s.queues[agent] else [];
    s.(queues := s.queues[agent := q + [Ticket(priority, s.next, id)]], next := s.next + 1)
  }

  function Fail(b: Board, id: Id, limit: nat): Board {
    if Is(b, id, Running) || Is(b, id, Pending) then Settle(b, id, Failed, limit) else b
  }

  predicate Waits(s: State, agent: Agent, phase: Phase) {
    agent in s.current && s.current[agent].phase == phase
  }

  predicate Enabled(s: State, e: Event) {
    match e
    case Register(agent) => agent !in s.board.agents
    case Assign(agent, id, _) => id !in s.used
    case Submit(_) => true
    case Dequeue(agent) => agent in s.queues && s.queues[agent] != [] && agent !in s.current
    case Start(agent, _) => Waits(s, agent, Created)
    case Finish(agent, outcome) => Waits(s, agent, Dispatching) && (outcome == Stopped ==> s.current[agent].stopping)
    case Reap(agent) => Waits(s, agent, Over)
    case Cancel(_) => true
  }

  function Dequeued(s: State, agent: Agent): State
    requires Enabled(s, Dequeue(agent))
  {
    var q := s.queues[agent];
    var i := Pick(q);
    var s := s.(queues := s.queues[agent := q[..i] + q[i + 1..]]);
    if Is(s.board, q[i].id, Pending) then s.(current := s.current[agent := Run(q[i].id, Created, false)]) else s
  }

  function Started(s: State, agent: Agent, known: bool, limit: nat): State
    requires Enabled(s, Start(agent, known))
  {
    var r := s.current[agent];
    if r.stopping || r.id !in s.board.tasks then s.(current := s.current[agent := r.(phase := Over)])
    else if !known then s.(board := Fail(s.board, r.id, limit), current := s.current[agent := r.(phase := Over)])
    else s.(board := Update(s.board, r.id, Running, limit), current := s.current[agent := r.(phase := Dispatching)])
  }

  function Finished(s: State, agent: Agent, outcome: Outcome, limit: nat): State
    requires Enabled(s, Finish(agent, outcome))
  {
    var r := s.current[agent];
    var board := match outcome
      case Result => if Is(s.board, r.id, Running) then Settle(s.board, r.id, Completed, limit) else s.board
      case Stopped => s.board
      case _ => Fail(s.board, r.id, limit);
    s.(board := board, current := s.current[agent := r.(phase := Over)])
  }

  function Cancelling(s: State, id: Id, limit: nat): State {
    if !Unsettled(s.board, id) then s else
    var agent := s.board.tasks[id].agent;
    var s := s.(board := Settle(s.board, id, Cancelled, limit));
    if agent in s.current && s.current[agent].id == id
    then s.(current := s.current[agent := s.current[agent].(stopping := true)])
    else s
  }

  function Step(s: State, e: Event, limit: nat): State
    requires Enabled(s, e)
  {
    match e
    case Register(agent) => s.(board := s.board.(agents := s.board.agents[agent := Stats(0, 0, 0)]))
    case Assign(agent, id, priority) =>
      if agent !in s.board.agents then s
      else s.(board := TaskBoard.Assign(s.board, agent, id, priority), used := s.used + {id})
    case Submit(id) =>
      if id !in s.board.tasks then s else Put(s, s.board.tasks[id].agent, s.board.tasks[id].priority, id)
    case Dequeue(agent) => Dequeued(s, agent)
    case Start(agent, known) => Started(s, agent, known, limit)
    case Finish(agent, outcome) => Finished(s, agent, outcome, limit)
    case Reap(agent) => s.(current := s.current - {agent})
    case Cancel(id) => Cancelling(s, id, limit)
  }

  const EMPTY := State(Board(map[], [], map[], map[]), map[], map[], 0, {})

  /** The state after a run of events, if each could happen when it did. */
  function After(run: seq<Event>, limit: nat): Option<State> {
    if run == [] then Some(EMPTY) else
    var before := After(run[..|run| - 1], limit);
    if before.Some? && Enabled(before.value, run[|run| - 1])
    then Some(Step(before.value, run[|run| - 1], limit))
    else None
  }

  // ---- invariants -------------------------------------------------------------------------------

  /** What a worker's run says about its task. */
  predicate RunFits(b: Board, agent: Agent, r: Run) {
    if r.stopping || r.phase == Over then !Unsettled(b, r.id)
    else Is(b, r.id, if r.phase == Created then Pending else Running) && b.tasks[r.id].agent == agent
  }

  ghost predicate RunsFit(s: State) {
    forall a <- s.current :: RunFits(s.board, a, s.current[a])
  }

  /** A running task is the one its agent's worker waits for. */
  ghost predicate RunningIsCurrent(s: State) {
    forall id :: Is(s.board, id, Running) ==>
      s.board.tasks[id].agent in s.current && s.current[s.board.tasks[id].agent].id == id
  }

  ghost predicate TicketsFit(s: State) {
    forall a <- s.queues, t <- s.queues[a] ::
      t.number < s.next && t.id in s.used
      && (t.id in s.board.tasks ==> s.board.tasks[t.id].agent == a && s.board.tasks[t.id].priority == t.priority)
  }

  ghost predicate IdsUsed(s: State) {
    s.board.tasks.Keys <= s.used && forall a <- s.current :: s.current[a].id in s.used
  }

  ghost predicate Inv(s: State, limit: nat) {
    Good(s.board, limit) && RunsFit(s) && RunningIsCurrent(s) && TicketsFit(s) && IdsUsed(s)
  }

  // ---- every step keeps them --------------------------------------------------------------------

  /** After `id` is settled, a run of another task still fits. */
  lemma RunStillFits(b: Board, b': Board, id: Id, status: Status, agent: Agent, r: Run)
    requires Settled(b, b', id, status) && !Open(status) && RunFits(b, agent, r) && r.id != id
    ensures RunFits(b', agent, r)
  {
  }

  /** `s'` is `s` with task `id` settled and the run of its agent, if it is this task's, stopped or over. */
  ghost predicate SettledIn(s: State, s': State, id: Id, status: Status) {
    && Settled(s.board, s'.board, id, status) && !Open(status)
    && s'.queues == s.queues && s'.next == s.next && s'.used == s.used
    && s'.current.Keys == s.current.Keys
    && forall a <- s.current :: s'.current[a].id == s.current[a].id &&
         if s.current[a].id == id then s'.current[a].stopping || s'.current[a].phase == Over
         else s'.current[a] == s.current[a]
  }

  lemma SettledInKeeps(s: State, s': State, id: Id, status: Status, limit: nat)
    requires Inv(s, limit) && SettledIn(s, s', id, status) && Good(s'.board, limit)
    ensures Inv(s', limit)
  {
    hide Good;
    forall a <- s'.current ensures RunFits(s'.board, a, s'.current[a]) {
      assert a in s.current;
      if s.current[a].id != id {
        RunStillFits(s.board, s'.board, id, status, a, s.current[a]);
      }
    }
  }

  /** At most one worker's run is for an unsettled task `id`: its agent's. */
  lemma OnlyItsAgent(s: State, id: Id, limit: nat, a: Agent)
    requires Inv(s, limit) && Unsettled(s.board, id) && a in s.current && s.current[a].id == id
    ensures a == s.board.tasks[id].agent && !s.current[a].stopping && s.current[a].phase != Over
  {
    hide Good;
  }

  lemma CancelKeeps(s: State, id: Id, limit: nat)
    requires Inv(s, limit)
    ensures Inv(Cancelling(s, id, limit), limit)
  {
    if Unsettled(s.board, id) {
      var s' := Cancelling(s, id, limit);
      SettleKeeps(s.board, id, Cancelled, limit);
      hide Settle, Good;
      forall a <- s.current | s.current[a].id == id ensures s'.current[a].stopping {
        OnlyItsAgent(s, id, limit, a);
      }
      SettledInKeeps(s, s', id, Cancelled, limit);
    }
  }

  lemma FinishSettles(s: State, agent: Agent, outcome: Outcome, limit: nat)
    requires Inv(s, limit) && Enabled(s, Finish(agent, outcome)) && Unsettled(s.board, s.current[agent].id)
    ensures var r := s.current[agent];
            Finished(s, agent, outcome, limit) ==
            s.(board := Settle(s.board, r.id, if outcome == Result then Completed else Failed, limit),
               current := s.current[agent := r.(phase := Over)])
  {
    OnlyItsAgent(s, s.current[agent].id, limit, agent);
    hide Good, Settle, RunningIsCurrent, TicketsFit, IdsUsed;
  }

  lemma FinishKeeps(s: State, agent: Agent, outcome: Outcome, limit: nat)
    requires Inv(s, limit) && Enabled(s, Finish(agent, outcome))
    ensures Inv(Finished(s, agent, outcome, limit), limit)
  {
    var s' := Finished(s, agent, outcome, limit);
    var r := s.current[agent];
    if Unsettled(s.board, r.id) {
      FinishSettles(s, agent, outcome, limit);
      var status := if outcome == Result then Completed else Failed;
      SettleKeeps(s.board, r.id, status, limit);
      hide Finished;
      SettledByRun(s, s', agent, status, limit);
    } else {
      hide Good, Settle;
      assert s' == s.(current := s.current[agent := r.(phase := Over)]);
      OverKeeps(s, agent, limit);
    }
  }

  /** A run whose task is settled may end. */
  lemma OverKeeps(s: State, agent: Agent, limit: nat)
    requires Inv(s, limit) && agent in s.current && !Unsettled(s.board, s.current[agent].id)
    ensures Inv(s.(current := s.current[agent := s.current[agent].(phase := Over)]), limit)
  {
    hide Good;
  }

  /** The run of `agent` settles its task and is over. */
  lemma SettledByRun(s: State, s': State, agent: Agent, status: Status, limit: nat)
    requires Inv(s, limit) && agent in s.current && Unsettled(s.board, s.current[agent].id) && !Open(status)
    requires Settled(s.board, s'.board, s.current[agent].id, status) && Good(s'.board, limit)
    requires s' == s.(board := s'.board, current := s.current[agent := s.current[agent].(phase := Over)])
    ensures Inv(s', limit)
  {
    hide Good;
    var id := s.current[agent].id;
    forall a <- s.current | s.current[a].id == id ensures a == agent {
      OnlyItsAgent(s, id, limit, a);
      OnlyItsAgent(s, id, limit, agent);
    }
    SettledInKeeps(s, s', id, status, limit);
  }

  lemma StartKeeps(s: State, agent: Agent, known: bool, limit: nat)
    requires Inv(s, limit) && Enabled(s, Start(agent, known))
    ensures Inv(Started(s, agent, known, limit), limit)
  {
    var r := s.current[agent];
    if r.stopping {
      hide Good;
      OverKeeps(s, agent, limit);
    } else if !known {
      SettleKeeps(s.board, r.id, Failed, limit);
      hide Settle, Good;
      SettledByRun(s, Started(s, agent, known, limit), agent, Failed, limit);
    } else {
      StartRunningKeeps(s, agent, limit);
    }
  }

  lemma BoardStarted(b: Board, id: Id, limit: nat)
    requires Good(b, limit) && Is(b, id, Pending)
    ensures Good(Update(b, id, Running, limit), limit)
    ensures Update(b, id, Running, limit) == b.(tasks := b.tasks[id := b.tasks[id].(status := Running)])
  {
    hide Distinct;
  }

  lemma StartRunningKeeps(s: State, agent: Agent, limit: nat)
    requires Inv(s, limit) && Waits(s, agent, Created) && !s.current[agent].stopping
    ensures Inv(Started(s, agent, true, limit), limit)
  {
    var r, s' := s.current[agent], Started(s, agent, true, limit);
    BoardStarted(s.board, r.id, limit);
    hide Good, Update;
    forall a <- s'.current ensures RunFits(s'.board, a, s'.current[a]) {
      if a != agent && s.current[a].id == r.id {
        OnlyItsAgent(s, r.id, limit, a);
      }
    }
  }

  lemma DequeueKeeps(s: State, agent: Agent, limit: nat)
    requires Inv(s, limit) && Enabled(s, Dequeue(agent))
    ensures Inv(Dequeued(s, agent), limit)
  {
    hide Good;
    var q := s.queues[agent];
    var i := Pick(q);
    assert q[i] in q;
    forall t <- q[..i] + q[i + 1..] ensures t in q {
    }
  }

  lemma SubmitKeeps(s: State, id: Id, limit: nat)
    requires Inv(s, limit) && id in s.board.tasks
    ensures Inv(Put(s, s.board.tasks[id].agent, s.board.tasks[id].priority, id), limit)
  {
    hide Good;
  }

  lemma RegisterKeeps(s: State, agent: Agent, limit: nat)
    requires Inv(s, limit) && Enabled(s, Register(agent))
    ensures Inv(Step(s, Register(agent), limit), limit)
  {
    hide Distinct;
  }

  lemma AssignKeeps(s: State, agent: Agent, id: Id, priority: int, limit: nat)
    requires Inv(s, limit) && id !in s.used && agent in s.board.agents
    ensures Inv(Step(s, Event.Assign(agent, id, priority), limit), limit)
  {
    AssignGood(s.board, agent, id, priority, limit);
    hide Good;
  }

  lemma StepKeeps(s: State, e: Event, limit: nat)
    requires Inv(s, limit) && Enabled(s, e)
    ensures Inv(Step(s, e, limit), limit)
  {
    hide Dequeued, Started, Finished, Cancelling, Put;
    match e
    case Register(agent) => RegisterKeeps(s, agent, limit);
    case Assign(agent, id, priority) => if agent in s.board.agents { AssignKeeps(s, agent, id, priority, limit); }
    case Submit(id) => if id in s.board.tasks { SubmitKeeps(s, id, limit); }
    case Dequeue(agent) => DequeueKeeps(s, agent, limit);
    case Start(agent, known) => StartKeeps(s, agent, known, limit);
    case Finish(agent, outcome) => FinishKeeps(s, agent, outcome, limit);
    case Reap(agent) => hide Good; assert Inv(Step(s, e, limit), limit);
    case Cancel(id) => CancelKeeps(s, id, limit);
  }

  lemma {:induction false} EveryRun(run: seq<Event>, limit: nat)
    requires After(run, limit).Some?
    ensures Inv(After(run, limit).value, limit)
  {
    hide Step, Enabled, Inv;
    if run == [] {
      EmptyInv(limit);
    } else {
      EveryRun(run[..|run| - 1], limit);
      StepKeeps(After(run[..|run| - 1], limit).value, run[|run| - 1], limit);
    }
  }

  lemma EmptyInv(limit: nat)
    ensures Inv(EMPTY, limit)
  {
  }

  // ---- what each step does to the board ------------------------------------------------------------

  datatype Move = Same | NewAgent(agent: Agent) | NewTask(agent: Agent, id: Id, priority: int)
                | Begin(id: Id) | End(id: Id, status: Status)

  function MoveOf(s: State, e: Event): Move
    requires Enabled(s, e)
  {
    match e
    case Register(agent) => NewAgent(agent)
    case Assign(agent, id, priority) => if agent in s.board.agents then NewTask(agent, id, priority) else Same
    case Start(agent, known) =>
      var r := s.current[agent];
      if r.stopping then Same else if known then Begin(r.id) else End(r.id, Failed)
    case Finish(agent, outcome) =>
      var id := s.current[agent].id;
      if Unsettled(s.board, id) then End(id, if outcome == Result then Completed else Failed) else Same
    case Cancel(id) => if Unsettled(s.board, id) then End(id, Cancelled) else Same
    case _ => Same
  }

  predicate Legal(s: State, m: Move) {
    match m
    case Same => true
    case NewAgent(agent) => agent !in s.board.agents
    case NewTask(agent, id, _) => agent in s.board.agents && id !in s.used
    case Begin(id) => Is(s.board, id, Pending)
    case End(id, status) => Unsettled(s.board, id) && !Open(status)
  }

  function Moved(s: State, m: Move, limit: nat): Board
    requires Legal(s, m)
  {
    match m
    case Same => s.board
    case NewAgent(agent) => s.board.(agents := s.board.agents[agent := Stats(0, 0, 0)])
    case NewTask(agent, id, priority) => TaskBoard.Assign(s.board, agent, id, priority)
    case Begin(id) => Update(s.board, id, Running, limit)
    case End(id, status) => Settle(s.board, id, status, limit)
  }

  /** A task's status moves only from pending to running, and from unsettled to settled. */
  lemma StepMoves(s: State, e: Event, limit: nat)
    requires Inv(s, limit) && Enabled(s, e)
    ensures Legal(s, MoveOf(s, e)) && Step(s, e, limit).board == Moved(s, MoveOf(s, e), limit)
  {
    hide Good, Settle, Update, RunningIsCurrent, TicketsFit;
    match e
    case Start(agent, known) => assert RunFits(s.board, agent, s.current[agent]);
    case Finish(agent, outcome) =>
      assert RunFits(s.board, agent, s.current[agent]);
    case _ =>
  }

  lemma SettledStays(s: State, e: Event, limit: nat, id: Id)
    requires Inv(s, limit) && Enabled(s, e) && id in s.used && !Unsettled(s.board, id)
    ensures var s' := Step(s, e, limit);
            id in s'.used && !Unsettled(s'.board, id)
            && (id in s'.board.tasks ==> id in s.board.tasks && s'.board.tasks[id] == s.board.tasks[id])
  {
    StepMoves(s, e, limit);
    UsedStays(s, e, limit, id);
    var m := MoveOf(s, e);
    hide Step, MoveOf;
    match m
    case End(j, status) => SettleKeeps(s.board, j, status, limit); hide Settle;
    case Begin(j) => BoardStarted(s.board, j, limit); hide Update;
    case _ => hide Good;
  }

  lemma UsedStays(s: State, e: Event, limit: nat, id: Id)
    requires Enabled(s, e) && id in s.used
    ensures id in Step(s, e, limit).used
  {
  }

  /** Once settled, a task keeps its status for as long as it is stored, whatever happens next. */
  lemma {:induction false} SettledForever(run: seq<Event>, more: seq<Event>, limit: nat, id: Id)
    requires After(run, limit).Some? && After(run + more, limit).Some?
    requires id in After(run, limit).value.used && !Unsettled(After(run, limit).value.board, id)
    ensures var b, b' := After(run, limit).value.board, After(run + more, limit).value.board;
            id in After(run + more, limit).value.used && !Unsettled(b', id)
            && (id in b'.tasks ==> id in b.tasks && b'.tasks[id] == b.tasks[id])
    decreases |more|
  {
    hide Step, Enabled, Inv, Unsettled;
    if more == [] {
      assert run + more == run;
    } else {
      var all := run + more;
      assert all[..|all| - 1] == run + more[..|more| - 1];
      SettledForever(run, more[..|more| - 1], limit, id);
      EveryRun(all[..|all| - 1], limit);
      SettledStays(After(all[..|all| - 1], limit).value, all[|all| - 1], limit, id);
    }
  }

  // ---- the promises --------------------------------------------------------------------------------

  lemma OneRunningPerAgent(run: seq<Event>, limit: nat, i: Id, j: Id)
    requires After(run, limit).Some?
    requires var b := After(run, limit).value.board;
             Is(b, i, Running) && Is(b, j, Running) && b.tasks[i].agent == b.tasks[j].agent
    ensures i == j
  {
    EveryRun(run, limit);
  }

  /** Active exactly while pending or running; finished tasks kept within the limit, each exactly once. */
  lemma StoreExact(run: seq<Event>, limit: nat)
    requires After(run, limit).Some?
    ensures var b := After(run, limit).value.board;
            ActiveExact(b) && FinishedExact(b) && |b.finished| <= limit
  {
    EveryRun(run, limit);
  }

  /** How many tasks of `agent` were cancelled in a run. */
  function CancelledIn(run: seq<Event>, limit: nat, agent: Agent): nat {
    if run == [] || After(run[..|run| - 1], limit).None? then 0 else
    var b := After(run[..|run| - 1], limit).value.board;
    var e := run[|run| - 1];
    CancelledIn(run[..|run| - 1], limit, agent)
    + if e.Cancel? && Unsettled(b, e.id) && b.tasks[e.id].agent == agent then 1 else 0
  }

  /** No agent has work before it is registered. */
  ghost predicate Unregistered(b: Board, cancelled: Agent -> nat) {
    forall a :: a !in b.agents ==> cancelled(a) == 0
  }

  lemma MoveCounts(s: State, m: Move, limit: nat, cancelled: Agent -> nat, cancelled': Agent -> nat)
    requires Inv(s, limit) && Legal(s, m) && Counted(s.board, cancelled) && Unregistered(s.board, cancelled)
    requires forall a :: cancelled'(a) == cancelled(a) +
               if m.End? && m.status == Cancelled && a == s.board.tasks[m.id].agent then 1 else 0
    ensures Counted(Moved(s, m, limit), cancelled') && Unregistered(Moved(s, m, limit), cancelled')
  {
    hide RunsFit, RunningIsCurrent, TicketsFit;
    match m
    case End(id, status) => EndCounts(s.board, id, status, limit, cancelled, cancelled');
    case Begin(id) =>
      BoardStarted(s.board, id, limit);
      hide Update, Good;
      SameActive(s.board, Moved(s, m, limit), cancelled, cancelled');
    case NewTask(agent, id, priority) =>
      assert id !in s.board.active;
      AssignCounts(s.board, agent, id, priority, cancelled);
      hide Good, ActiveOf;
    case NewAgent(agent) => NewAgentCounts(s.board, agent, cancelled, cancelled');
    case Same => hide Good;
  }

  lemma EndCounts(b: Board, id: Id, status: Status, limit: nat, cancelled: Agent -> nat, cancelled': Agent -> nat)
    requires Good(b, limit) && Unsettled(b, id) && !Open(status) && Counted(b, cancelled) && Unregistered(b, cancelled)
    requires forall a :: cancelled'(a) == cancelled(a) + if status == Cancelled && a == b.tasks[id].agent then 1 else 0
    ensures Counted(Settle(b, id, status, limit), cancelled') && Unregistered(Settle(b, id, status, limit), cancelled')
  {
    hide Settle, ActiveOf, FinishedExact;
    assert b.tasks[id].agent in b.agents by { assert id in b.active; }
    hide Good;
    SettleCounts(b, id, status, limit, cancelled);
    SettleKeeps(b, id, status, limit);
    hide Settled;
    var now := a => cancelled(a) + if status == Cancelled && a == b.tasks[id].agent then 1 else 0;
    assert forall a :: cancelled'(a) == now(a);
  }

  lemma SameActive(b: Board, b': Board, cancelled: Agent -> nat, cancelled': Agent -> nat)
    requires Counted(b, cancelled) && Unregistered(b, cancelled) && b'.active == b.active && b'.agents == b.agents
    requires forall a :: cancelled'(a) == cancelled(a)
    ensures Counted(b', cancelled') && Unregistered(b', cancelled')
  {
    forall a ensures ActiveOf(b', a) == ActiveOf(b, a) { }
  }

  lemma NewAgentCounts(b: Board, agent: Agent, cancelled: Agent -> nat, cancelled': Agent -> nat)
    requires ActiveExact(b) && agent !in b.agents && Counted(b, cancelled) && Unregistered(b, cancelled)
    requires forall a :: cancelled'(a) == cancelled(a)
    ensures var b' := b.(agents := b.agents[agent := Stats(0, 0, 0)]); Counted(b', cancelled') && Unregistered(b', cancelled')
  {
    var b' := b.(agents := b.agents[agent := Stats(0, 0, 0)]);
    assert ActiveOf(b, agent) == {};
    forall a ensures ActiveOf(b', a) == ActiveOf(b, a) { }
  }

  /** An agent's total equals what completed, failed, was cancelled or is still active. */
  lemma {:induction false} TotalsAddUp(run: seq<Event>, limit: nat)
    requires After(run, limit).Some?
    ensures Counted(After(run, limit).value.board, a => CancelledIn(run, limit, a))
    ensures Unregistered(After(run, limit).value.board, a => CancelledIn(run, limit, a))
  {
    hide Step, Inv, Counted, Unregistered, Moved;
    if run == [] {
      NothingCounted(limit);
    } else {
      var before, e := run[..|run| - 1], run[|run| - 1];
      TotalsAddUp(before, limit);
      EveryRun(before, limit);
      var s := After(before, limit).value;
      StepMoves(s, e, limit);
      MoveCounts(s, MoveOf(s, e), limit, a => CancelledIn(before, limit, a), a => CancelledIn(run, limit, a));
    }
  }

  lemma NothingCounted(limit: nat)
    ensures Counted(EMPTY.board, a => CancelledIn([], limit, a))
    ensures Unregistered(EMPTY.board, a => CancelledIn([], limit, a))
  {
  }

  /** The task a worker takes is the oldest of the highest-priority pending ones in its queue. */
  lemma TakesFirst(run: seq<Event>, limit: nat, agent: Agent)
    requires After(run, limit).Some? && Enabled(After(run, limit).value, Dequeue(agent))
    requires agent in Dequeued(After(run, limit).value, agent).current
    ensures var s := After(run, limit).value;
            var id := Dequeued(s, agent).current[agent].id;
            Is(s.board, id, Pending) && s.board.tasks[id].agent == agent
            && exists mine <- s.queues[agent] :: mine.id == id &&
                 forall t <- s.queues[agent] :: Is(s.board, t.id, Pending) ==>
                   var p, p' := s.board.tasks[id].priority, s.board.tasks[t.id].priority;
                   p > p' || (p == p' && mine.number <= t.number)
  {
    EveryRun(run, limit);
    var s := After(run, limit).value;
    hide After, Good;
    var q := s.queues[agent];
    var mine := q[Pick(q)];
    assert mine in q;
    forall t <- q | Is(s.board, t.id, Pending)
      ensures var p, p' := s.board.tasks[mine.id].priority, s.board.tasks[t.id].priority;
              p > p' || (p == p' && mine.number <= t.number)
    {
    }
  }

  // ---- the runner object --------------------------------------------------------------------------

  /** One method per stretch of code between two awaits. */
  class TaskRunner {
    const orch: Orchestrator
    var queues: map<Agent, seq<Ticket>>
    var current: map<Agent, Run>
    var next: nat
    ghost var used: set<Id>

    ghost function Now(): State
      reads this, orch
    {
      State(orch.Value(), queues, current, next, used)
    }

    constructor (orch: Orchestrator)
      requires orch.Value() == EMPTY.board
      ensures Now() == EMPTY && this.orch == orch
    {
      this.orch := orch;
      queues, current, next, used := map[], map[], 0, {};
    }

    /** `submit`; false for the `KeyError` on an unknown task. */
    method Submit(id: Id) returns (known: bool)
      modifies this
      ensures known <==> id in orch.tasks
      ensures Now() == Step(old(Now()), Event.Submit(id), orch.maxFinished)
    {
      if id !in orch.tasks {
        return false;
      }
      var task := orch.tasks[id];
      var q := if task.agent in queues then queues[task.agent] else [];
      queues := queues[task.agent := q + [Ticket(task.priority, next, id)]];
      next := next + 1;
      return true;
    }

    /** A worker's `get` returns and it starts a run, unless the task is no longer pending. */
    method Take(agent: Agent) returns (started: bool)
      requires Enabled(Now(), Dequeue(agent))
      modifies this
      ensures Now() == Step(old(Now()), Dequeue(agent), orch.maxFinished) && started == (agent in current)
    {
      var q := queues[agent];
      var i := Pick(q);
      var id := q[i].id;
      queues := queues[agent := q[..i] + q[i + 1..]];
      if id !in orch.tasks || orch.tasks[id].status != Pending {
        return false;
      }
      current := current[agent := Run(id, Created, false)];
      return true;
    }

    /** The first stretch of `_run`, up to the dispatch. */
    method Begin(agent: Agent, known: bool)
      requires Enabled(Now(), Start(agent, known))
      modifies this, orch
      ensures Now() == Step(old(Now()), Start(agent, known), orch.maxFinished)
    {
      hide Settle, Update;
      var run := current[agent];
      if run.stopping || run.id !in orch.tasks {
        current := current[agent := run.(phase := Over)];
      } else if !known {
        FailTask(run.id);
        current := current[agent := run.(phase := Over)];
      } else {
        var found := orch.StartTask(run.id);
        current := current[agent := run.(phase := Dispatching)];
      }
    }

    /** `_fail`. */
    method FailTask(id: Id)
      modifies orch
      ensures orch.Value() == Fail(old(orch.Value()), id, orch.maxFinished)
    {
      if id in orch.tasks && (orch.tasks[id].status == Running || orch.tasks[id].status == Pending) {
        var found := orch.FailTask(id);
      }
    }

    /** The end of `_run`: the dispatch returned, raised, timed out or was cancelled. */
    method End(agent: Agent, outcome: Outcome)
      requires Enabled(Now(), Finish(agent, outcome))
      modifies this, orch
      ensures Now() == Step(old(Now()), Finish(agent, outcome), orch.maxFinished)
    {
      hide Settle;
      var run := current[agent];
      match outcome {
        case Result =>
          if run.id in orch.tasks && orch.tasks[run.id].status == Running {
            var found := orch.CompleteTask(run.id);
          }
        case Stopped =>
        case _ => FailTask(run.id);
      }
      current := current[agent := run.(phase := Over)];
    }

    /** The worker sees that its run is over. */
    method Forget(agent: Agent)
      requires Enabled(Now(), Reap(agent))
      modifies this
      ensures Now() == Step(old(Now()), Reap(agent), orch.maxFinished)
    {
      current := current - {agent};
    }

    method Cancel(id: Id) returns (cancelled: bool)
      modifies this, orch
      ensures cancelled <==> Unsettled(old(Now()).board, id)
      ensures Now() == Step(old(Now()), Event.Cancel(id), orch.maxFinished)
    {
      hide Settle;
      if id !in orch.tasks || !Open(orch.tasks[id].status) {
        return false;
      }
      var agent := orch.tasks[id].agent;
      orch.CancelTask(id);
      if agent in current && current[agent].id == id {
        current := current[agent := current[agent].(stopping := true)];
      }
      return true;
    }
  }
}
