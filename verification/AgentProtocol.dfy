/** Any number of agent workers, operators and executors against one queue and one sealed plan store.
  *
  * A worker is the program of agent_worker.run_once with a program counter: every locked queue section
  * and every native query is one step, so other steps may come between any two of them. A worker may stop
  * at any point. Worker i presents the i-th claim token ever minted.
  */
module AgentProtocol {
  import opened Text
  import opened AgentQueue

  type Key = (string, string)

  /** The executor process of a worker, as far as the sealed task can tell: it may take the task (Holding),
    * die with the task in its hands (Abandoned), or be done with it (Ended). */
  datatype Executor = NotStarted | Started | Holding | Abandoned | Ended

  datatype Pc =
    | Manual | Fresh | AskNext | CheckExecutable | Renew | Launch | Wait | Verify
    | DeferBegin(guarded: bool) | DeferQuery(guarded: bool, seen: Job) | DeferCommit(guarded: bool)
    | MustReconcile
    | CompleteBegin | CompleteQuery(seen: Job) | CompleteCommit(report: NativeTask)
    | Gone

  datatype Worker = Worker(claim: Job, agent: string, seconds: int, pc: Pc, executor: Executor, heartbeatLost: bool)

  datatype Operator = OperatorQuery(seen: Job) | OperatorCommit(seen: Job, report: NativeTask) | OperatorGone

  datatype System = System(
    queue: Queue, native: map<Key, NativeTask>, workers: seq<Worker>, operators: seq<Operator>, now: int)

  /** What the environment decides in a worker's or operator's step. */
  datatype Input = Input(enrolled: bool, available: bool, choice: bool)

  datatype Step =
    | Tick(elapsed: nat)
    | PublishTask(plan: string, task: string, node: string, adapter: string, attempt: int)
    | PublishDies(plan: string, task: string, node: string, adapter: string, attempt: int)
    | ClaimJob(node: string, agent: string, seconds: int, enrolled: bool, manual: bool)
    | Act(worker: nat, input: Input)
    | Crash(worker: nat)
    | ExecutorClaim(worker: nat)
    | ExecutorFinish(worker: nat, ok: bool)
    | ExecutorExit(worker: nat)
    | Dispatch(plan: string, task: string, adapter: string)
    | LoseTrack(key: Key)
    | RetryTask(key: Key)
    | BeginReconcile(id: string)
    | Operate(operator: nat, input: Input)

  function KeyOf(j: Job): Key {
    (j.plan, j.task)
  }

  /** native_task: the sealed report for this job's attempt, if the tool answers and it matches. */
  function Query(native: map<Key, NativeTask>, j: Job, available: bool): Option<NativeTask> {
    if available && KeyOf(j) in native && Describes(native[KeyOf(j)], j) then Some(native[KeyOf(j)]) else None
  }

  function WithWorker(s: System, i: nat, w: Worker): System
    requires i < |s.workers|
  {
    s.(workers := s.workers[i := w])
  }

  /** A refused deferral is reconciled only where run_once catches the error. */
  function AfterRefusal(guarded: bool): Pc {
    if guarded then MustReconcile else Gone
  }

  predicate ProcessGone(e: Executor) {
    e.Ended? || e.Abandoned?
  }

  predicate Renewing(w: Worker, choice: bool) {
    (w.pc.Manual? && choice) || w.pc.Renew? || (w.pc.Wait? && !ProcessGone(w.executor) && !w.heartbeatLost)
  }

  /** Worker i presenting its own token. */
  function Presenter(s: System, i: nat, input: Input): Caller
    requires i < |s.workers|
  {
    Caller(s.workers[i].agent, input.enrolled, Some(i))
  }

  /** The queue call worker i makes at its program point, if any. */
  function QueueCall(s: System, i: nat, input: Input): (Queue, Reply)
    requires i < |s.workers|
  {
    var w := s.workers[i];
    var id := w.claim.id;
    var who := Presenter(s, i, input);
    if Renewing(w, input.choice) then ExtendLease(s.queue, id, who, w.seconds, s.now)
    else match w.pc
      case DeferBegin(_) | CompleteBegin => OwnedSection(s.queue, id, who, s.now)
      case DeferCommit(_) => DeferPending(s.queue, id, who, s.now)
      case MustReconcile => RequireReconciliation(s.queue, id, who, s.now)
      case CompleteCommit(report) => Complete(s.queue, id, who, report, s.now)
      case _ => (s.queue, Idle)
  }

  /** The native query worker i makes at its program point, if any. */
  function NativeCall(s: System, i: nat, input: Input): Option<NativeTask>
    requires i < |s.workers|
  {
    match s.workers[i].pc
    case Fresh | Verify => Query(s.native, s.workers[i].claim, input.available)
    case DeferQuery(_, seen) => Query(s.native, seen, input.available)
    case CompleteQuery(seen) => Query(s.native, seen, input.available)
    case _ => None
  }

  /** The program of run_once: what follows a queue reply, a native report or a choice. */
  function Follow(w: Worker, r: Reply, t: Option<NativeTask>, choice: bool): Worker {
    match w.pc
    case Manual => if choice then w else w.(pc := CompleteBegin)
    case Fresh => w.(pc := if t.Some? && t.value.status.Pending? then AskNext else MustReconcile)
    case AskNext => w.(pc := if choice then CheckExecutable else DeferBegin(true))
    case CheckExecutable => w.(pc := if choice then Renew else DeferBegin(false))
    case Renew => w.(pc := if r.Granted? then Launch else Gone)
    case Launch => if choice then w.(pc := Wait, executor := Started) else w.(pc := DeferBegin(false))
    case Wait =>
      if ProcessGone(w.executor) then w.(pc := if w.heartbeatLost then Gone else Verify)
      else w.(heartbeatLost := w.heartbeatLost || !r.Granted?)
    case Verify =>
      w.(pc := if t.None? then MustReconcile
               else if t.value.status.Pending? then DeferBegin(true)
               else if Terminal(t.value.status) then CompleteBegin
               else MustReconcile)
    case DeferBegin(guarded) => w.(pc := if r.Granted? then DeferQuery(guarded, r.job) else AfterRefusal(guarded))
    case DeferQuery(guarded, _) => w.(pc := if t.Some? && t.value.status.Pending? then DeferCommit(guarded) else AfterRefusal(guarded))
    case DeferCommit(guarded) => w.(pc := if r.Granted? then Gone else AfterRefusal(guarded))
    case MustReconcile => w.(pc := Gone)
    case CompleteBegin => w.(pc := if r.Granted? then CompleteQuery(r.job) else Gone)
    case CompleteQuery(_) => w.(pc := if t.Some? && Terminal(t.value.status) then CompleteCommit(t.value) else Gone)
    case CompleteCommit(_) => w.(pc := Gone)
    case Gone => w
  }

  function Advance(s: System, i: nat, input: Input): System
    requires i < |s.workers|
  {
    var (q', r) := QueueCall(s, i, input);
    WithWorker(s.(queue := q'), i, Follow(s.workers[i], r, NativeCall(s, i, input), input.choice))
  }

  function AdvanceOperator(s: System, k: nat, input: Input): System
    requires k < |s.operators|
  {
    match s.operators[k]
    case OperatorQuery(seen) =>
      var t := Query(s.native, seen, input.available);
      s.(operators := s.operators[k := if t.Some? && Terminal(t.value.status) then OperatorCommit(seen, t.value) else OperatorGone])
    case OperatorCommit(seen, report) =>
      s.(queue := ReconcileCommit(s.queue, seen, report).0, operators := s.operators[k := OperatorGone])
    case OperatorGone => s
  }

  function SetNative(s: System, key: Key, status: NativeStatus, retryCount: nat): System
    requires key in s.native
  {
    s.(native := s.native[key := s.native[key].(status := status, retryCount := retryCount)])
  }

  ghost function ClaimStep(s: System, node: string, agent: string, seconds: int, enrolled: bool, manual: bool): System {
    var (q', r) := Claim(s.queue, node, agent, seconds, enrolled, |s.workers|, s.now);
    if r.Granted?
    then s.(queue := q', workers := s.workers + [Worker(r.job, agent, seconds, if manual then Manual else Fresh, NotStarted, false)])
    else s.(queue := q')
  }

  /** One step; a step that is not enabled changes nothing. */
  ghost function Next(s: System, step: Step): System {
    match step
    case Tick(elapsed) => s.(now := s.now + elapsed)
    case PublishTask(plan, task, node, adapter, attempt) =>
      s.(queue := Publish(s.queue, plan, task, node, adapter, attempt).0)
    case PublishDies(plan, task, node, adapter, attempt) =>
      s.(queue := PublishInterrupted(s.queue, plan, task, node, adapter, attempt))
    case ClaimJob(node, agent, seconds, enrolled, manual) => ClaimStep(s, node, agent, seconds, enrolled, manual)
    case Act(i, input) => if i < |s.workers| then Advance(s, i, input) else s
    case Crash(i) => if i < |s.workers| then WithWorker(s, i, s.workers[i].(pc := Gone)) else s
    case ExecutorClaim(i) =>
      if i < |s.workers| && s.workers[i].executor.Started?
         && KeyOf(s.workers[i].claim) in s.native && s.native[KeyOf(s.workers[i].claim)].status.Pending?
      then
        var key := KeyOf(s.workers[i].claim);
        WithWorker(SetNative(s, key, Executing, s.native[key].retryCount), i, s.workers[i].(executor := Holding))
      else s
    case ExecutorFinish(i, ok) =>
      if i < |s.workers| && s.workers[i].executor.Holding?
         && KeyOf(s.workers[i].claim) in s.native && s.native[KeyOf(s.workers[i].claim)].status.Executing?
      then
        var key := KeyOf(s.workers[i].claim);
        WithWorker(SetNative(s, key, if ok then Succeeded else Failed, s.native[key].retryCount), i, s.workers[i].(executor := Ended))
      else s
    case ExecutorExit(i) =>
      if i < |s.workers| && s.workers[i].executor.Started? then WithWorker(s, i, s.workers[i].(executor := Ended))
      else if i < |s.workers| && s.workers[i].executor.Holding? then WithWorker(s, i, s.workers[i].(executor := Abandoned))
      else s
    case Dispatch(plan, task, adapter) =>
      if (plan, task) in s.native then s
      else s.(native := s.native[(plan, task) := NativeTask(plan, task, adapter, Pending, 0)])
    case LoseTrack(key) =>
      if key in s.native && s.native[key].status.Executing? then SetNative(s, key, Unknown, s.native[key].retryCount) else s
    case RetryTask(key) =>
      if key in s.native && s.native[key].status.Failed? then SetNative(s, key, Pending, s.native[key].retryCount + 1) else s
    case BeginReconcile(id) =>
      var (q', r) := ReconcileBegin(s.queue, id, s.now);
      if r.Granted? then s.(queue := q', operators := s.operators + [OperatorQuery(r.job)]) else s.(queue := q')
    case Operate(k, input) => if k < |s.operators| then AdvanceOperator(s, k, input) else s
  }

  ghost function Run(s: System, steps: seq<Step>): System {
    if |steps| == 0 then s else Next(Run(s, steps[..|steps| - 1]), steps[|steps| - 1])
  }

  function Initial(now: int): System {
    System(Queue(map[], [], map[]), map[], [], [], now)
  }
}
