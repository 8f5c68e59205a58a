/** Recovery preparation: requests, target locks, and the processes that execute and reconcile them.
  *
  * Each external command is one step with an outcome chosen by the environment inside its footprint; a process may
  * also be killed between any two steps, or inside a write of the request file. A write moves the new record into place
  * and seals it afterwards, so a torn write leaves the new record unsealed. Commands that touch a service footprint may
  * fail with any effect inside it. Read-only commands report the truth when they succeed. Only executions and
  * reconciliations change the services of a target, and a kill also ends the command in flight.
  */
module RecoveryPrep {
  import opened Text

  datatype State =
    | AwaitingApproval | Approved | Authorized | Running
    | Completed | Blocked | FailedServicesRestored | ValidationFailed | RecoveryRequired

  datatype Phase =
    | Initializing | ValidatingRman | Quiesce | Archive | Mount | Backup | RestoreServices | SealingEvidence | ValidatingRecovery

  /** The part of a request that create seals into the immutable source request. */
  datatype Binding = Binding(requester: string, home: string, database: string, windowStart: int, windowEnd: int)

  /** `listener` holds the services recorded before the stop, if a listener was running. `admittedAt` is the time of
    * the window check in execute, `startedAt` the time recorded when the request becomes running, `rootExists` whether
    * the backup root of the request has been created. */
  datatype Request = Request(
    binding: Binding, source: Binding, sealed: bool, state: State,
    approver: Option<string>, authorizer: Option<string>, executor: Option<string>,
    admittedAt: Option<int>, startedAt: Option<int>, listener: Option<set<string>>,
    rootExists: bool)

  type Target = (string, string)

  datatype Host = Host(openReadWrite: bool, listenerUp: bool, services: set<string>, ready: bool)

  /** The commands of execute_request once the request is running, in order. */
  datatype Op =
    | MakeRoot | PrepareRoot | MarkValidatingRman | CheckSyntax
    | MarkQuiesce | StopListener | Shutdown
    | MarkArchive | ArchiveHomes
    | MarkMount | MountDatabase | CheckMount
    | MarkBackup | RunRman | CheckPieces
    | MarkRestore | OpenDatabase | StartListener | Register | CheckServices | CheckStatus | ProbeDatabase
    | MarkSealing | SealEvidence
    | MarkValidating | Validate
    | RecordCompleted | Finish

  /** The commands of restore_services_after_failure, with its two verdict variables. */
  datatype Restore =
    | ROpen | RStartup | RProbe
    | RStatus(health: bool) | RStart(health: bool) | RRecheck(health: bool)
    | RRegister | RVerify | RVerdict(restored: bool)

  /** An admitted execution has passed the checks of the request and is about to take the lock of its target; a blocking
    * one is about to record that nothing was mutated. */
  datatype Pc =
    | Admitted | Preflight | At(op: Op) | Blocking | Restoring(step: Restore, phase: Option<Phase>)
    | Unlock(reconciling: bool) | Gone

  /** `start` is the state of the services when the request became running. */
  datatype Process = Process(request: string, actor: string, admittedAt: int, pc: Pc, alive: bool, start: Host)

  datatype World = World(
    requests: map<string, Request>, locks: map<Target, nat>, hosts: map<Target, Host>, processes: seq<Process>, now: int)

  datatype Step =
    | Tick(elapsed: nat)
    | Create(id: string, binding: Binding)
    | Approve(id: string, actor: string)
    | Authorize(id: string, actor: string)
    | Execute(id: string, actor: string)
    | Reconcile(id: string, actor: string)
    | Go(process: nat, ok: bool, host: Host, torn: bool)
    | Kill(process: nat, torn: bool)
    | LoseRecord(process: nat, torn: bool)

  function TargetOf(b: Binding): Target {
    (b.home, b.database)
  }

  predicate WindowOpen(b: Binding, now: int) {
    b.windowStart <= now <= b.windowEnd
  }

  /** load_request: the record must pass its seal and still match its immutable source. */
  predicate Loads(w: World, id: string) {
    id in w.requests && w.requests[id].sealed && w.requests[id].binding == w.requests[id].source
  }

  // ---- services ----

  predicate ListenerServes(h: Host, services: set<string>) {
    h.listenerUp && services <= h.services && h.ready
  }

  predicate Healthy(h: Host, listener: Option<set<string>>) {
    h.openReadWrite && (listener.Some? ==> ListenerServes(h, listener.value))
  }

  // ---- the execution program ----

  function After(op: Op): Op {
    match op
    case MakeRoot => PrepareRoot
    case PrepareRoot => MarkValidatingRman
    case MarkValidatingRman => CheckSyntax
    case CheckSyntax => MarkQuiesce
    case MarkQuiesce => StopListener
    case StopListener => Shutdown
    case Shutdown => MarkArchive
    case MarkArchive => ArchiveHomes
    case ArchiveHomes => MarkMount
    case MarkMount => MountDatabase
    case MountDatabase => CheckMount
    case CheckMount => MarkBackup
    case MarkBackup => RunRman
    case RunRman => CheckPieces
    case CheckPieces => MarkRestore
    case MarkRestore => OpenDatabase
    case OpenDatabase => StartListener
    case StartListener => Register
    case Register => CheckServices
    case CheckServices => CheckStatus
    case CheckStatus => ProbeDatabase
    case ProbeDatabase => MarkSealing
    case MarkSealing => SealEvidence
    case SealEvidence => MarkValidating
    case MarkValidating => Validate
    case Validate => RecordCompleted
    case RecordCompleted => Finish
    case Finish => Finish
  }

  /** CURRENT_PHASE while the command runs; a phase marker sets it before it writes the record. */
  function PhaseOf(op: Op): Phase {
    match op
    case MakeRoot | PrepareRoot => Initializing
    case MarkValidatingRman | CheckSyntax => ValidatingRman
    case MarkQuiesce | StopListener | Shutdown => Quiesce
    case MarkArchive | ArchiveHomes => Archive
    case MarkMount | MountDatabase | CheckMount => Mount
    case MarkBackup | RunRman | CheckPieces => Backup
    case MarkRestore | OpenDatabase | StartListener | Register | CheckServices | CheckStatus | ProbeDatabase => RestoreServices
    case MarkSealing | SealEvidence => SealingEvidence
    case MarkValidating | Validate | RecordCompleted | Finish => ValidatingRecovery
  }

  /** MUTATION_STARTED is set just before the quiesce phase is recorded. */
  predicate MutationStarted(op: Op) {
    !(op.MakeRoot? || op.PrepareRoot? || op.MarkValidatingRman? || op.CheckSyntax?)
  }

  /** set_execution_phase, and the record of the completed preparation. */
  predicate Marks(op: Op) {
    op.MarkValidatingRman? || op.MarkQuiesce? || op.MarkArchive? || op.MarkMount? || op.MarkBackup? || op.MarkRestore?
    || op.MarkSealing? || op.MarkValidating? || op.RecordCompleted?
  }

  /** What a command may do to the services, and what its success proves. */
  predicate OpMay(op: Op, listener: Option<set<string>>, h: Host, ok: bool, h': Host) {
    match op
    case Shutdown | MountDatabase | RunRman | OpenDatabase => true
    case StopListener | StartListener => h'.openReadWrite == h.openReadWrite && (listener.None? ==> h' == h)
    case Register => h'.openReadWrite == h.openReadWrite && h'.listenerUp == h.listenerUp
    case CheckServices =>
      h'.openReadWrite == h.openReadWrite && (listener.None? ==> h' == h) && (ok && listener.Some? ==> ListenerServes(h', listener.value))
    case ProbeDatabase => h' == h && (ok ==> h.openReadWrite)
    case _ => h' == h
  }

  predicate RestoreMay(r: Restore, listener: Option<set<string>>, h: Host, ok: bool, h': Host) {
    match r
    case ROpen | RStartup => true
    case RProbe => h' == h && (ok ==> h.openReadWrite)
    case RStatus(_) | RRecheck(_) => h' == h && (ok ==> h.listenerUp)
    case RStart(_) => h'.openReadWrite == h.openReadWrite
    case RRegister => h'.openReadWrite == h.openReadWrite && h'.listenerUp == h.listenerUp
    case RVerify => h'.openReadWrite == h.openReadWrite && (ok && listener.Some? ==> ListenerServes(h', listener.value))
    case RVerdict(_) => h' == h
  }

  function RestoreNext(r: Restore, listener: Option<set<string>>, ok: bool): Restore {
    match r
    case ROpen => if ok then RProbe else RStartup
    case RStartup => RProbe
    case RProbe => if listener.Some? then RStatus(ok) else RVerdict(ok)
    case RStatus(health) => if ok then RRecheck(health) else RStart(health)
    case RStart(health) => if ok then RRecheck(health) else RVerdict(false)
    case RRecheck(health) => if ok && health then RRegister else RVerdict(false)
    case RRegister => if ok then RVerify else RVerdict(false)
    case RVerify => RVerdict(ok)
    case RVerdict(_) => r
  }

  /** The label of a failed or interrupted execution; no phase means reconciliation. */
  function FinalState(restored: bool, phase: Option<Phase>): State {
    if !restored then RecoveryRequired
    else if phase == Some(ValidatingRecovery) then ValidationFailed
    else FailedServicesRestored
  }

  // ---- steps ----

  function SetRequest(w: World, id: string, r: Request): World {
    w.(requests := w.requests[id := r])
  }

  function SetProcess(w: World, i: nat, p: Process): World
    requires i < |w.processes|
  {
    w.(processes := w.processes[i := p])
  }

  /** Whether process i may act, and on what. */
  predicate Runs(w: World, i: nat) {
    && i < |w.processes| && w.processes[i].alive && !w.processes[i].pc.Gone?
    && w.processes[i].request in w.requests
    && TargetOf(w.requests[w.processes[i].request].binding) in w.hosts
  }

  /** What one command of a process leaves behind: itself, its request, the services, whether it drops the lock and
    * whether it wrote the record. */
  datatype Effect = Effect(process: Process, request: Request, host: Host, unlocks: bool, writes: bool)

  /** The preflight finds an open database, a fresh backup root, and no listener or one that serves something. */
  predicate PreflightPasses(r: Request, h: Host) {
    !r.rootExists && h.openReadWrite && (h.listenerUp ==> h.ready && h.services != {})
  }

  function Started(p: Process, r: Request, h: Host, now: int): Request {
    r.(state := Running, executor := Some(p.actor), admittedAt := Some(p.admittedAt), startedAt := Some(now),
       listener := if h.listenerUp then Some(h.services) else None, sealed := true)
  }

  /** One command of process p, working on request r and services h; the environment chooses `ok` and `h'`. A choice
    * outside the footprint of the command leaves everything as it is. */
  function Command(p: Process, r: Request, h: Host, now: int, ok: bool, h': Host): Effect {
    match p.pc
    case Admitted => Effect(p, r, h, false, false)
    case Preflight =>
      // The preflight inventories services, and on success records the request as running.
      if !ok then Effect(p.(pc := Unlock(false)), r, h, false, false)
      else if !PreflightPasses(r, h) then Effect(p, r, h, false, false)
      else Effect(p.(pc := At(MakeRoot), start := h), Started(p, r, h, now), h, false, true)
    case At(op) =>
      if !OpMay(op, r.listener, h, ok, h') then Effect(p, r, h, false, false)
      else if !ok then
        Effect(p.(pc := if MutationStarted(op) then Restoring(ROpen, Some(PhaseOf(op))) else Blocking), r, h', false, false)
      else if op.RecordCompleted? then Effect(p.(pc := At(Finish)), r.(state := Completed, sealed := true), h', false, true)
      else if op.Finish? then Effect(p.(pc := Unlock(false)), r, h', false, false)
      else if op.MakeRoot? then Effect(p.(pc := At(PrepareRoot)), r.(rootExists := true), h', false, false)
      else if Marks(op) then Effect(p.(pc := At(After(op))), r.(sealed := true), h', false, true)
      else Effect(p.(pc := At(After(op))), r, h', false, false)
    case Blocking => Effect(p.(pc := Unlock(false)), r.(state := Blocked, sealed := true), h, false, true)
    case Restoring(RVerdict(restored), phase) =>
      // The trap leaves a completed label alone.
      if r.state.Completed? && phase.Some? then Effect(p.(pc := Unlock(false)), r, h, false, false)
      else Effect(p.(pc := Unlock(phase.None?)), r.(state := FinalState(restored, phase), sealed := true), h, false, true)
    case Restoring(step, phase) =>
      if !RestoreMay(step, r.listener, h, ok, h') then Effect(p, r, h, false, false)
      else Effect(p.(pc := Restoring(RestoreNext(step, r.listener, ok), phase)), r, h', false, false)
    case Unlock(_) => Effect(p.(pc := Gone), r, h, true, false)
    case Gone => Effect(p, r, h, false, false)
  }

  /** The record the process is about to write, moved into place but not sealed; without a write, the record as it is. */
  function Torn(p: Process, r: Request, h: Host, now: int): Request {
    var e := Command(p, r, h, now, true, h);
    if e.writes then e.request.(sealed := false) else r
  }

  function Apply(w: World, i: nat, e: Effect): World
    requires Runs(w, i)
  {
    var id := w.processes[i].request;
    var t := TargetOf(w.requests[id].binding);
    World(w.requests[id := e.request], if e.unlocks then w.locks - {t} else w.locks, w.hosts[t := e.host],
          w.processes[i := e.process], w.now)
  }

  /** A failing write of a phase may leave the new record unsealed; the process goes on to its trap. */
  function Tearing(p: Process, r: Request, h: Host, now: int, ok: bool, h': Host, torn: bool): Effect {
    var e := Command(p, r, h, now, ok, h');
    if !ok && torn && p.pc.At? && Marks(p.pc.op) && e.process != p then e.(request := Torn(p, r, h, now)) else e
  }

  /** mkdir of the lock directory, which only one process gets; the others die. */
  function TakeLock(w: World, i: nat, ok: bool): World
    requires Runs(w, i)
  {
    var p := w.processes[i];
    var t := TargetOf(w.requests[p.request].binding);
    if !ok || t in w.locks then SetProcess(w, i, p.(pc := Gone))
    else SetProcess(w, i, p.(pc := Preflight)).(locks := w.locks[t := i])
  }

  function Proceed(w: World, i: nat, ok: bool, h': Host, torn: bool): World
    requires Runs(w, i)
  {
    var p := w.processes[i];
    var r := w.requests[p.request];
    if p.pc.Admitted? then TakeLock(w, i, ok)
    else Apply(w, i, Tearing(p, r, w.hosts[TargetOf(r.binding)], w.now, ok, h', torn))
  }

  function CreateRequest(w: World, id: string, b: Binding): World {
    if id in w.requests || b.windowStart >= b.windowEnd || b.windowEnd - b.windowStart > 86400 || TargetOf(b) !in w.hosts then w
    else SetRequest(w, id, Request(b, b, true, AwaitingApproval, None, None, None, None, None, None, false))
  }

  function ApproveRequest(w: World, id: string, actor: string): World {
    if !Loads(w, id) || !w.requests[id].state.AwaitingApproval? || actor == w.requests[id].binding.requester then w
    else SetRequest(w, id, w.requests[id].(state := Approved, approver := Some(actor)))
  }

  function AuthorizeRequest(w: World, id: string, actor: string): World {
    if !Loads(w, id) || !w.requests[id].state.Approved? || Some(actor) == w.requests[id].approver
       || actor == w.requests[id].binding.requester || !WindowOpen(w.requests[id].binding, w.now) then w
    else SetRequest(w, id, w.requests[id].(state := Authorized, authorizer := Some(actor)))
  }

  /** execute up to the last check before the lock: state, actor and window are not looked at again. */
  function BeginExecution(w: World, id: string, actor: string): World {
    if !Loads(w, id) || !w.requests[id].state.Authorized? || Some(actor) != w.requests[id].authorizer
       || !WindowOpen(w.requests[id].binding, w.now) || TargetOf(w.requests[id].binding) !in w.hosts then w
    else
      var h := w.hosts[TargetOf(w.requests[id].binding)];
      w.(processes := w.processes + [Process(id, actor, w.now, Admitted, true, h)])
  }

  /** No other reconciliation of the request is under way. */
  predicate SoleReconciler(w: World, id: string) {
    forall i | 0 <= i < |w.processes| :: w.processes[i].request == id && w.processes[i].alive ==>
      !(w.processes[i].pc.Restoring? && w.processes[i].pc.phase.None?)
  }

  /** reconcile refuses while the recorded owner of the lock is alive. */
  function BeginReconciliation(w: World, id: string, actor: string): World {
    if !Loads(w, id) || !w.requests[id].state.Running? || Some(actor) != w.requests[id].authorizer || !SoleReconciler(w, id)
       || TargetOf(w.requests[id].binding) !in w.hosts then w
    else
      var t := TargetOf(w.requests[id].binding);
      if t in w.locks && w.locks[t] < |w.processes| && w.processes[w.locks[t]].alive && !w.processes[w.locks[t]].pc.Gone? then w
      else w.(processes := w.processes + [Process(id, actor, w.now, Restoring(ROpen, None), true, w.hosts[t])])
  }

  function KillProcess(w: World, i: nat, torn: bool): World {
    if i >= |w.processes| || !w.processes[i].alive then w
    else
      var p := w.processes[i];
      var w1 := SetProcess(w, i, p.(alive := false));
      if !torn || !Runs(w, i) then w1
      else
        var r := w.requests[p.request];
        SetRequest(w1, p.request, Torn(p, r, w.hosts[TargetOf(r.binding)], w.now))
  }

  /** Where an exit trap may end without having kept the record: the record is written for the last time, or the
    * process has recorded running and not yet installed its second trap. */
  predicate MayLose(p: Process, r: Request, h: Host, now: int) {
    match p.pc
    case At(op) => op.MakeRoot?
    case Preflight | Blocking => Command(p, r, h, now, true, h).writes
    case Restoring(step, phase) => step.RVerdict? && phase.Some? && Command(p, r, h, now, true, h).writes
    case _ => false
  }

  /** The write fails, or the process is terminated there: the record stays as it was or is left unsealed, and the trap
    * releases the lock all the same. */
  function LoseTheRecord(w: World, i: nat, torn: bool): World {
    if !Runs(w, i) then w
    else
      var p := w.processes[i];
      var r := w.requests[p.request];
      var h := w.hosts[TargetOf(r.binding)];
      if !MayLose(p, r, h, w.now) then w
      else SetProcess(SetRequest(w, p.request, if torn then Torn(p, r, h, w.now) else r), i, p.(pc := Unlock(false)))
  }

  function Next(w: World, step: Step): World {
    match step
    case Tick(elapsed) => w.(now := w.now + elapsed)
    case Create(id, b) => CreateRequest(w, id, b)
    case Approve(id, actor) => ApproveRequest(w, id, actor)
    case Authorize(id, actor) => AuthorizeRequest(w, id, actor)
    case Execute(id, actor) => BeginExecution(w, id, actor)
    case Reconcile(id, actor) => BeginReconciliation(w, id, actor)
    case Go(i, ok, host, torn) => if Runs(w, i) then Proceed(w, i, ok, host, torn) else w
    case Kill(i, torn) => KillProcess(w, i, torn)
    case LoseRecord(i, torn) => LoseTheRecord(w, i, torn)
  }

  function Run(w: World, steps: seq<Step>): World {
    if |steps| == 0 then w else Next(Run(w, steps[..|steps| - 1]), steps[|steps| - 1])
  }

  /** Any hosts, no requests yet. */
  function Initial(hosts: map<Target, Host>, now: int): World {
    World(map[], map[], hosts, [], now)
  }
}
