/** The run registry: one record per run in memory and on disk, one active run per key, and reconciliation.
  *
  * Controllers follow one another; a crash loses memory and keeps the disk. A run's own thread, the requests that
  * load a record, and reconciliation interleave in any order. A write of a record can succeed, fail before it took
  * effect, or fail after it did. The remote executor of a run ends, and its task is sealed, on their own. */
module RunRegistry {
  import opened Text

  datatype Status = Queued | Running | Unknown | Reconciling | Succeeded | Failed

  /** `terminal` is meaningful for the latest detached launch. */
  datatype Run = Run(key: string, status: Status, owner: nat, detached: bool, terminal: bool)

  /** Where the thread of a run is: not started, in the work function, before its last write, before it frees the key. */
  datatype Thread = NoThread | Starting | Working | Ending | Closing

  datatype Record = Record(run: Run, thread: Thread)

  /** The second line of a poll that found the exit file: missing, not a number, or the exit code. */
  datatype CodeLine = NoLine | Unparsable | Code(value: int)

  /** The latest launch of a run: the exit file of the executor and the outcome of the sealed task, once they exist. */
  datatype Remote = Remote(launched: bool, rc: Option<CodeLine>, sealed: Option<bool>)

  datatype Write = Ok | Lost | KeptButRaised

  /** `owner` numbers controllers; `lock` is the run a reconciliation holds the registry lock for. */
  datatype Registry = Registry(
    disk: map<nat, Run>, runs: map<nat, Record>, activeKeys: map<string, nat>, lock: Option<nat>, instance: nat,
    remote: map<nat, Remote>)

  datatype Step =
    | Start(id: nat, key: string, write: Write)
    | ThreadFails(id: nat, write: Write)
    | Boot(id: nat, write: Write)
    | Log(id: nat, write: Write)
    | Launch(id: nat, write: Write)
    | Observe(id: nat, write: Write)
    | Return(id: nat)
    | Raise(id: nat)
    | Finish(id: nat, write: Write)
    | Close(id: nat)
    | Load(id: nat)
    | BeginReconcile(id: nat, confirmed: bool)
    | CommitReconcile(id: nat, outcome: Status, write: Write)
    | AbortReconcile
    | Exit(id: nat, line: CodeLine)
    | Seal(id: nat, success: bool)
    | Crash

  predicate Unresolved(s: Status) {
    s.Queued? || s.Running? || s.Unknown? || s.Reconciling?
  }

  function RemoteOf(s: Registry, id: nat): Remote {
    if id in s.remote then s.remote[id] else Remote(false, None, None)
  }

  /** An exit code and a terminal sealed task both exist and agree. */
  predicate Verified(r: Remote) {
    r.rc.Some? && r.rc.value.Code? && r.sealed.Some? && (r.rc.value.value == 0 <==> r.sealed.value)
  }

  /** The exit code as the watcher of a launch takes it: an exit file it cannot read counts as 1. */
  function CodeRead(line: CodeLine): int {
    if line.Code? then line.value else 1
  }

  /** What the watcher of a launch accepts as its end. */
  predicate Accepted(r: Remote) {
    r.rc.Some? && r.sealed.Some? && (CodeRead(r.rc.value) == 0 <==> r.sealed.value)
  }

  predicate Active(s: Registry, id: nat, key: string) {
    key in s.activeKeys && s.activeKeys[key] == id
  }

  ghost predicate Busy(s: Registry, key: string) {
    key in s.activeKeys || exists id :: id in s.disk && s.disk[id].key == key && Unresolved(s.disk[id].status)
  }

  // ---- the steps of one run ----

  function Save(s: Registry, id: nat, r: Record, write: Write): Registry {
    s.(runs := s.runs[id := r], disk := if write.Lost? then s.disk else s.disk[id := r.run])
  }

  function Free(s: Registry, id: nat, key: string): Registry {
    if Active(s, id, key) then s.(activeKeys := s.activeKeys - {key}) else s
  }

  /** The status a thread gives its run when the work function raises. */
  function Raised(r: Run): Run {
    r.(status := if r.detached && !r.terminal then Unknown else Failed)
  }

  function SaveWorking(s: Registry, id: nat, r: Run, write: Write): Registry {
    var saved := Save(s, id, Record(r, Working), write);
    if write.Ok? then saved else saved.(runs := s.runs[id := Record(Raised(r), Ending)])
  }

  predicate At(s: Registry, id: nat, thread: Thread) {
    id in s.runs && s.runs[id].thread == thread
  }

  /** The work function returns from its last launch only on exit code 0. */
  predicate ReturnsZero(r: Remote) {
    r.rc.Some? && CodeRead(r.rc.value) == 0
  }

  /** What an inspection of a detached run may report. */
  predicate InspectionMay(r: Remote, outcome: Status) {
    match outcome
    case Succeeded => r.rc == Some(Code(0)) && r.sealed == Some(true)
    case Failed => Verified(r)
    case Unknown => true
    case _ => false
  }

  function Loaded(r: Run, instance: nat): Record {
    Record(if Unresolved(r.status) && r.owner != instance then r.(status := Unknown) else r, NoThread)
  }

  function LoadRun(s: Registry, id: nat): Registry {
    if id in s.runs || id !in s.disk then s else s.(runs := s.runs[id := Loaded(s.disk[id], s.instance)])
  }

  predicate Reconcilable(s: Registry, id: nat, confirmed: bool) {
    && id in s.runs && (s.runs[id].run.status.Unknown? || s.runs[id].run.status.Reconciling?)
    && (s.runs[id].run.detached || (confirmed && s.runs[id].run.owner != s.instance))
  }

  /** The outcome is written, and a durably resolved run frees its key. */
  function CommitRun(s: Registry, id: nat, result: Status, write: Write): Registry
    requires id in s.runs
  {
    var r := s.runs[id];
    var saved := Save(s, id, r.(run := r.run.(status := result)), write).(lock := None);
    if write.Ok? && !Unresolved(result) then Free(saved, id, r.run.key) else saved
  }

  function Commit(s: Registry, id: nat, outcome: Status, write: Write): Registry {
    if s.lock != Some(id) || id !in s.runs then s
    else if s.runs[id].run.detached && !InspectionMay(RemoteOf(s, id), outcome) then s.(lock := None)
    else CommitRun(s, id, if s.runs[id].run.detached then outcome else Failed, write)
  }

  /** A new run of a free key: durable ownership comes before the key and the thread. */
  function Begun(s: Registry, id: nat, key: string, write: Write): Registry {
    var r := Run(key, Queued, s.instance, false, false);
    if write.Ok? then Save(s, id, Record(r, Starting), write).(activeKeys := s.activeKeys[key := id])
    else if write.Lost? then s else s.(disk := s.disk[id := r])
  }

  /** The last write of a thread; if it raises, the run is unknown in memory. */
  function FinishRun(s: Registry, id: nat, write: Write): Registry
    requires id in s.runs
  {
    var r := s.runs[id].run;
    Save(s, id, Record(r, Closing), write).(runs := s.runs[id := Record(if write.Ok? then r else r.(status := Unknown), Closing)])
  }

  /** The end of a thread: a resolved run frees its key. */
  function CloseRun(s: Registry, id: nat): Registry
    requires id in s.runs
  {
    var r := s.runs[id].run;
    var closed := s.(runs := s.runs[id := Record(r, NoThread)]);
    if Unresolved(r.status) then closed else Free(closed, id, r.key)
  }

  ghost function Next(s: Registry, step: Step): Registry {
    match step
    case Start(id, key, write) =>
      if s.lock.Some? || Busy(s, key) || id in s.disk || id in s.runs || id in s.remote then s else Begun(s, id, key, write)
    case ThreadFails(id, write) =>
      if !At(s, id, Starting) then s
      else
        var r := Record(s.runs[id].run.(status := Failed), NoThread);
        if write.Ok? then Free(Save(s, id, r, write), id, r.run.key) else Save(s, id, r, write)
    case Boot(id, write) =>
      if !At(s, id, Starting) then s else SaveWorking(s, id, s.runs[id].run.(status := Running), write)
    case Log(id, write) =>
      if !At(s, id, Working) then s else SaveWorking(s, id, s.runs[id].run, write)
    case Launch(id, write) =>
      if !At(s, id, Working) || (s.runs[id].run.detached && !s.runs[id].run.terminal) then s
      else
        var saved := SaveWorking(s, id, s.runs[id].run.(detached := true, terminal := false), write);
        if write.Ok? then saved.(remote := s.remote[id := Remote(true, None, None)]) else saved
    case Observe(id, write) =>
      if !At(s, id, Working) || !s.runs[id].run.detached || !Accepted(RemoteOf(s, id)) then s
      else SaveWorking(s, id, s.runs[id].run.(terminal := true), write)
    case Return(id) =>
      if !At(s, id, Working) || (s.runs[id].run.detached && !(s.runs[id].run.terminal && ReturnsZero(RemoteOf(s, id)))) then s
      else s.(runs := s.runs[id := Record(s.runs[id].run.(status := Succeeded), Ending)])
    case Raise(id) =>
      if !At(s, id, Working) then s else s.(runs := s.runs[id := Record(Raised(s.runs[id].run), Ending)])
    case Finish(id, write) => if At(s, id, Ending) then FinishRun(s, id, write) else s
    case Close(id) => if At(s, id, Closing) then CloseRun(s, id) else s
    case Load(id) => LoadRun(s, id)
    case BeginReconcile(id, confirmed) =>
      var loaded := LoadRun(s, id);
      if s.lock.Some? || !Reconcilable(loaded, id, confirmed) then loaded else loaded.(lock := Some(id))
    case CommitReconcile(id, outcome, write) => Commit(s, id, outcome, write)
    case AbortReconcile => s.(lock := None)
    case Exit(id, line) =>
      if RemoteOf(s, id).launched && RemoteOf(s, id).rc.None? then
        s.(remote := s.remote[id := s.remote[id].(rc := Some(line))])
      else s
    case Seal(id, success) =>
      if RemoteOf(s, id).launched && RemoteOf(s, id).sealed.None? then
        s.(remote := s.remote[id := s.remote[id].(sealed := Some(success))])
      else s
    case Crash => s.(runs := map[], activeKeys := map[], lock := None, instance := s.instance + 1)
  }

  ghost function Execute(s: Registry, steps: seq<Step>): Registry {
    if |steps| == 0 then s else Next(Execute(s, steps[..|steps| - 1]), steps[|steps| - 1])
  }

  function Initial(): Registry {
    Registry(map[], map[], map[], None, 0, map[])
  }

  /** The run can still be written as unresolved, or already is: on disk, or in memory and open to reconciliation. */
  predicate Claims(s: Registry, id: nat) {
    id in s.disk && (Unresolved(s.disk[id].status) || (id in s.runs && Unresolved(s.runs[id].run.status) && s.runs[id].run.detached))
  }

  /** The run is resolved on disk and nothing in this controller will ever free its key. */
  predicate Stuck(s: Registry, id: nat) {
    && id in s.disk && !Unresolved(s.disk[id].status) && id in s.runs
    && if Unresolved(s.runs[id].run.status) then !s.runs[id].run.detached else s.runs[id].thread.NoThread?
  }

  /** The key is blocked for good by a stuck run, and no other run of the key has a claim. */
  ghost predicate Sheltered(s: Registry, id: nat, key: string) {
    && key in s.activeKeys && Stuck(s, s.activeKeys[key])
    && forall y: nat :: y != id && y in s.disk && s.disk[y].key == key ==> !Claims(s, y)
  }

  /** The last write of a thread does not fail once a reconciliation has freed the key of its run, unless the run is
    * sheltered. */
  ghost predicate Benign(s: Registry, step: Step) {
    step.Finish? && !step.write.Ok? && At(s, step.id, Ending) ==>
      Active(s, step.id, s.runs[step.id].run.key) || Sheltered(s, step.id, s.runs[step.id].run.key)
  }

  ghost predicate Orderly(s: Registry, steps: seq<Step>)
    decreases |steps|
  {
    |steps| > 0 ==> Orderly(s, steps[..|steps| - 1]) && Benign(Execute(s, steps[..|steps| - 1]), steps[|steps| - 1])
  }
}
