/** The invariant of the run registry and its preservation by every step of an orderly run. */
module RunSafety {
  import opened Text
  import opened RunRegistry

  predicate Sole(s: Registry, a: nat, b: nat) {
    (Claims(s, a) && Claims(s, b) && s.disk[a].key == s.disk[b].key) ==> a == b
  }

  /** Beside the active run of a key another one has a claim only if the active one is stuck. */
  predicate Guarded(s: Registry, x: nat, y: nat) {
    (Claims(s, y) && Active(s, x, s.disk[y].key) && x != y) ==> Stuck(s, x)
  }

  /** A launch that is recorded as resolved has an accepted end, and a real success if it is recorded as one. */
  predicate Proven(r: Run, remote: Remote) {
    && (remote.launched ==> r.detached)
    && (r.detached && (r.terminal || !Unresolved(r.status)) ==> Accepted(remote))
    && (r.detached && r.status.Succeeded? ==> remote.rc == Some(Code(0)) && remote.sealed == Some(true))
  }

  /** What the place of the thread says about the run. */
  predicate ThreadFits(s: Registry, id: nat)
    requires id in s.runs && id in s.disk
  {
    var r := s.runs[id];
    && (r.thread.Starting? ==> r.run.status.Queued? && !r.run.detached)
    && (r.thread.Working? ==> r.run.status.Running?)
    && (r.thread.Starting? || r.thread.Working? ==> Active(s, id, r.run.key) && Unresolved(s.disk[id].status))
    && (r.thread.Ending? ==>
         || Active(s, id, r.run.key)
         || (r.run.detached && !Unresolved(r.run.status) && !Unresolved(s.disk[id].status)))
    && (r.thread.Ending? && Unresolved(r.run.status) ==> r.run.detached)
    && (!r.thread.NoThread? || Active(s, id, r.run.key) ==> r.run.owner == s.instance)
  }

  /** A run that is unresolved in memory only was left so by its own thread, and its key is taken. */
  predicate MemoryFits(s: Registry, id: nat)
    requires id in s.runs && id in s.disk
  {
    var r := s.runs[id];
    Unresolved(r.run.status) && !Unresolved(s.disk[id].status) ==>
      && (r.run.status.Unknown? || r.run.status.Reconciling?) && (r.thread.Closing? || r.thread.NoThread?)
      && r.run.key in s.activeKeys && r.run.owner == s.instance && (Active(s, id, r.run.key) || r.run.detached)
  }

  predicate InMemory(s: Registry, id: nat) {
    id in s.runs ==>
      && id in s.disk && s.disk[id].key == s.runs[id].run.key
      && Proven(s.runs[id].run, RemoteOf(s, id)) && ThreadFits(s, id) && MemoryFits(s, id)
  }

  predicate OnDisk(s: Registry, id: nat) {
    id in s.disk ==> Proven(s.disk[id], RemoteOf(s, id))
  }

  predicate Keyed(s: Registry, key: string) {
    key in s.activeKeys ==> s.activeKeys[key] in s.runs && s.runs[s.activeKeys[key]].run.key == key
  }

  predicate Locked(s: Registry) {
    s.lock.Some? ==> Reconcilable(s, s.lock.value, true)
  }

  predicate Launched(s: Registry, id: nat) {
    id in s.remote ==> id in s.disk
  }

  ghost predicate Inv(s: Registry) {
    && (forall id: nat :: InMemory(s, id) && OnDisk(s, id) && Launched(s, id))
    && (forall key: string :: Keyed(s, key))
    && (forall a: nat, b: nat :: Sole(s, a, b))
    && (forall a: nat, b: nat :: Guarded(s, a, b))
    && Locked(s)
  }

  // ---- a step of one run ----

  /** Only run id changes; its key may be freed, and stays its own. */
  ghost predicate Touches(s: Registry, s': Registry, id: nat) {
    && id in s.disk && id in s'.disk && s'.disk[id].key == s.disk[id].key
    && (id in s.runs ==> id in s'.runs && s'.runs[id].run.key == s.runs[id].run.key)
    && (forall x | x != id :: (x in s'.disk <==> x in s.disk) && (x in s.disk ==> s'.disk[x] == s.disk[x]))
    && (forall x | x != id :: (x in s'.runs <==> x in s.runs) && (x in s.runs ==> s'.runs[x] == s.runs[x]))
    && (forall x | x != id :: RemoteOf(s', x) == RemoteOf(s, x) && (x in s'.remote <==> x in s.remote))
    && s'.instance == s.instance
    && (s'.activeKeys == s.activeKeys || (Active(s, id, s.disk[id].key) && s'.activeKeys == s.activeKeys - {s.disk[id].key}))
  }

  /** Nobody else claims the key of the run, and whoever has it active is stuck. */
  ghost predicate MayClaim(s: Registry, id: nat)
    requires id in s.disk
  {
    && (forall y: nat :: y != id && y in s.disk && s.disk[y].key == s.disk[id].key ==> !Claims(s, y))
    && (s.disk[id].key in s.activeKeys ==> Active(s, id, s.disk[id].key) || Stuck(s, s.activeKeys[s.disk[id].key]))
  }

  /** What has to be shown of the run itself. */
  ghost predicate Kept(s: Registry, s': Registry, id: nat) {
    && Touches(s, s', id)
    && InMemory(s', id) && OnDisk(s', id) && Locked(s')
    && (s'.activeKeys != s.activeKeys ==> !Stuck(s, id))
    && (Active(s', id, s.disk[id].key) ==> id in s'.runs && (Stuck(s, id) ==> Stuck(s', id)))
    && (Claims(s', id) && !Claims(s, id) ==> MayClaim(s, id))
  }

  lemma OtherUnchanged(s: Registry, s': Registry, id: nat, x: nat)
    requires Touches(s, s', id) && x != id
    ensures Claims(s', x) <==> Claims(s, x)
    ensures Stuck(s', x) <==> Stuck(s, x)
    ensures forall key :: Active(s', x, key) <==> Active(s, x, key)
  {
  }

  lemma OthersKept(s: Registry, s': Registry, id: nat, x: nat)
    requires Kept(s, s', id) && x != id
    requires InMemory(s, x) && OnDisk(s, x) && Launched(s, x) && Guarded(s, id, x)
    ensures InMemory(s', x) && OnDisk(s', x) && Launched(s', x)
  {
    OtherUnchanged(s, s', id, x);
  }

  lemma SoleKept(s: Registry, s': Registry, id: nat, a: nat, b: nat)
    requires Kept(s, s', id) && Sole(s, a, b)
    ensures Sole(s', a, b)
  {
    if a != id { OtherUnchanged(s, s', id, a); }
    if b != id { OtherUnchanged(s, s', id, b); }
  }

  lemma GuardKept(s: Registry, s': Registry, id: nat, a: nat, b: nat)
    requires Kept(s, s', id) && Guarded(s, a, b) && InMemory(s, id)
    requires b in s.disk ==> Keyed(s, s.disk[b].key)
    ensures Guarded(s', a, b)
  {
    if a != id { OtherUnchanged(s, s', id, a); }
    if b != id { OtherUnchanged(s, s', id, b); }
  }

  lemma TouchKeeps(s: Registry, s': Registry, id: nat)
    requires Inv(s) && Kept(s, s', id)
    ensures Inv(s')
  {
    forall x: nat ensures InMemory(s', x) && OnDisk(s', x) && Launched(s', x) {
      assert InMemory(s, x) && OnDisk(s, x) && Launched(s, x) && Guarded(s, id, x);
      if x != id { OthersKept(s, s', id, x); }
    }
    forall key: string ensures Keyed(s', key) { assert Keyed(s, key); }
    forall a: nat, b: nat ensures Sole(s', a, b) { SoleKept(s, s', id, a, b); }
    forall a: nat, b: nat ensures Guarded(s', a, b) {
      assert InMemory(s, id) && (b in s.disk ==> Keyed(s, s.disk[b].key));
      GuardKept(s, s', id, a, b);
    }
  }

  // ---- the steps of a thread ----

  /** The facts about run id that its steps rely on. */
  predicate Known(s: Registry, id: nat) {
    id in s.runs && InMemory(s, id) && OnDisk(s, id) && Locked(s) && Keyed(s, s.runs[id].run.key)
  }

  /** A record of a run in its work function. */
  predicate AtWork(s: Registry, id: nat, r: Run) {
    && Known(s, id) && (s.runs[id].thread.Starting? || s.runs[id].thread.Working?)
    && r.status.Running? && r.key == s.runs[id].run.key && r.owner == s.runs[id].run.owner && Proven(r, RemoteOf(s, id))
  }

  lemma SavedKeeps(s: Registry, id: nat, r: Run)
    requires AtWork(s, id, r)
    ensures Kept(s, SaveWorking(s, id, r, Ok), id)
  {
  }

  lemma RaisedKeeps(s: Registry, id: nat, r: Run, write: Write)
    requires AtWork(s, id, r) && !write.Ok?
    ensures Kept(s, SaveWorking(s, id, r, write), id)
  {
  }

  lemma SaveWorkingKeeps(s: Registry, id: nat, r: Run, write: Write)
    requires AtWork(s, id, r)
    ensures Kept(s, SaveWorking(s, id, r, write), id)
  {
    if write.Ok? { SavedKeeps(s, id, r); } else { RaisedKeeps(s, id, r, write); }
  }

  lemma BodyKeeps(s: Registry, step: Step)
    requires step.Boot? || step.Log? || step.Observe?
    requires Next(s, step) != s && Known(s, step.id)
    ensures Kept(s, Next(s, step), step.id)
  {
    var r := s.runs[step.id].run;
    var saved := if step.Boot? then r.(status := Running) else if step.Log? then r else r.(terminal := true);
    SaveWorkingKeeps(s, step.id, saved, step.write);
  }

  lemma ThreadFailsKeeps(s: Registry, id: nat, write: Write)
    requires At(s, id, Starting) && Known(s, id)
    ensures Kept(s, Next(s, ThreadFails(id, write)), id)
  {
  }

  /** The thread leaves the work function with any final status its launches allow. */
  lemma LeaveKeeps(s: Registry, id: nat, r: Run)
    requires At(s, id, Working) && Known(s, id) && Proven(r, RemoteOf(s, id)) && (Unresolved(r.status) ==> r.detached && r.status.Unknown?)
    requires r == s.runs[id].run.(status := r.status)
    ensures Kept(s, s.(runs := s.runs[id := Record(r, Ending)]), id)
  {
  }

  /** While a thread has yet to write for the last time, nobody else has a claim beside its active run. */
  lemma EndingMayClaim(s: Registry, id: nat)
    requires At(s, id, Ending) && Known(s, id) && (forall y: nat :: Guarded(s, id, y))
    requires Active(s, id, s.runs[id].run.key)
    ensures MayClaim(s, id)
  {
    forall y: nat | y != id && y in s.disk && s.disk[y].key == s.disk[id].key ensures !Claims(s, y) {
      assert Guarded(s, id, y);
    }
  }

  lemma FinishOkKeeps(s: Registry, id: nat)
    requires At(s, id, Ending) && Known(s, id)
    ensures Kept(s, FinishRun(s, id, Ok), id)
  {
  }

  /** A run whose last write failed is unknown, and keeps or gets a claim. */
  lemma FinishRaisedKeeps(s: Registry, id: nat, write: Write)
    requires At(s, id, Ending) && Known(s, id) && !write.Ok? && MayClaim(s, id) && s.runs[id].run.key in s.activeKeys
    ensures Kept(s, FinishRun(s, id, write), id)
  {
  }

  lemma ShelteredMayClaim(s: Registry, id: nat)
    requires At(s, id, Ending) && Known(s, id) && Sheltered(s, id, s.runs[id].run.key)
    ensures MayClaim(s, id)
  {
  }

  lemma FinishKeeps(s: Registry, id: nat, write: Write)
    requires At(s, id, Ending) && Known(s, id) && Benign(s, Finish(id, write))
    requires forall y: nat :: Guarded(s, id, y)
    ensures Kept(s, FinishRun(s, id, write), id)
  {
    if write.Ok? {
      FinishOkKeeps(s, id);
    } else {
      if Active(s, id, s.runs[id].run.key) { EndingMayClaim(s, id); } else { ShelteredMayClaim(s, id); }
      FinishRaisedKeeps(s, id, write);
    }
  }

  lemma CloseKeptKeeps(s: Registry, id: nat)
    requires At(s, id, Closing) && Known(s, id) && CloseRun(s, id).activeKeys == s.activeKeys
    ensures Kept(s, CloseRun(s, id), id)
  {
  }

  lemma CloseFreedKeeps(s: Registry, id: nat)
    requires At(s, id, Closing) && Known(s, id) && CloseRun(s, id).activeKeys != s.activeKeys
    ensures Kept(s, CloseRun(s, id), id)
  {
  }

  lemma CloseKeeps(s: Registry, id: nat)
    requires At(s, id, Closing) && Known(s, id)
    ensures Kept(s, CloseRun(s, id), id)
  {
    if CloseRun(s, id).activeKeys == s.activeKeys { CloseKeptKeeps(s, id); } else { CloseFreedKeeps(s, id); }
  }

  predicate OfThread(step: Step) {
    step.ThreadFails? || step.Boot? || step.Log? || step.Observe? || step.Return? || step.Raise? || step.Finish? || step.Close?
  }

  lemma KnownRun(s: Registry, id: nat)
    requires Inv(s) && id in s.runs
    ensures Known(s, id) && forall y: nat :: Guarded(s, id, y)
  {
    assert InMemory(s, id) && OnDisk(s, id) && Keyed(s, s.runs[id].run.key);
  }

  lemma ThreadKeeps(s: Registry, step: Step)
    requires Inv(s) && OfThread(step) && Benign(s, step)
    ensures Inv(Next(s, step))
  {
    var id := step.id;
    if Next(s, step) != s {
      KnownRun(s, id);
      match step {
        case ThreadFails(_, write) => ThreadFailsKeeps(s, id, write);
        case Return(_) => LeaveKeeps(s, id, s.runs[id].run.(status := Succeeded));
        case Raise(_) => LeaveKeeps(s, id, Raised(s.runs[id].run));
        case Finish(_, write) => FinishKeeps(s, id, write);
        case Close(_) => CloseKeeps(s, id);
        case _ => BodyKeeps(s, step);
      }
      TouchKeeps(s, Next(s, step), id);
    }
  }

  lemma LaunchedKeeps(s: Registry, id: nat)
    requires At(s, id, Working) && Known(s, id) && Next(s, Launch(id, Ok)) != s
    ensures Kept(s, Next(s, Launch(id, Ok)), id)
  {
  }

  lemma LaunchKeeps(s: Registry, id: nat, write: Write)
    requires Inv(s)
    ensures Inv(Next(s, Launch(id, write)))
  {
    if Next(s, Launch(id, write)) != s {
      KnownRun(s, id);
      assert Launched(s, id);
      if write.Ok? {
        LaunchedKeeps(s, id);
      } else {
        RaisedKeeps(s, id, s.runs[id].run.(detached := true, terminal := false), write);
      }
      TouchKeeps(s, Next(s, Launch(id, write)), id);
    }
  }

  // ---- loading and reconciling ----

  lemma LoadKeeps(s: Registry, id: nat)
    requires Inv(s)
    ensures Inv(LoadRun(s, id))
  {
    var s' := LoadRun(s, id);
    if s' != s {
      assert InMemory(s, id) && OnDisk(s, id) && Launched(s, id) && Keyed(s, s.disk[id].key);
      TouchKeeps(s, s', id);
    }
  }

  lemma BeginKeeps(s: Registry, id: nat, confirmed: bool)
    requires Inv(s)
    ensures Inv(Next(s, BeginReconcile(id, confirmed)))
  {
    LoadKeeps(s, id);
    LockKeeps(LoadRun(s, id), Next(s, BeginReconcile(id, confirmed)));
  }

  /** Nothing but the reconciliation lock changes. */
  lemma LockKeeps(s: Registry, s': Registry)
    requires Inv(s) && s' == s.(lock := s'.lock) && Locked(s')
    ensures Inv(s')
  {
    forall id: nat ensures InMemory(s', id) && OnDisk(s', id) && Launched(s', id) {
      assert InMemory(s, id) && OnDisk(s, id) && Launched(s, id);
    }
    forall key: string ensures Keyed(s', key) { assert Keyed(s, key); }
    forall a: nat, b: nat ensures Sole(s', a, b) { assert Sole(s, a, b); }
    forall a: nat, b: nat ensures Guarded(s', a, b) { assert Guarded(s, a, b); }
  }

  /** A reconciled run had a claim, and is not stuck. */
  lemma ReconciledClaims(s: Registry, id: nat)
    requires Known(s, id) && s.lock == Some(id)
    ensures Claims(s, id) && !Stuck(s, id)
  {
  }

  /** What a reconciliation may make of the run it has locked. */
  predicate MayCommit(s: Registry, id: nat, result: Status) {
    && Known(s, id) && s.lock == Some(id) && Claims(s, id) && !Stuck(s, id)
    && Proven(s.runs[id].run.(status := result), RemoteOf(s, id))
    && (result.Unknown? ==> s.runs[id].run.detached) && (result.Unknown? || !Unresolved(result))
  }

  lemma CommitRaisedKeeps(s: Registry, id: nat, result: Status, write: Write)
    requires MayCommit(s, id, result) && !write.Ok?
    ensures Kept(s, CommitRun(s, id, result, write), id)
  {
  }

  lemma CommitUnknownKeeps(s: Registry, id: nat)
    requires MayCommit(s, id, Unknown)
    ensures Kept(s, CommitRun(s, id, Unknown, Ok), id)
  {
  }

  lemma CommitResolvedKeeps(s: Registry, id: nat, result: Status)
    requires MayCommit(s, id, result) && !result.Unknown?
    ensures Kept(s, CommitRun(s, id, result, Ok), id)
  {
  }

  lemma CommitKeeps(s: Registry, id: nat, outcome: Status, write: Write)
    requires Inv(s)
    ensures Inv(Commit(s, id, outcome, write))
  {
    var s' := Commit(s, id, outcome, write);
    if s.lock != Some(id) {
    } else if s.runs[id].run.detached && !InspectionMay(RemoteOf(s, id), outcome) {
      LockKeeps(s, s');
    } else {
      KnownRun(s, id);
      ReconciledClaims(s, id);
      var result := if s.runs[id].run.detached then outcome else Failed;
      if !write.Ok? {
        CommitRaisedKeeps(s, id, result, write);
      } else if result.Unknown? {
        CommitUnknownKeeps(s, id);
      } else {
        CommitResolvedKeeps(s, id, result);
      }
      TouchKeeps(s, s', id);
    }
  }

  // ---- starting, the remote side, and crashes ----

  /** No run of a free key has a claim. */
  lemma FreeKeyUnclaimed(s: Registry, key: string, y: nat)
    requires !Busy(s, key) && InMemory(s, y) && y in s.disk && s.disk[y].key == key
    ensures !Claims(s, y)
  {
  }

  lemma BegunRecords(s: Registry, id: nat, key: string, write: Write, x: nat)
    requires !Busy(s, key) && id !in s.disk && id !in s.runs && id !in s.remote
    requires InMemory(s, x) && OnDisk(s, x) && Launched(s, x)
    ensures var s' := Begun(s, id, key, write); InMemory(s', x) && OnDisk(s', x) && Launched(s', x)
  {
  }

  lemma BegunClaims(s: Registry, id: nat, key: string, write: Write, a: nat, b: nat)
    requires !Busy(s, key) && id !in s.disk && id !in s.runs
    requires Sole(s, a, b) && Guarded(s, a, b) && InMemory(s, a) && InMemory(s, b)
    ensures var s' := Begun(s, id, key, write); Sole(s', a, b) && Guarded(s', a, b)
  {
    if a in s.disk && s.disk[a].key == key { FreeKeyUnclaimed(s, key, a); }
    if b in s.disk && s.disk[b].key == key { FreeKeyUnclaimed(s, key, b); }
  }

  lemma StartKeeps(s: Registry, id: nat, key: string, write: Write)
    requires Inv(s)
    ensures Inv(Next(s, Start(id, key, write)))
  {
    var s' := Next(s, Start(id, key, write));
    if s' != s {
      assert s' == Begun(s, id, key, write);
      forall x: nat ensures InMemory(s', x) && OnDisk(s', x) && Launched(s', x) {
        assert InMemory(s, x) && OnDisk(s, x) && Launched(s, x);
        BegunRecords(s, id, key, write, x);
      }
      forall k: string ensures Keyed(s', k) { assert Keyed(s, k); }
      forall a: nat, b: nat ensures Sole(s', a, b) && Guarded(s', a, b) {
        assert Sole(s, a, b) && Guarded(s, a, b) && InMemory(s, a) && InMemory(s, b);
        BegunClaims(s, id, key, write, a, b);
      }
    }
  }

  lemma RemoteKeeps(s: Registry, step: Step)
    requires Inv(s) && (step.Exit? || step.Seal?)
    ensures Inv(Next(s, step))
  {
    var s' := Next(s, step);
    forall x: nat ensures InMemory(s', x) && OnDisk(s', x) && Launched(s', x) {
      assert InMemory(s, x) && OnDisk(s, x) && Launched(s, x);
    }
    forall k: string ensures Keyed(s', k) { assert Keyed(s, k); }
    forall a: nat, b: nat ensures Sole(s', a, b) { assert Sole(s, a, b); }
    forall a: nat, b: nat ensures Guarded(s', a, b) { assert Guarded(s, a, b); }
  }

  lemma CrashKeeps(s: Registry)
    requires Inv(s)
    ensures Inv(Next(s, Crash))
  {
    var s' := Next(s, Crash);
    forall x: nat ensures InMemory(s', x) && OnDisk(s', x) && Launched(s', x) {
      assert InMemory(s, x) && OnDisk(s, x) && Launched(s, x);
    }
    forall a: nat, b: nat ensures Sole(s', a, b) { assert Sole(s, a, b); }
  }

  // ---- every orderly run ----

  lemma StepKeeps(s: Registry, step: Step)
    requires Inv(s) && Benign(s, step)
    ensures Inv(Next(s, step))
  {
    match step
    case Start(id, key, write) => StartKeeps(s, id, key, write);
    case Launch(id, write) => LaunchKeeps(s, id, write);
    case Load(id) => LoadKeeps(s, id);
    case BeginReconcile(id, confirmed) => BeginKeeps(s, id, confirmed);
    case CommitReconcile(id, outcome, write) => CommitKeeps(s, id, outcome, write);
    case AbortReconcile => LockKeeps(s, Next(s, step));
    case Exit(_, _) => RemoteKeeps(s, step);
    case Seal(_, _) => RemoteKeeps(s, step);
    case Crash => CrashKeeps(s);
    case _ => ThreadKeeps(s, step);
  }

  lemma {:induction false} RunsKeep(steps: seq<Step>)
    requires Orderly(Initial(), steps)
    ensures Inv(Execute(Initial(), steps))
    decreases |steps|
  {
    if |steps| == 0 {
    } else {
      RunsKeep(steps[..|steps| - 1]);
      StepKeeps(Execute(Initial(), steps[..|steps| - 1]), steps[|steps| - 1]);
    }
  }
}
