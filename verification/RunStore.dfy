/** The run registry as the controller keeps it: dictionaries updated in place and one record file per run. */
module RunStore {
  import opened Text
  import opened RunRegistry

  datatype StartResult = Started | Conflict(existing: nat) | Raised

  class RunnerState {
    var disk: map<nat, Run>
    var files: seq<nat>
    var runs: map<nat, Record>
    var activeKeys: map<string, nat>
    var lock: Option<nat>
    var instance: nat
    var remote: map<nat, Remote>

    /** `files` lists the run directories in the order they are scanned. */
    ghost predicate Valid()
      reads this
    {
      forall id: nat :: id in disk <==> id in files
    }

    ghost function Value(): Registry
      reads this
    {
      Registry(disk, runs, activeKeys, lock, instance, remote)
    }

    constructor ()
      ensures Valid() && Value() == Initial()
    {
      disk, files, runs, activeKeys, lock, instance, remote := map[], [], map[], map[], None, 0, map[];
    }

    /** _disk_active: the first unresolved record of the key, if any. */
    method DiskActive(key: string) returns (existing: Option<nat>)
      requires Valid()
      ensures existing.Some? ==>
        existing.value in disk && disk[existing.value].key == key && Unresolved(disk[existing.value].status)
      ensures existing.None? ==> forall id | id in disk :: disk[id].key == key ==> !Unresolved(disk[id].status)
    {
      var i := 0;
      while i < |files|
        invariant 0 <= i <= |files|
        invariant forall j | 0 <= j < i :: disk[files[j]].key == key ==> !Unresolved(disk[files[j]].status)
      {
        if disk[files[i]].key == key && Unresolved(disk[files[i]].status) { return Some(files[i]); }
        i := i + 1;
      }
      existing := None;
    }

    /** RunRecord._persist; a raised write may have taken effect. */
    method Persist(id: nat, r: Run, write: Write)
      requires Valid()
      modifies `disk, `files
      ensures Valid()
      ensures disk == if write.Lost? then old(disk) else old(disk)[id := r]
    {
      if !write.Lost? {
        if id !in disk { files := files + [id]; }
        disk := disk[id := r];
      }
    }

    /** start_run up to the start of the thread: durable ownership comes first. */
    method StartRun(id: nat, key: string, write: Write) returns (result: StartResult)
      requires Valid() && lock.None? && id !in disk && id !in runs && id !in remote
      modifies this
      ensures Valid() && Value() == Next(old(Value()), Start(id, key, write))
      ensures result.Conflict? <==> old(Busy(Value(), key))
      ensures result.Started? ==> id in disk && disk[id].status == Queued && Active(Value(), id, key)
      ensures result.Started? <==> At(Value(), id, Starting)
    {
      ghost var was := Value();
      if key in activeKeys { return Conflict(activeKeys[key]); }
      var existing := DiskActive(key);
      if existing.Some? {
        assert existing.value in was.disk && was.disk[existing.value].key == key;
        return Conflict(existing.value);
      }
      assert !Busy(was, key);
      var r := Run(key, Queued, instance, false, false);
      Persist(id, r, write);
      if !write.Ok? { return Raised; }
      activeKeys := activeKeys[key := id];
      runs := runs[id := Record(r, Starting)];
      result := Started;
    }

    method FreeKey(id: nat, key: string)
      modifies `activeKeys
      ensures Value() == Free(old(Value()), id, key)
    {
      if key in activeKeys && activeKeys[key] == id { activeKeys := activeKeys - {key}; }
    }

    /** A persist inside the work function; if it raises, the thread gives the run its final status. */
    method SaveBody(id: nat, r: Run, write: Write)
      requires Valid()
      modifies this
      ensures Valid() && Value() == SaveWorking(old(Value()), id, r, write)
    {
      runs := runs[id := Record(r, Working)];
      Persist(id, r, write);
      if !write.Ok? { runs := runs[id := Record(RunRegistry.Raised(r), Ending)]; }
    }

    method BootThread(id: nat, write: Write)
      requires Valid() && At(Value(), id, Starting)
      modifies this
      ensures Valid() && Value() == Next(old(Value()), Boot(id, write))
    {
      SaveBody(id, runs[id].run.(status := Running), write);
    }

    /** The thread could not be started: the run fails, and frees its key once that is durable. */
    method FailToStart(id: nat, write: Write)
      requires Valid() && At(Value(), id, Starting)
      modifies this
      ensures Valid() && Value() == Next(old(Value()), ThreadFails(id, write))
    {
      var r := runs[id].run.(status := Failed);
      runs := runs[id := Record(r, NoThread)];
      Persist(id, r, write);
      if write.Ok? { FreeKey(id, r.key); }
    }

    /** start_run as a whole: the run, and its failure if the thread cannot be started. */
    method Submit(id: nat, key: string, write: Write, starts: bool, failed: Write) returns (result: StartResult)
      requires Valid() && lock.None? && id !in disk && id !in runs && id !in remote
      modifies this
      ensures Valid()
      ensures var begun := Next(old(Value()), Start(id, key, write));
        Value() == if starts then begun else Next(begun, ThreadFails(id, failed))
      ensures result.Conflict? <==> old(Busy(Value(), key))
      ensures !starts && write.Ok? && failed.Ok? && !result.Conflict? ==>
        result.Raised? && id in disk && disk[id].status == Failed && key !in activeKeys
    {
      result := StartRun(id, key, write);
      if result.Started? && !starts {
        FailToStart(id, failed);
        result := Raised;
      }
    }

    /** The work function returns, or raises: a detached run without a verified end becomes unknown, not failed. */
    method LeaveBody(id: nat, raised: bool)
      requires Valid() && At(Value(), id, Working)
      requires !raised && runs[id].run.detached ==> runs[id].run.terminal && ReturnsZero(RemoteOf(Value(), id))
      modifies `runs
      ensures Valid() && Value() == Next(old(Value()), if raised then Raise(id) else Return(id))
      ensures !raised <==> runs[id].run.status.Succeeded?
      ensures raised && runs[id].run.detached && !runs[id].run.terminal <==> runs[id].run.status.Unknown?
      ensures raised && !(runs[id].run.detached && !runs[id].run.terminal) <==> runs[id].run.status.Failed?
    {
      var r := runs[id].run;
      if raised {
        r := r.(status := if r.detached && !r.terminal then Unknown else Failed);
      } else {
        r := r.(status := Succeeded);
      }
      runs := runs[id := Record(r, Ending)];
    }

    /** set_execution_context before the launch crosses to the remote host. */
    method LaunchDetached(id: nat, write: Write)
      requires Valid() && At(Value(), id, Working) && (runs[id].run.detached ==> runs[id].run.terminal)
      modifies this
      ensures Valid() && Value() == Next(old(Value()), Launch(id, write))
    {
      SaveBody(id, runs[id].run.(detached := true, terminal := false), write);
      if write.Ok? { remote := remote[id := Remote(true, None, None)]; }
    }

    /** The end of the thread: the last persist, and the release of the key if the run is resolved. */
    method EndThread(id: nat, write: Write)
      requires Valid() && At(Value(), id, Ending)
      modifies this
      ensures Valid() && Value() == CloseRun(FinishRun(old(Value()), id, write), id)
    {
      var r := runs[id].run;
      Persist(id, r, write);
      if !write.Ok? { r := r.(status := Unknown); }
      runs := runs[id := Record(r, NoThread)];
      if !Unresolved(r.status) { FreeKey(id, r.key); }
    }

    /** A whole thread whose work function launches and then raises, say because it lost contact: the run is unknown and
      * keeps its key. */
    method RunThread(id: nat, boot: Write, launch: Write, last: Write)
      requires Valid() && At(Value(), id, Starting) && !runs[id].run.detached
      modifies this
      ensures Valid()
      ensures Value() == CloseRun(FinishRun(Next(Next(Next(old(Value()), Boot(id, boot)), Launch(id, launch)), Raise(id)), id, last), id)
      ensures boot.Ok? && launch.Ok? && last.Ok? ==>
        disk[id].status.Unknown? && RemoteOf(Value(), id).launched && activeKeys == old(activeKeys)
    {
      BootThread(id, boot);
      if boot.Ok? {
        LaunchDetached(id, launch);
        if launch.Ok? { LeaveBody(id, true); }
      }
      EndThread(id, last);
    }

    /** A whole thread that launches nothing: it ends as its work function does, and frees its key. */
    method RunPlainThread(id: nat, raised: bool, boot: Write, last: Write)
      requires Valid() && At(Value(), id, Starting) && !runs[id].run.detached
      modifies this
      ensures Valid()
      ensures Value() ==
        CloseRun(FinishRun(Next(Next(old(Value()), Boot(id, boot)), if raised then Raise(id) else Return(id)), id, last), id)
      ensures boot.Ok? && last.Ok? ==>
        && id in disk && disk[id].status == (if raised then Failed else Succeeded)
        && !Active(Value(), id, disk[id].key)
    {
      BootThread(id, boot);
      if boot.Ok? { LeaveBody(id, raised); }
      EndThread(id, last);
    }

    /** What the watcher of a launch has seen is recorded, if it is an end that it accepts. */
    method ObserveEnd(id: nat, write: Write)
      requires Valid() && At(Value(), id, Working) && runs[id].run.detached && Accepted(RemoteOf(Value(), id))
      modifies this
      ensures Valid() && Value() == Next(old(Value()), Observe(id, write))
    {
      SaveBody(id, runs[id].run.(terminal := true), write);
    }

    /** The rest of a thread whose launch has come to an end that the watcher accepts: the run is resolved, as succeeded
      * exactly if the work function returns, which it does only on exit code 0. */
    method RunWatchedThread(id: nat, raised: bool, observe: Write, last: Write)
      requires Valid() && At(Value(), id, Working) && runs[id].run.detached && Accepted(RemoteOf(Value(), id))
      requires !raised ==> ReturnsZero(RemoteOf(Value(), id))
      modifies this
      ensures Valid()
      ensures Value() ==
        CloseRun(FinishRun(Next(Next(old(Value()), Observe(id, observe)), if raised then Raise(id) else Return(id)), id, last), id)
      ensures observe.Ok? && last.Ok? ==>
        && id in disk && disk[id].status == (if raised then Failed else Succeeded)
        && !Active(Value(), id, disk[id].key)
    {
      ObserveEnd(id, observe);
      if observe.Ok? { LeaveBody(id, raised); }
      EndThread(id, last);
    }

    /** get_run: a record of another controller that is unresolved is unknown here. */
    method GetRun(id: nat) returns (r: Option<Run>)
      requires Valid()
      modifies `runs
      ensures Valid() && Value() == LoadRun(old(Value()), id)
      ensures r == if id in runs then Some(runs[id].run) else None
      ensures id !in old(runs) && id in disk ==>
        r == Some(if Unresolved(disk[id].status) && disk[id].owner != instance then disk[id].(status := Unknown) else disk[id])
      ensures r.Some? && id !in old(runs) && disk[id].owner != instance ==> !r.value.status.Queued? && !r.value.status.Running?
    {
      if id !in runs && id in disk {
        var loaded := disk[id];
        if Unresolved(loaded.status) && loaded.owner != instance { loaded := loaded.(status := Unknown); }
        runs := runs[id := Record(loaded, NoThread)];
      }
      r := if id in runs then Some(runs[id].run) else None;
    }

    /** The second half of reconcile_run: the outcome is written, and a resolved run frees its key. */
    method CommitOutcome(id: nat, outcome: Status, write: Write)
      requires Valid() && lock.None? && id in runs
      requires runs[id].run.detached ==> InspectionMay(RemoteOf(Value(), id), outcome)
      modifies this
      ensures Valid() && Value() == Commit(old(Value()).(lock := Some(id)), id, outcome, write)
    {
      var result := if runs[id].run.detached then outcome else Failed;
      var resolved := runs[id].run.(status := result);
      runs := runs[id := runs[id].(run := resolved)];
      Persist(id, resolved, write);
      if write.Ok? && !Unresolved(result) { FreeKey(id, resolved.key); }
    }

    /** reconcile_run, without interruption between the inspection and the write. */
    method ReconcileRun(id: nat, confirmed: bool, outcome: Status, write: Write) returns (accepted: bool)
      requires Valid() && lock.None? && InspectionMay(RemoteOf(Value(), id), outcome)
      modifies this
      ensures Valid()
      ensures accepted <==> Reconcilable(LoadRun(old(Value()), id), id, confirmed)
      ensures var loaded := LoadRun(old(Value()), id);
        Value() == if accepted then Commit(loaded.(lock := Some(id)), id, outcome, write) else loaded
    {
      ghost var was := Value();
      var r := GetRun(id);
      assert Value() == LoadRun(was, id);
      if r.None? || !(r.value.status.Unknown? || r.value.status.Reconciling?) { return false; }
      if !r.value.detached && (!confirmed || r.value.owner == instance) { return false; }
      accepted := true;
      CommitOutcome(id, outcome, write);
    }
  }
}
