/** Where runs end: a thread whose work returns or raises, a launch that was observed, and a run that its controller left
  * behind. */
module RunOutcomes {
  import opened Text
  import opened RunRegistry
  import opened RunSafety
  import opened RunTheorems

  /** A run of a free key can start. */
  ghost predicate Startable(s: Registry, id: nat, key: string) {
    s.lock.None? && !Busy(s, key) && id !in s.disk && id !in s.runs && id !in s.remote
  }

  /** The run is durably at this status, and its key is free. */
  predicate EndedAs(s: Registry, id: nat, key: string, status: Status) {
    id in s.disk && s.disk[id].status == status && s.disk[id].key == key && key !in s.activeKeys
  }

  /** The run is durably at this status, and keeps its key. */
  predicate KeptAs(s: Registry, id: nat, key: string, status: Status) {
    id in s.disk && s.disk[id].status == status && s.disk[id].key == key && Active(s, id, key)
  }

  /** A registry in which the thread of the run is at work; its run is recorded, and the key is its own. */
  predicate AtWork(s: Registry, id: nat, r: Run) {
    && id in s.runs && s.runs[id] == Record(r, Working) && id in s.disk && s.disk[id] == r && r.status.Running?
    && Active(s, id, r.key)
  }

  lemma StartsAndBoots(s: Registry, id: nat, key: string)
    requires Startable(s, id, key)
    ensures var s' := Execute(s, [Start(id, key, Ok), Boot(id, Ok)]);
      AtWork(s', id, Run(key, Running, s.instance, false, false)) && RemoteOf(s', id) == Remote(false, None, None)
      && s'.remote == s.remote
  {
    ExecuteTwo(s, Start(id, key, Ok), Boot(id, Ok));
    Starts(s, id, key);
    Boots(Next(s, Start(id, key, Ok)), id);
  }

  lemma Starts(s: Registry, id: nat, key: string)
    requires Startable(s, id, key)
    ensures var r := Run(key, Queued, s.instance, false, false);
      Next(s, Start(id, key, Ok)) ==
        s.(disk := s.disk[id := r], runs := s.runs[id := Record(r, Starting)], activeKeys := s.activeKeys[key := id])
  {
  }

  lemma Boots(s: Registry, id: nat)
    requires At(s, id, Starting)
    ensures var r := s.runs[id].run.(status := Running);
      Next(s, Boot(id, Ok)) == s.(disk := s.disk[id := r], runs := s.runs[id := Record(r, Working)])
  {
  }

  /** A thread that leaves its work ends its run as its work left it. */
  lemma Leaves(s: Registry, id: nat, r: Run, raised: bool)
    requires AtWork(s, id, r)
    requires !raised && r.detached ==> r.terminal && ReturnsZero(RemoteOf(s, id))
    ensures var s' := Execute(s, [if raised then Raise(id) else Return(id), Finish(id, Ok), Close(id)]);
      if !raised then EndedAs(s', id, r.key, Succeeded)
      else if r.detached && !r.terminal then KeptAs(s', id, r.key, Unknown)
      else EndedAs(s', id, r.key, Failed)
  {
    var step := if raised then Raise(id) else Return(id);
    ExecuteThree(s, step, Finish(id, Ok), Close(id));
    LeavesWork(s, id, r, raised);
    FinishedWell(Next(s, step), id);
  }

  lemma LeavesWork(s: Registry, id: nat, r: Run, raised: bool)
    requires AtWork(s, id, r)
    requires !raised && r.detached ==> r.terminal && ReturnsZero(RemoteOf(s, id))
    ensures var status := if !raised then Succeeded else if r.detached && !r.terminal then Unknown else Failed;
      Next(s, if raised then Raise(id) else Return(id)) == s.(runs := s.runs[id := Record(r.(status := status), Ending)])
  {
  }

  /** From the start on: a work function that returns leaves its run succeeded and its key free, one that raises before any
    * launch leaves it failed and its key free. */
  lemma WorkEnds(s: Registry, id: nat, key: string, raised: bool)
    requires Startable(s, id, key)
    ensures var steps := [Start(id, key, Ok), Boot(id, Ok)] + [if raised then Raise(id) else Return(id), Finish(id, Ok), Close(id)];
      EndedAs(Execute(s, steps), id, key, if raised then Failed else Succeeded)
  {
    StartsAndBoots(s, id, key);
    var s1 := Execute(s, [Start(id, key, Ok), Boot(id, Ok)]);
    Leaves(s1, id, Run(key, Running, s.instance, false, false), raised);
    ExecuteConcat(s, [Start(id, key, Ok), Boot(id, Ok)], [if raised then Raise(id) else Return(id), Finish(id, Ok), Close(id)]);
  }

  // ---- launches ----

  /** The thread has launched, the executor has left its exit file, and the task has been sealed. */
  lemma LaunchEnds(s: Registry, id: nat, r: Run, line: CodeLine, success: bool)
    requires AtWork(s, id, r) && !r.detached
    ensures var s' := Execute(s, [Launch(id, Ok), Exit(id, line), Seal(id, success)]);
      AtWork(s', id, r.(detached := true, terminal := false)) && RemoteOf(s', id) == Remote(true, Some(line), Some(success))
  {
    ExecuteThree(s, Launch(id, Ok), Exit(id, line), Seal(id, success));
  }

  lemma Observes(s: Registry, id: nat, r: Run)
    requires AtWork(s, id, r) && r.detached
    ensures var s' := Next(s, Observe(id, Ok));
      AtWork(s', id, if Accepted(RemoteOf(s, id)) then r.(terminal := true) else r) && s'.remote == s.remote
  {
  }

  /** The steps of a run that launches, up to the observation of its end. */
  function Observed(id: nat, key: string, line: CodeLine, success: bool): seq<Step> {
    [Start(id, key, Ok), Boot(id, Ok)] + ([Launch(id, Ok), Exit(id, line), Seal(id, success)] + [Observe(id, Ok)])
  }

  lemma ObservedRun(s: Registry, id: nat, key: string, line: CodeLine, success: bool)
    requires Startable(s, id, key)
    ensures var s' := Execute(s, Observed(id, key, line, success));
      var remote := Remote(true, Some(line), Some(success));
      AtWork(s', id, Run(key, Running, s.instance, true, Accepted(remote))) && RemoteOf(s', id) == remote
  {
    var start, launch := [Start(id, key, Ok), Boot(id, Ok)], [Launch(id, Ok), Exit(id, line), Seal(id, success)];
    StartsAndBoots(s, id, key);
    var s1 := Execute(s, start);
    LaunchEnds(s1, id, Run(key, Running, s.instance, false, false), line, success);
    var s2 := Execute(s1, launch);
    Observes(s2, id, Run(key, Running, s.instance, true, false));
    ExecuteConcat(s, start, launch + [Observe(id, Ok)]);
    ExecuteConcat(s1, launch, [Observe(id, Ok)]);
    Extend(s2, [], Observe(id, Ok));
    assert [] + [Observe(id, Ok)] == [Observe(id, Ok)];
  }

  /** A run that launched and was observed is succeeded, with its key free, exactly if its executor left exit code 0 and
    * its task is sealed as succeeded: nothing else lets its work function return. */
  lemma LaunchSucceedsExactly(s: Registry, id: nat, key: string, line: CodeLine, success: bool)
    requires Startable(s, id, key)
    ensures var s' := Execute(s, Observed(id, key, line, success) + [Return(id), Finish(id, Ok), Close(id)]);
      && (EndedAs(s', id, key, Succeeded) <==> line == Code(0) && success)
      && (line != Code(0) || !success ==> KeptAs(s', id, key, Running))
  {
    var remote := Remote(true, Some(line), Some(success));
    var r := Run(key, Running, s.instance, true, Accepted(remote));
    ObservedRun(s, id, key, line, success);
    var s1 := Execute(s, Observed(id, key, line, success));
    ExecuteConcat(s, Observed(id, key, line, success), [Return(id), Finish(id, Ok), Close(id)]);
    if line == Code(0) && success {
      Leaves(s1, id, r, false);
    } else {
      ExecuteThree(s1, Return(id), Finish(id, Ok), Close(id));
    }
  }

  /** If its work function raises instead, it is failed, with its key free, exactly if the watcher accepts the end, and
    * otherwise unknown, with its key taken. */
  lemma LaunchRaises(s: Registry, id: nat, key: string, line: CodeLine, success: bool)
    requires Startable(s, id, key)
    ensures var s' := Execute(s, Observed(id, key, line, success) + [Raise(id), Finish(id, Ok), Close(id)]);
      if (CodeRead(line) == 0) == success then EndedAs(s', id, key, Failed) else KeptAs(s', id, key, Unknown)
  {
    var r := Run(key, Running, s.instance, true, Accepted(Remote(true, Some(line), Some(success))));
    ObservedRun(s, id, key, line, success);
    ExecuteConcat(s, Observed(id, key, line, success), [Raise(id), Finish(id, Ok), Close(id)]);
    Leaves(Execute(s, Observed(id, key, line, success)), id, r, true);
  }

  // ---- reconciliation ----

  /** A reconciliation begins exactly for a run that is unknown or reconciling here, or that another controller left
    * unresolved, if it is detached, or if an operator confirms that nothing runs and its owner is not this controller. */
  lemma BeginsExactly(s: Registry, id: nat, confirmed: bool)
    requires s.lock.None?
    ensures Next(s, BeginReconcile(id, confirmed)).lock == Some(id) <==>
      if id in s.runs then
        var r := s.runs[id].run;
        (r.status.Unknown? || r.status.Reconciling?) && (r.detached || (confirmed && r.owner != s.instance))
      else
        id in s.disk && var r := s.disk[id];
        (if r.owner != s.instance then Unresolved(r.status) else r.status.Unknown? || r.status.Reconciling?)
        && (r.detached || (confirmed && r.owner != s.instance))
  {
  }

  /** What a reconciliation makes of a run: a run that was not detached is failed, whatever is reported, and a detached one
    * becomes what the inspection may report. */
  function Reconciled(r: Run, outcome: Status): Status {
    if r.detached then outcome else Failed
  }

  /** Nobody owns a run before its controller has come. */
  predicate OwnerOk(s: Registry, id: nat) {
    (id in s.disk ==> s.disk[id].owner <= s.instance) && (id in s.runs ==> s.runs[id].run.owner <= s.instance)
  }

  lemma OwnerSaves(s: Registry, id: nat, x: nat, r: Run, write: Write)
    requires OwnerOk(s, id) && r.owner <= s.instance
    ensures OwnerOk(SaveWorking(s, x, r, write), id)
  {
  }

  lemma OwnerWorks(s: Registry, step: Step, id: nat)
    requires OwnerOk(s, id) && (step.Boot? || step.Log? || step.Launch? || step.Observe?) && OwnerOk(s, step.id)
    ensures OwnerOk(Next(s, step), id)
  {
    if step.id in s.runs {
      var r := s.runs[step.id].run;
      OwnerSaves(s, id, step.id, r.(status := Running), step.write);
      OwnerSaves(s, id, step.id, r, step.write);
      OwnerSaves(s, id, step.id, r.(detached := true, terminal := false), step.write);
      OwnerSaves(s, id, step.id, r.(terminal := true), step.write);
    }
  }

  lemma OwnerEnds(s: Registry, step: Step, id: nat)
    requires OwnerOk(s, id) && (step.Finish? || step.Close? || step.ThreadFails? || step.Return? || step.Raise?) && OwnerOk(s, step.id)
    ensures OwnerOk(Next(s, step), id)
  {
  }

  lemma OwnerReconciles(s: Registry, step: Step, id: nat)
    requires OwnerOk(s, id) && (step.Load? || step.BeginReconcile? || step.CommitReconcile?) && OwnerOk(s, step.id)
    ensures OwnerOk(Next(s, step), id)
  {
  }

  lemma OwnerOthers(s: Registry, step: Step, id: nat)
    requires OwnerOk(s, id) && (step.Start? || step.AbortReconcile? || step.Exit? || step.Seal? || step.Crash?)
    ensures OwnerOk(Next(s, step), id)
  {
  }

  lemma {:induction false} OwnersArePast(steps: seq<Step>, id: nat)
    ensures OwnerOk(Execute(Initial(), steps), id)
    decreases |steps|
  {
    if |steps| > 0 {
      var before, step := Execute(Initial(), steps[..|steps| - 1]), steps[|steps| - 1];
      OwnersArePast(steps[..|steps| - 1], id);
      if step.Boot? || step.Log? || step.Launch? || step.Observe? {
        OwnersArePast(steps[..|steps| - 1], step.id);
        OwnerWorks(before, step, id);
      } else if step.Finish? || step.Close? || step.ThreadFails? || step.Return? || step.Raise? {
        OwnersArePast(steps[..|steps| - 1], step.id);
        OwnerEnds(before, step, id);
      } else if step.Load? || step.BeginReconcile? || step.CommitReconcile? {
        OwnersArePast(steps[..|steps| - 1], step.id);
        OwnerReconciles(before, step, id);
      } else {
        OwnerOthers(before, step, id);
      }
    }
  }

  /** A run that a crash left unresolved can be reconciled by the next controller, whatever led to it: its status becomes
    * just that, and its key is free in that controller. */
  lemma CrashedRunIsReconciled(steps: seq<Step>, id: nat, outcome: Status)
    requires var s := Execute(Initial(), steps);
      && id in s.disk && Unresolved(s.disk[id].status) && (s.disk[id].detached ==> InspectionMay(RemoteOf(s, id), outcome))
    ensures var s := Execute(Initial(), steps);
      var s' := Execute(s, [Crash, BeginReconcile(id, true), CommitReconcile(id, outcome, Ok)]);
      EndedAs(s', id, s.disk[id].key, Reconciled(s.disk[id], outcome)) && s'.lock.None?
  {
    OwnersArePast(steps, id);
    var s := Execute(Initial(), steps);
    ExecuteThree(s, Crash, BeginReconcile(id, true), CommitReconcile(id, outcome, Ok));
    LeftBehind(s, id, outcome);
  }

  lemma LeftBehind(s: Registry, id: nat, outcome: Status)
    requires id in s.disk && Unresolved(s.disk[id].status) && s.disk[id].owner <= s.instance
    requires s.disk[id].detached ==> InspectionMay(RemoteOf(s, id), outcome)
    ensures var s' := Next(Next(Next(s, Crash), BeginReconcile(id, true)), CommitReconcile(id, outcome, Ok));
      EndedAs(s', id, s.disk[id].key, Reconciled(s.disk[id], outcome)) && s'.lock.None?
  {
    var s1 := Next(s, Crash);
    LoadsUnknown(s1, id);
    CommitsOutcome(Next(s1, BeginReconcile(id, true)), id, outcome);
  }

  lemma LoadsUnknown(s: Registry, id: nat)
    requires id in s.disk && id !in s.runs && Unresolved(s.disk[id].status) && s.disk[id].owner != s.instance && s.lock.None?
    ensures Next(s, BeginReconcile(id, true)) ==
      s.(runs := s.runs[id := Record(s.disk[id].(status := Unknown), NoThread)], lock := Some(id))
  {
  }

  /** A reconciliation that holds the registry lock writes its outcome and frees the key of a resolved run. */
  lemma CommitsOutcome(s: Registry, id: nat, outcome: Status)
    requires s.lock == Some(id) && id in s.runs && (s.runs[id].run.detached ==> InspectionMay(RemoteOf(s, id), outcome))
    ensures var r := s.runs[id].run; var status := Reconciled(r, outcome);
      var s' := Next(s, CommitReconcile(id, outcome, Ok));
      && id in s'.disk && s'.disk[id] == r.(status := status) && s'.runs[id].run == r.(status := status) && s'.lock.None?
      && (Active(s', id, r.key) <==> Active(s, id, r.key) && Unresolved(status))
  {
  }
}
