/** A completed label on healthy services: what keeps it true, and what can make it false. */
module RecoveryStability {
  import opened Text
  import opened RecoveryPrep
  import opened RecoverySafety
  import opened RecoveryTheorems

  // ---- a completed label ----

  /** The request is completed and its services are healthy. */
  predicate LabelTrue(w: World, id: string) {
    && id in w.requests && w.requests[id].state.Completed?
    && var t := TargetOf(w.requests[id].binding);
    t in w.hosts && Healthy(w.hosts[t], w.requests[id].listener)
  }

  /** Moreover, whoever holds its target is about to leave, or is in a preflight that cannot pass. */
  ghost predicate Calm(w: World, id: string) {
    LabelTrue(w, id) && forall i: nat :: Leaving(w, i, TargetOf(w.requests[id].binding))
  }

  predicate Leaving(w: World, i: nat, t: Target) {
    Holder(w, i) ==> Known(w, i) && (TargetAt(w, i) == t ==>
      || w.processes[i].pc == At(Finish) || w.processes[i].pc.Unlock?
      || (w.processes[i].pc.Preflight? && !PreflightPasses(w.requests[w.processes[i].request], w.hosts[t])))
  }

  /** The end of an execution on the target is interrupted, an execution gets its lock and will pass its preflight, or a
    * reconciliation begins there. */
  predicate Disturbs(w: World, step: Step, t: Target) {
    match step
    case Go(i, ok, h', _) =>
      && Runs(w, i) && TargetAt(w, i) == t
      && ((w.processes[i].pc == At(Finish) && !ok && h' == w.hosts[t])
          || (w.processes[i].pc.Admitted? && ok && t !in w.locks
              && PreflightPasses(w.requests[w.processes[i].request], w.hosts[t])))
    case Reconcile(x, _) => x in w.requests && TargetOf(w.requests[x].binding) == t && Next(w, step) != w
    case _ => false
  }

  lemma LeavingCommand(p: Process, r: Request, h: Host, now: int, ok: bool, h': Host, torn: bool)
    requires p.pc == At(Finish) || p.pc.Unlock? || (p.pc.Preflight? && !PreflightPasses(r, h))
    ensures var e := Tearing(p, r, h, now, ok, h', torn);
      && e.request == r && e.host == h && Torn(p, r, h, now) == r && !MayLose(p, r, h, now)
      && (e.process.pc == p.pc || e.process.pc.Unlock? || e.process.pc.Gone?
          || (p.pc == At(Finish) && !ok && h' == h && e.process.pc.Restoring?))
  {
  }

  /** A step of a process on the target itself, past its admission. */
  lemma CalmHolder(w: World, step: Step, id: string, i: nat)
    requires Calm(w, id) && ActorOf(step) == Some(i) && Runs(w, i) && !w.processes[i].pc.Admitted?
    requires var t := TargetOf(w.requests[id].binding); TargetAt(w, i) == t && !Disturbs(w, step, t)
    ensures Next(w, step).requests == w.requests && Next(w, step).hosts == w.hosts
    ensures Leaving(Next(w, step), i, TargetOf(w.requests[id].binding))
  {
    var t := TargetOf(w.requests[id].binding);
    var p := w.processes[i];
    var r := w.requests[p.request];
    assert Leaving(w, i, t);
    assert w.requests[p.request := r] == w.requests && w.hosts[t := w.hosts[t]] == w.hosts;
    LeavingCommand(p, r, w.hosts[t], w.now, true, w.hosts[t], false);
    if step.Go? { LeavingCommand(p, r, w.hosts[t], w.now, step.ok, step.host, step.torn); }
  }

  lemma CalmEntry(w: World, step: Step, id: string, i: nat)
    requires Calm(w, id) && ActorOf(step) == Some(i) && Runs(w, i) && w.processes[i].pc.Admitted?
    requires var t := TargetOf(w.requests[id].binding); TargetAt(w, i) == t && !Disturbs(w, step, t)
    ensures Next(w, step).requests == w.requests && Next(w, step).hosts == w.hosts
    ensures Leaving(Next(w, step), i, TargetOf(w.requests[id].binding))
  {
    AdmittedWritesNothing(w, step, i);
  }

  /** A step of a process on the target. */
  lemma CalmActor(w: World, step: Step, id: string, i: nat)
    requires Calm(w, id) && ActorOf(step) == Some(i) && Runs(w, i)
    requires var t := TargetOf(w.requests[id].binding); TargetAt(w, i) == t && !Disturbs(w, step, t)
    ensures Calm(Next(w, step), id)
  {
    var t := TargetOf(w.requests[id].binding);
    if w.processes[i].pc.Admitted? { CalmEntry(w, step, id, i); } else { CalmHolder(w, step, id, i); }
    ActorActsAlone(w, step, i);
    forall j: nat ensures Leaving(Next(w, step), j, t) { assert Leaving(w, j, t); }
  }

  /** Another process stays out of the way: its request can only get its backup root. */
  lemma LeavingStays(w: World, w': World, j: nat, t: Target)
    requires Leaving(w, j, t) && j < |w.processes| && j < |w'.processes| && w'.processes[j] == w.processes[j]
    requires Known(w, j) ==> Known(w', j) && var id := w.processes[j].request;
      w'.requests[id].binding == w.requests[id].binding && (w.requests[id].rootExists ==> w'.requests[id].rootExists)
    requires t in w.hosts && t in w'.hosts && w'.hosts[t] == w.hosts[t]
    ensures Leaving(w', j, t)
  {
  }

  /** A step of a process elsewhere. */
  lemma CalmElsewhere(w: World, step: Step, id: string, i: nat)
    requires Calm(w, id) && ActorOf(step) == Some(i) && i < |w.processes|
    requires !Runs(w, i) || TargetAt(w, i) != TargetOf(w.requests[id].binding)
    ensures Calm(Next(w, step), id)
  {
    var t := TargetOf(w.requests[id].binding);
    var w' := Next(w, step);
    ActorActsAlone(w, step, i);
    ElsewhereHost(w, step, i, t);
    HostsStay(w, step);
    forall j: nat ensures Leaving(w', j, t) {
      assert Leaving(w, j, t);
      if j < |w.processes| && j != i { LeavingStays(w, w', j, t); }
    }
  }

  lemma HostsStay(w: World, step: Step)
    ensures Next(w, step).hosts.Keys == w.hosts.Keys
  {
  }

  lemma RootsStay(w: World, step: Step, id: string)
    requires ActorOf(step).None? && id in w.requests
    ensures id in Next(w, step).requests && Next(w, step).requests[id].rootExists == w.requests[id].rootExists
  {
  }

  lemma CalmPeople(w: World, step: Step, id: string)
    requires Calm(w, id) && ActorOf(step).None? && !Disturbs(w, step, TargetOf(w.requests[id].binding))
    ensures Calm(Next(w, step), id)
  {
    var t := TargetOf(w.requests[id].binding);
    var w' := Next(w, step);
    OthersLetAlone(w, step);
    forall j: nat ensures Leaving(w', j, t) {
      assert Leaving(w, j, t);
      if j < |w.processes| {
        if Known(w, j) { RootsStay(w, step, w.processes[j].request); }
        LeavingStays(w, w', j, t);
      } else if step.Reconcile? {
        if Holder(w', j) { NewReconciles(w, step, j); }
      } else {
        NewIsAdmitted(w, step, j);
      }
    }
  }

  lemma NewReconciles(w: World, step: Step, j: nat)
    requires step.Reconcile? && |w.processes| <= j && Holder(Next(w, step), j)
    ensures Next(w, step) != w && step.id in w.requests && Next(w, step).processes[j].request == step.id
    ensures Next(w, step).requests == w.requests && Known(Next(w, step), j)
  {
  }

  lemma NewIsAdmitted(w: World, step: Step, j: nat)
    requires ActorOf(step).None? && !step.Reconcile? && |w.processes| <= j
    ensures !Holder(Next(w, step), j)
  {
  }

  lemma CalmStep(w: World, step: Step, id: string)
    requires Calm(w, id) && !Disturbs(w, step, TargetOf(w.requests[id].binding))
    ensures Calm(Next(w, step), id)
  {
    if ActorOf(step).None? {
      CalmPeople(w, step, id);
    } else {
      var i := ActorOf(step).value;
      if i >= |w.processes| {
        assert Next(w, step) == w;
      } else if Runs(w, i) && TargetAt(w, i) == TargetOf(w.requests[id].binding) {
        CalmActor(w, step, id, i);
      } else {
        CalmElsewhere(w, step, id, i);
      }
    }
  }

  /** In every state of the run the label is true. */
  predicate AlwaysTrue(w: World, steps: seq<Step>, id: string)
    decreases |steps|
  {
    LabelTrue(Run(w, steps), id) && (|steps| > 0 ==> AlwaysTrue(w, steps[..|steps| - 1], id))
  }

  predicate Undisturbed(w: World, steps: seq<Step>, t: Target)
    decreases |steps|
  {
    |steps| > 0 ==> Undisturbed(w, steps[..|steps| - 1], t) && !Disturbs(Run(w, steps[..|steps| - 1]), steps[|steps| - 1], t)
  }

  lemma {:induction false} CalmRun(w: World, steps: seq<Step>, id: string)
    requires Calm(w, id) && Undisturbed(w, steps, TargetOf(w.requests[id].binding))
    ensures AlwaysTrue(w, steps, id) && Calm(Run(w, steps), id)
    ensures Run(w, steps).requests[id].binding == w.requests[id].binding
    decreases |steps|
  {
    if |steps| > 0 {
      var before := Run(w, steps[..|steps| - 1]);
      CalmRun(w, steps[..|steps| - 1], id);
      BindingStays(before, steps[|steps| - 1], id);
      CalmStep(before, steps[|steps| - 1], id);
    }
  }

  lemma BindingStays(w: World, step: Step, id: string)
    requires id in w.requests
    ensures id in Next(w, step).requests && Next(w, step).requests[id].binding == w.requests[id].binding
  {
    if ActorOf(step).None? {
      OthersLetAlone(w, step);
    } else if ActorOf(step).value < |w.processes| {
      ActorActsAlone(w, step, ActorOf(step).value);
    }
  }

  lemma CompletingCommand(p: Process, r: Request, h: Host, now: int, h': Host, torn: bool)
    requires Ready(p, r, h, now) && !r.state.Completed? && Tearing(p, r, h, now, true, h', torn).request.state.Completed?
    ensures Tearing(p, r, h, now, true, h', torn).process.pc == At(Finish)
  {
  }

  lemma FinisherIsAlone(w: World, i: nat)
    requires Inv(w) && Live(w, i) && w.processes[i].pc == At(Finish)
    ensures Calm(w, w.processes[i].request)
  {
    HolderReady(w, i);
    var t := TargetAt(w, i);
    forall j: nat ensures Leaving(w, j, t) {
      assert ProcessOk(w, j) && ProcessOk(w, i) && OneReconciler(w, i, j);
    }
  }

  lemma CompletionIsCalm(w: World, step: Step, id: string)
    requires Inv(w) && step.Go? && step.ok && id in w.requests && !w.requests[id].state.Completed?
    requires id in Next(w, step).requests && Next(w, step).requests[id].state.Completed?
    ensures Calm(Next(w, step), id)
  {
    CompletionFinishes(w, step, id);
    StepKeeps(w, step);
    FinisherIsAlone(Next(w, step), step.process);
  }

  /** The process that completes a request is at its last operation then. */
  lemma CompletionFinishes(w: World, step: Step, id: string)
    requires Inv(w) && step.Go? && step.ok && id in w.requests && !w.requests[id].state.Completed?
    requires id in Next(w, step).requests && Next(w, step).requests[id].state.Completed?
    ensures var i := step.process; var w' := Next(w, step);
      Live(w', i) && w'.processes[i].pc == At(Finish) && w'.processes[i].request == id
  {
    MovedByOwnProcess(w, step, id);
    var i := step.process;
    assert !w.processes[i].pc.Admitted?;
    HolderReady(w, i);
    CompletingCommand(w.processes[i], w.requests[id], w.hosts[TargetAt(w, i)], w.now, step.host, step.torn);
    ActorActsAlone(w, step, i);
  }

  /** Once recorded, a completed label stays true in every state of a run as long as nothing disturbs the target. */
  lemma CompletedStaysTrue(hosts: map<Target, Host>, now: int, before: seq<Step>, step: Step, after: seq<Step>, id: string)
    requires Durable(Initial(hosts, now), before) && step.Go? && step.ok
    requires var w := Run(Initial(hosts, now), before); var w1 := Next(w, step);
      id in w.requests && !w.requests[id].state.Completed? && id in w1.requests && w1.requests[id].state.Completed?
    ensures var w1 := Next(Run(Initial(hosts, now), before), step);
      && Calm(w1, id)
      && (Undisturbed(w1, after, TargetOf(w1.requests[id].binding)) ==> AlwaysTrue(w1, after, id) && Calm(Run(w1, after), id))
  {
    Reachable(hosts, now, before);
    var w := Run(Initial(hosts, now), before);
    CompletionIsCalm(w, step, id);
    var w1 := Next(w, step);
    if Undisturbed(w1, after, TargetOf(w1.requests[id].binding)) { CalmRun(w1, after, id); }
  }

  // ---- and only as long ----

  /** The label is still there, and false. */
  predicate LabelFalse(w: World, id: string) {
    && id in w.requests && w.requests[id].state.Completed?
    && var t := TargetOf(w.requests[id].binding);
    t in w.hosts && !Healthy(w.hosts[t], w.requests[id].listener)
  }

  /** Process i works on the target of the completed request, for another one or past its own completion. */
  predicate WorksThere(w: World, i: nat, id: string) {
    Runs(w, i) && id in w.requests && w.requests[id].state.Completed? && TargetAt(w, i) == TargetOf(w.requests[id].binding)
  }

  function Closed(h: Host): Host {
    h.(openReadWrite := false)
  }

  /** The first command of a restoration may fail with the database down. */
  lemma OpenFails(w: World, i: nat, id: string)
    requires WorksThere(w, i, id) && w.processes[i].pc.Restoring? && w.processes[i].pc.step.ROpen?
    ensures LabelFalse(Run(w, [Go(i, false, Closed(w.hosts[TargetAt(w, i)]), false)]), id)
  {
    var step := Go(i, false, Closed(w.hosts[TargetAt(w, i)]), false);
    Extend(w, [], step);
    assert [] + [step] == [step];
  }

  /** How many operations are ahead of the shutdown. */
  function Ahead(op: Op): nat {
    match op
    case MakeRoot => 6
    case PrepareRoot => 5
    case MarkValidatingRman => 4
    case CheckSyntax => 3
    case MarkQuiesce => 2
    case StopListener => 1
    case _ => 0
  }

  predicate HeadsForShutdown(w: World, i: nat, id: string) {
    && WorksThere(w, i, id) && w.processes[i].request != id && w.processes[i].pc.At?
    && (w.processes[i].pc.op.Shutdown? || Ahead(w.processes[i].pc.op) > 0)
  }

  lemma NextOperation(w: World, i: nat, id: string)
    requires HeadsForShutdown(w, i, id) && !w.processes[i].pc.op.Shutdown?
    ensures var w' := Next(w, Go(i, true, w.hosts[TargetAt(w, i)], false));
      HeadsForShutdown(w', i, id) && Ahead(w'.processes[i].pc.op) < Ahead(w.processes[i].pc.op)
  {
  }

  lemma {:induction false} ShutsDown(w: World, i: nat, id: string) returns (steps: seq<Step>)
    requires HeadsForShutdown(w, i, id)
    ensures Lossless(steps) && LabelFalse(Run(w, steps), id)
    decreases Ahead(w.processes[i].pc.op)
  {
    if w.processes[i].pc.op.Shutdown? {
      steps := [Go(i, true, Closed(w.hosts[TargetAt(w, i)]), false)];
      RunAfter(w, steps[0], []);
      assert [steps[0]] + [] == steps;
    } else {
      NextOperation(w, i, id);
      var go := Go(i, true, w.hosts[TargetAt(w, i)], false);
      var rest := ShutsDown(Next(w, go), i, id);
      steps := [go] + rest;
      RunAfter(w, go, rest);
    }
  }

  lemma LockLeadsDown(w: World, i: nat, id: string) returns (steps: seq<Step>)
    requires WorksThere(w, i, id) && w.processes[i].request != id && w.processes[i].pc.Preflight?
    requires PreflightPasses(w.requests[w.processes[i].request], w.hosts[TargetAt(w, i)])
    ensures Lossless(steps) && LabelFalse(Run(w, steps), id)
  {
    var go := Go(i, true, w.hosts[TargetAt(w, i)], false);
    assert HeadsForShutdown(Next(w, go), i, id);
    var rest := ShutsDown(Next(w, go), i, id);
    steps := [go] + rest;
    RunAfter(w, go, rest);
  }

  /** A disturbing step puts a process on the target that can bring the database down. */
  lemma DisturberWorks(w: World, step: Step, id: string) returns (i: nat)
    requires Inv(w) && Calm(w, id) && Disturbs(w, step, TargetOf(w.requests[id].binding))
    ensures var w' := Next(w, step);
      && WorksThere(w', i, id)
      && if step.Go? && w.processes[step.process].pc.Admitted?
         then w'.processes[i].request != id && w'.processes[i].pc.Preflight?
              && PreflightPasses(w'.requests[w'.processes[i].request], w'.hosts[TargetAt(w', i)])
         else w'.processes[i].pc.Restoring? && w'.processes[i].pc.step.ROpen?
  {
    assert RequestOk(w, id);
    i := if step.Go? then step.process else |w.processes|;
  }

  /** Every step that disturbs the target of a calm request has a lossless continuation, by the process it concerns, to
    * a state in which the label is still there and the database is down. */
  lemma DisturbedCanFail(w: World, step: Step, id: string) returns (steps: seq<Step>)
    requires Inv(w) && Calm(w, id) && Disturbs(w, step, TargetOf(w.requests[id].binding))
    ensures Durable(w, [step] + steps) && LabelFalse(Run(w, [step] + steps), id)
  {
    var w' := Next(w, step);
    var i := DisturberWorks(w, step, id);
    if step.Go? && w.processes[step.process].pc.Admitted? {
      steps := LockLeadsDown(w', i, id);
    } else {
      steps := [Go(i, false, Closed(w'.hosts[TargetAt(w', i)]), false)];
      OpenFails(w', i, id);
    }
    LosslessIsDurable(w, [step] + steps);
    RunAfter(w, step, steps);
  }

  /** A termination after completed is recorded and before the trap is disarmed keeps the label while the trap's own
    * commands disturb the services. */
  lemma CompletedCanOutliveHealth(w: World, i: nat)
    requires Inv(w) && Runs(w, i) && w.processes[i].pc == At(Finish)
    ensures var id := w.processes[i].request; var t := TargetAt(w, i); var h := w.hosts[t];
      var w' := Next(Next(w, Go(i, false, h, false)), Go(i, false, h.(openReadWrite := false), false));
      && w.requests[id].state.Completed? && Healthy(w.hosts[t], w.requests[id].listener)
      && w'.requests[id].state.Completed? && !Healthy(w'.hosts[t], w'.requests[id].listener)
  {
    assert ProcessOk(w, i);
    var h := w.hosts[TargetAt(w, i)];
    assert Runs(Next(w, Go(i, false, h, false)), i);
  }

  /** The trap of such a process does not record its verdict, but a true one means that the label is true again: when the
    * trap is over, the request is calm exactly if its services are healthy, and they are if the verdict is true. */
  lemma VerdictAfterCompletion(w: World, i: nat, restored: bool, phase: Phase, h': Host, after: seq<Step>)
    requires Inv(w) && Runs(w, i) && w.processes[i].pc == Restoring(RVerdict(restored), Some(phase))
    requires w.requests[w.processes[i].request].state.Completed?
    ensures var id := w.processes[i].request; var w' := Next(w, Go(i, true, h', false));
      && w'.requests == w.requests && w'.hosts == w.hosts
      && (Calm(w', id) <==> Healthy(w.hosts[TargetAt(w, i)], w.requests[id].listener))
      && (restored ==> Calm(w', id))
      && (restored && Undisturbed(w', after, TargetAt(w, i)) ==> AlwaysTrue(w', after, id))
  {
    var w' := Next(w, Go(i, true, h', false));
    var t := TargetAt(w, i);
    HolderReady(w, i);
    assert w'.requests == w.requests && w'.hosts == w.hosts && w'.processes[i].pc.Unlock?;
    forall j: nat ensures Leaving(w', j, t) {
      assert ProcessOk(w, j) && ProcessOk(w, i) && OneReconciler(w, i, j);
    }
    if restored && Undisturbed(w', after, t) { CalmRun(w', after, w.processes[i].request); }
  }
}
