/** What the death of a process leaves behind: targets that stay locked for good, targets that a reconciliation can free,
  * and torn records that nobody touches again. */
module RecoveryStranding {
  import opened Text
  import opened RecoveryPrep
  import opened RecoverySafety
  import opened RecoveryTheorems
  import opened RecoveryStability

  // ---- stuck requests ----

  /** Nobody alive holds the target, and its lock is taken. */
  ghost predicate Deserted(w: World, t: Target) {
    t in w.locks && w.locks[t] < |w.processes| && !Live(w, w.locks[t]) && forall i: nat :: Absent(w, i, t)
  }

  predicate Absent(w: World, i: nat, t: Target) {
    Holder(w, i) ==> Known(w, i) && TargetAt(w, i) != t
  }

  /** The lock of the request's target belongs to a dead process of the request, and reconciliation refuses the request:
    * it is not running, or its record is not whole. */
  ghost predicate Stranded(w: World, id: string, k: nat) {
    && id in w.requests && Later(w.requests[id].state) && !(w.requests[id].state.Running? && w.requests[id].sealed)
    && var t := TargetOf(w.requests[id].binding);
    && Deserted(w, t) && w.locks[t] == k && w.processes[k].request == id
  }

  lemma DesertedActor(w: World, step: Step, i: nat, t: Target)
    requires Deserted(w, t) && ActorOf(step) == Some(i)
    ensures Deserted(Next(w, step), t) && Next(w, step).locks[t] == w.locks[t]
  {
    var w' := Next(w, step);
    assert Absent(w, i, t);
    LockElsewhere(w, step, i, t);
    if i < |w.processes| {
      ActorActsAlone(w, step, i);
      forall j: nat ensures Absent(w', j, t) {
        assert Absent(w, j, t);
        if j == i && Holder(w', i) { HolderEnters(w, step, i, t); }
      }
    }
  }

  /** Whoever does not hold the target leaves its taken lock alone. */
  lemma LockElsewhere(w: World, step: Step, i: nat, t: Target)
    requires ActorOf(step) == Some(i) && t in w.locks && Absent(w, i, t)
    ensures t in Next(w, step).locks && Next(w, step).locks[t] == w.locks[t]
    ensures !Live(w, i) ==> !Live(Next(w, step), i)
    ensures i >= |w.processes| ==> Next(w, step) == w
  {
  }

  lemma HolderEnters(w: World, step: Step, i: nat, t: Target)
    requires ActorOf(step) == Some(i) && t in w.locks && Absent(w, i, t) && Holder(Next(w, step), i)
    ensures Known(Next(w, step), i) && TargetAt(Next(w, step), i) != t
  {
    if i < |w.processes| { ActorActsAlone(w, step, i); }
  }

  lemma DesertedPeople(w: World, step: Step, t: Target)
    requires Deserted(w, t) && ActorOf(step).None?
    requires step.Reconcile? && step.id in w.requests && TargetOf(w.requests[step.id].binding) == t ==> Next(w, step) == w
    ensures Deserted(Next(w, step), t) && Next(w, step).locks[t] == w.locks[t]
  {
    var w' := Next(w, step);
    OthersLetAlone(w, step);
    forall j: nat ensures Absent(w', j, t) {
      assert Absent(w, j, t);
      if j >= |w.processes| && !step.Reconcile? { NewIsAdmitted(w, step, j); }
    }
  }

  lemma StrandedActor(w: World, step: Step, i: nat, id: string, k: nat)
    requires Stranded(w, id, k) && ActorOf(step) == Some(i)
    ensures Stranded(Next(w, step), id, k) && Next(w, step).requests[id] == w.requests[id]
  {
    var t := TargetOf(w.requests[id].binding);
    DesertedActor(w, step, i, t);
    assert Absent(w, i, t);
    if Runs(w, i) && !w.processes[i].pc.Admitted? {
      ActorActsAlone(w, step, i);
    } else {
      AdmittedWritesNothing(w, step, i);
      if i < |w.processes| { ActorActsAlone(w, step, i); }
    }
  }

  lemma StrandedPeople(w: World, step: Step, id: string, k: nat)
    requires Inv(w) && Stranded(w, id, k) && ActorOf(step).None?
    ensures Stranded(Next(w, step), id, k) && Next(w, step).requests[id] == w.requests[id]
  {
    if step.Reconcile? && step.id in w.requests { assert RequestOk(w, step.id); }
    DesertedPeople(w, step, TargetOf(w.requests[id].binding));
    OthersLetAlone(w, step);
  }

  /** A stranded request stays exactly as it is, and its target locked, over every run. */
  lemma {:induction false} StrandedForever(w: World, steps: seq<Step>, id: string, k: nat)
    requires Inv(w) && Stranded(w, id, k) && Durable(w, steps)
    ensures Stranded(Run(w, steps), id, k) && Run(w, steps).requests[id] == w.requests[id]
    decreases |steps|
  {
    if |steps| == 0 {
    } else {
      var before := Run(w, steps[..|steps| - 1]);
      StrandedForever(w, steps[..|steps| - 1], id, k);
      RunKeeps(w, steps[..|steps| - 1]);
      if ActorOf(steps[|steps| - 1]).Some? {
        StrandedActor(before, steps[|steps| - 1], ActorOf(steps[|steps| - 1]).value, id, k);
      } else {
        StrandedPeople(before, steps[|steps| - 1], id, k);
      }
    }
  }

  /** The command at hand writes the record. */
  predicate Writing(pc: Pc) {
    (pc.At? && Marks(pc.op)) || pc.Blocking? || (pc.Restoring? && pc.step.RVerdict?)
  }

  /** Where the death of a process leaves nothing that a reconciliation accepts: before its request is running or after
    * its last label, on a record that is not whole, or in the middle of a write. */
  predicate DiesStranding(pc: Pc, r: Request, torn: bool) {
    pc.Preflight? || pc == At(Finish) || pc.Unlock? || r.state.Completed? || !r.sealed || (torn && Writing(pc))
  }

  lemma TornWrites(p: Process, r: Request, h: Host, now: int)
    requires Ready(p, r, h, now) && r.state.Running? && r.sealed
    ensures (Torn(p, r, h, now).state.Running? && Torn(p, r, h, now).sealed) <==> !Writing(p.pc)
    ensures !p.pc.Preflight? && p.pc != At(Finish) && !p.pc.Unlock?
  {
  }

  lemma KilledDeserts(w: World, i: nat, torn: bool)
    requires Inv(w) && Holder(w, i)
    ensures Known(w, i)
    ensures var t := TargetAt(w, i); var w' := Next(w, Kill(i, torn));
      t in w.locks && w.locks[t] < |w'.processes| && Deserted(w', t) && w'.locks == w.locks && w'.processes[w.locks[t]].request == w.processes[i].request
  {
    HolderReady(w, i);
    var t := TargetAt(w, i);
    var w' := Next(w, Kill(i, torn));
    ActorActsAlone(w, Kill(i, torn), i);
    assert ProcessOk(w, i);
    forall j: nat ensures Absent(w', j, t) {
      assert ProcessOk(w, j) && OneReconciler(w, i, j);
    }
  }

  /** A killed process strands its request exactly if it dies in its preflight, after its last label, with a record that
    * is not whole, or in a write of the record. */
  lemma KilledIsStranded(w: World, i: nat, torn: bool)
    requires Inv(w) && Holder(w, i)
    ensures Known(w, i) && TargetAt(w, i) in w.locks
    ensures var id := w.processes[i].request; var w' := Next(w, Kill(i, torn));
      (Stranded(w', id, w.locks[TargetAt(w, i)]) <==> DiesStranding(w.processes[i].pc, w.requests[id], torn))
  {
    HolderReady(w, i);
    var id := w.processes[i].request;
    var r := w.requests[id];
    var h := w.hosts[TargetAt(w, i)];
    KilledDeserts(w, i, torn);
    TornKeeps(w.processes[i], r, h, w.now);
    if r.state.Running? && r.sealed { TornWrites(w.processes[i], r, h, w.now); }
    KilledRecord(w, i, torn);
  }

  lemma KilledRecord(w: World, i: nat, torn: bool)
    requires Inv(w) && Holder(w, i)
    ensures Known(w, i)
    ensures var id := w.processes[i].request; var w' := Next(w, Kill(i, torn));
      && id in w'.requests
      && w'.requests[id] == if torn then Torn(w.processes[i], w.requests[id], w.hosts[TargetAt(w, i)], w.now) else w.requests[id]
  {
    assert ProcessOk(w, i);
  }

  // ---- targets that can be freed ----

  /** Process n reconciles the request, holding the lock of its target, and has proven nothing yet. */
  predicate Reconciling(w: World, n: nat, id: string) {
    && Runs(w, n) && w.processes[n].request == id && w.requests[id].state.Running?
    && w.processes[n].pc.Restoring? && w.processes[n].pc.phase.None? && w.processes[n].pc.step != RVerdict(true)
  }

  /** How many commands may fail before the verdict. */
  function Rest(r: Restore): nat {
    match r
    case ROpen => 5
    case RStartup => 4
    case RProbe => 3
    case RStatus(_) => 2
    case RVerdict(_) => 0
    case _ => 1
  }

  lemma FailingCommand(w: World, n: nat, id: string)
    requires Reconciling(w, n, id) && !w.processes[n].pc.step.RVerdict?
    ensures var w' := Next(w, Go(n, false, w.hosts[TargetAt(w, n)], false));
      Reconciling(w', n, id) && Rest(w'.processes[n].pc.step) < Rest(w.processes[n].pc.step)
      && w'.requests[id].binding == w.requests[id].binding
  {
  }

  /** The target of the request is free, and the request classified. */
  predicate Freed(w: World, id: string) {
    id in w.requests && w.requests[id].state.RecoveryRequired? && TargetOf(w.requests[id].binding) !in w.locks
  }

  lemma VerdictFrees(w: World, n: nat, id: string)
    requires Reconciling(w, n, id) && w.processes[n].pc.step.RVerdict?
    ensures var go := Go(n, true, w.hosts[TargetAt(w, n)], false); Freed(Next(Next(w, go), go), id)
  {
    var go := Go(n, true, w.hosts[TargetAt(w, n)], false);
    var w1 := Next(w, go);
    assert Runs(w1, n) && w1.processes[n].pc == Unlock(true);
  }

  lemma {:induction false} ReconciliationFrees(w: World, n: nat, id: string) returns (steps: seq<Step>)
    requires Reconciling(w, n, id)
    ensures Lossless(steps) && Freed(Run(w, steps), id)
    decreases Rest(w.processes[n].pc.step)
  {
    if w.processes[n].pc.step.RVerdict? {
      var go := Go(n, true, w.hosts[TargetAt(w, n)], false);
      VerdictFrees(w, n, id);
      steps := [go] + ([go] + []);
      RunAfter(w, go, [go] + []);
      RunAfter(Next(w, go), go, []);
    } else {
      FailingCommand(w, n, id);
      var go := Go(n, false, w.hosts[TargetAt(w, n)], false);
      var rest := ReconciliationFrees(Next(w, go), n, id);
      steps := [go] + rest;
      RunAfter(w, go, rest);
    }
  }

  lemma NobodyReconciles(w: World, id: string)
    requires id in w.requests && Deserted(w, TargetOf(w.requests[id].binding))
    ensures SoleReconciler(w, id)
  {
    forall j | 0 <= j < |w.processes| && w.processes[j].request == id && w.processes[j].alive
      ensures !(w.processes[j].pc.Restoring? && w.processes[j].pc.phase.None?)
    {
      assert Absent(w, j, TargetOf(w.requests[id].binding));
    }
  }

  lemma ReconciliationBegins(w: World, id: string)
    requires Inv(w) && id in w.requests && w.requests[id].state.Running? && w.requests[id].sealed
    requires var t := TargetOf(w.requests[id].binding); Deserted(w, t) && t in w.hosts
    ensures w.requests[id].authorizer.Some?
    ensures Reconciling(Next(w, Reconcile(id, w.requests[id].authorizer.value)), |w.processes|, id)
  {
    assert RequestOk(w, id);
    NobodyReconciles(w, id);
  }

  lemma KilledWhole(w: World, i: nat, torn: bool)
    requires Inv(w) && Holder(w, i) && w.processes[i].request in w.requests
    requires !DiesStranding(w.processes[i].pc, w.requests[w.processes[i].request], torn)
    ensures Known(w, i)
    ensures var id := w.processes[i].request; var w' := Next(w, Kill(i, torn));
      && id in w'.requests && w'.requests[id].state.Running? && w'.requests[id].sealed
      && TargetOf(w'.requests[id].binding) == TargetAt(w, i) && TargetAt(w, i) in w'.hosts
  {
    HolderReady(w, i);
    KilledRecord(w, i, torn);
    var r := w.requests[w.processes[i].request];
    TornKeeps(w.processes[i], r, w.hosts[TargetAt(w, i)], w.now);
    assert r.state.Running?;
    TornWrites(w.processes[i], r, w.hosts[TargetAt(w, i)], w.now);
    HostsStay(w, Kill(i, torn));
  }

  /** And only then: after any other death the authorizer can free the target, by a reconciliation that need not even
    * succeed with a single command. */
  lemma KilledIsFreed(w: World, i: nat, torn: bool) returns (steps: seq<Step>)
    requires Inv(w) && Holder(w, i) && w.processes[i].request in w.requests
    requires !DiesStranding(w.processes[i].pc, w.requests[w.processes[i].request], torn)
    ensures Durable(w, [Kill(i, torn)] + steps) && Freed(Run(w, [Kill(i, torn)] + steps), w.processes[i].request)
  {
    var id := w.processes[i].request;
    var w1 := Next(w, Kill(i, torn));
    KilledDeserts(w, i, torn);
    KilledWhole(w, i, torn);
    KillKeeps(w, i, torn);
    ReconciliationBegins(w1, id);
    var begin := Reconcile(id, w1.requests[id].authorizer.value);
    var rest := ReconciliationFrees(Next(w1, begin), |w1.processes|, id);
    steps := [begin] + rest;
    RunAfter(w1, begin, rest);
    RunAfter(w, Kill(i, torn), steps);
    LosslessIsDurable(w, [Kill(i, torn)] + steps);
  }

  // ---- torn records ----

  /** Without a live process of its own, a running request whose record is not whole stays so over every run at all. */
  ghost predicate Adrift(w: World, id: string) {
    && id in w.requests && w.requests[id].state.Running? && !w.requests[id].sealed
    && forall i: nat :: Live(w, i) ==> w.processes[i].request != id
  }

  lemma AdriftStep(w: World, step: Step, id: string)
    requires Adrift(w, id)
    ensures Adrift(Next(w, step), id) && Next(w, step).requests[id] == w.requests[id]
  {
    if ActorOf(step).None? {
      OthersLetAlone(w, step);
      NobodyJoins(w, step, id);
    } else if ActorOf(step).value < |w.processes| {
      ActorActsAlone(w, step, ActorOf(step).value);
      if !Live(w, ActorOf(step).value) { NobodyReturns(w, step, ActorOf(step).value); }
    }
  }

  lemma NobodyJoins(w: World, step: Step, id: string)
    requires Adrift(w, id) && ActorOf(step).None?
    ensures forall j: nat | |w.processes| <= j < |Next(w, step).processes| :: Next(w, step).processes[j].request != id
  {
  }

  lemma NobodyReturns(w: World, step: Step, i: nat)
    requires ActorOf(step) == Some(i) && i < |w.processes| && !Live(w, i)
    ensures !Live(Next(w, step), i) && Next(w, step).requests == w.requests
  {
  }

  lemma {:induction false} AdriftForever(w: World, steps: seq<Step>, id: string)
    requires Adrift(w, id)
    ensures Adrift(Run(w, steps), id) && Run(w, steps).requests[id] == w.requests[id]
    decreases |steps|
  {
    if |steps| == 0 {
    } else {
      AdriftForever(w, steps[..|steps| - 1], id);
      AdriftStep(Run(w, steps[..|steps| - 1]), steps[|steps| - 1], id);
    }
  }
}
