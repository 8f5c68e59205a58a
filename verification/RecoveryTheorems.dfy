/** What recovery preparation guarantees over whole runs: exclusive targets, honest labels, separated duties. */
module RecoveryTheorems {
  import opened Text
  import opened RecoveryPrep
  import opened RecoverySafety

  // ---- exclusive targets ----

  /** However processes are killed, at most one live process works on a target. */
  lemma {:induction false} OneLiveHolder(hosts: map<Target, Host>, now: int, steps: seq<Step>, i: nat, j: nat)
    requires Durable(Initial(hosts, now), steps)
    requires var w := Run(Initial(hosts, now), steps);
      Holder(w, i) && Holder(w, j) && Known(w, i) && Known(w, j) && TargetAt(w, i) == TargetAt(w, j)
    ensures i == j
  {
    Reachable(hosts, now, steps);
    var w := Run(Initial(hosts, now), steps);
    assert ProcessOk(w, i) && ProcessOk(w, j) && OneReconciler(w, i, j);
    Exclusive(w, i, j);
  }

  /** While a request is running, even if its process was killed, its target is locked for it: no process of another
    * request holds it, and no execution gets its lock. */
  lemma {:induction false} RunningExcludesOthers(hosts: map<Target, Host>, now: int, steps: seq<Step>, id: string, j: nat, ok: bool)
    requires Durable(Initial(hosts, now), steps)
    requires var w := Run(Initial(hosts, now), steps);
      && id in w.requests && w.requests[id].state.Running? && w.requests[id].sealed
      && Live(w, j) && Known(w, j) && TargetAt(w, j) == TargetOf(w.requests[id].binding)
    ensures var w := Run(Initial(hosts, now), steps);
      && (Holder(w, j) ==> w.processes[j].request == id)
      && (w.processes[j].pc.Admitted? ==> Runs(w, j) && TakeLock(w, j, ok).locks == w.locks && !Live(TakeLock(w, j, ok), j))
  {
    Reachable(hosts, now, steps);
    var w := Run(Initial(hosts, now), steps);
    assert RequestOk(w, id) && ProcessOk(w, j);
  }

  /** Whoever works on a request, in an execution or in a reconciliation, is its authorizer. */
  lemma EveryActorIsAuthorizer(hosts: map<Target, Host>, now: int, steps: seq<Step>, i: nat)
    requires Durable(Initial(hosts, now), steps) && Live(Run(Initial(hosts, now), steps), i)
    ensures var w := Run(Initial(hosts, now), steps);
      Known(w, i) && w.requests[w.processes[i].request].authorizer == Some(w.processes[i].actor)
  {
    Reachable(hosts, now, steps);
    assert ProcessOk(Run(Initial(hosts, now), steps), i);
  }

  /** The process whose command, death or loss a step is. */
  function ActorOf(step: Step): Option<nat> {
    match step
    case Go(i, _, _, _) => Some(i)
    case Kill(i, _) => Some(i)
    case LoseRecord(i, _) => Some(i)
    case _ => None
  }

  /** The parts of a request that no process changes. */
  predicate SameBasis(r: Request, r': Request) {
    r'.binding == r.binding && r'.source == r.source && r'.approver == r.approver && r'.authorizer == r.authorizer
    && (r.rootExists ==> r'.rootExists)
  }

  /** A process keeps its request, starts once, and enters the preflight from admission only. */
  predicate Evolves(p: Process, p': Process) {
    && p'.request == p.request && p'.actor == p.actor && (p.alive || !p'.alive)
    && (p'.start == p.start || p.pc.Preflight?)
    && (p'.pc.Preflight? ==> p.pc.Preflight? || p.pc.Admitted?) && (p'.pc.Admitted? ==> p.pc.Admitted?)
  }

  /** A step of process i changes nothing but itself and its request, apart from locks and services. */
  ghost predicate ActsAlone(w: World, w': World, i: nat) {
    && |w'.processes| == |w.processes| && w'.now == w.now && i < |w.processes|
    && (forall j: nat | j < |w.processes| && j != i :: w'.processes[j] == w.processes[j])
    && Evolves(w.processes[i], w'.processes[i])
    && w'.requests.Keys == w.requests.Keys
    && (forall id | id in w.requests && id != w.processes[i].request :: w'.requests[id] == w.requests[id])
    && (w.processes[i].request in w.requests ==>
         SameBasis(w.requests[w.processes[i].request], w'.requests[w.processes[i].request]))
  }

  lemma CommandBasis(p: Process, r: Request, h: Host, now: int, ok: bool, h': Host)
    ensures SameBasis(r, Command(p, r, h, now, ok, h').request) && Evolves(p, Command(p, r, h, now, ok, h').process)
  {
  }

  lemma TearingBasis(p: Process, r: Request, h: Host, now: int, ok: bool, h': Host, torn: bool)
    ensures SameBasis(r, Tearing(p, r, h, now, ok, h', torn).request) && SameBasis(r, Torn(p, r, h, now))
    ensures Evolves(p, Tearing(p, r, h, now, ok, h', torn).process)
  {
    CommandBasis(p, r, h, now, ok, h');
    CommandBasis(p, r, h, now, true, h);
  }

  lemma ActorActsAlone(w: World, step: Step, i: nat)
    requires ActorOf(step) == Some(i) && i < |w.processes|
    ensures ActsAlone(w, Next(w, step), i)
  {
    if Runs(w, i) {
      var p := w.processes[i];
      var r := w.requests[p.request];
      var h := w.hosts[TargetOf(r.binding)];
      if step.Go? {
        TearingBasis(p, r, h, w.now, step.ok, step.host, step.torn);
      } else {
        TearingBasis(p, r, h, w.now, true, h, false);
      }
    }
  }

  /** A process works on its own target only. */
  lemma ElsewhereHost(w: World, step: Step, i: nat, t: Target)
    requires ActorOf(step) == Some(i) && (!Runs(w, i) || TargetAt(w, i) != t) && t in w.hosts
    ensures t in Next(w, step).hosts && Next(w, step).hosts[t] == w.hosts[t]
    ensures !Runs(w, i) ==> Next(w, step).requests == w.requests
  {
  }

  /** A process that is not a holder writes no record. */
  lemma AdmittedWritesNothing(w: World, step: Step, i: nat)
    requires ActorOf(step) == Some(i) && (!Runs(w, i) || w.processes[i].pc.Admitted?)
    ensures Next(w, step).requests == w.requests
  {
    if Runs(w, i) { assert w.requests[w.processes[i].request := w.requests[w.processes[i].request]] == w.requests; }
  }

  /** Any other step adds at most a process that is admitted or reconciles, and touches no request that a process may
    * be working on. */
  ghost predicate LetsAlone(w: World, w': World) {
    && w.processes <= w'.processes && w'.hosts == w.hosts && w'.locks == w.locks
    && (forall j | |w.processes| <= j < |w'.processes| :: w'.processes[j].pc.Admitted? || w'.processes[j].pc == Restoring(ROpen, None))
    && (forall id | id in w.requests ::
         && id in w'.requests && w'.requests[id].binding == w.requests[id].binding && w'.requests[id].source == w.requests[id].source
         && (w'.requests[id] == w.requests[id] || Rank(w.requests[id].state) < Rank(w'.requests[id].state) <= 2))
  }

  function Rank(s: State): nat {
    match s
    case AwaitingApproval => 0
    case Approved => 1
    case Authorized => 2
    case Running => 3
    case _ => 4
  }

  lemma OthersLetAlone(w: World, step: Step)
    requires ActorOf(step).None?
    ensures LetsAlone(w, Next(w, step))
  {
  }

  /** Only a process of the request moves it out of running, or gives it a final label. */
  lemma MovedByOwnProcess(w: World, step: Step, id: string)
    requires id in w.requests && id in Next(w, step).requests && Next(w, step).requests[id].state != w.requests[id].state
    requires w.requests[id].state.Running? || Terminal(Next(w, step).requests[id].state)
    ensures ActorOf(step).Some? && Runs(w, ActorOf(step).value) && w.processes[ActorOf(step).value].request == id
  {
  }

  /** Nobody but reconciliations works on the request; executions of it may be waiting for the lock. */
  ghost predicate LeftBehind(w: World, id: string) {
    forall i: nat | Holder(w, i) && w.processes[i].request == id :: Reconciles(w.processes[i].pc)
  }

  /** Once its process is dead, only a reconciliation ends a running request: in any world at all, the step that does is
    * at the verdict of a live reconciliation of that request. */
  lemma OnlyReconcileEnds(w: World, step: Step, id: string)
    requires id in w.requests && w.requests[id].state.Running? && LeftBehind(w, id)
    requires id in Next(w, step).requests && Next(w, step).requests[id].state != Running
    ensures ActorOf(step).Some? && Live(w, ActorOf(step).value)
    ensures var p := w.processes[ActorOf(step).value];
      p.request == id && p.pc.Restoring? && p.pc.phase.None? && p.pc.step.RVerdict?
  {
    MovedByOwnProcess(w, step, id);
  }

  // ---- honest labels ----

  /** A final label never overstates the services h the process leaves behind. */
  predicate Honest(p: Process, s: State, listener: Option<set<string>>, h: Host) {
    && (s.Completed? || s.FailedServicesRestored? || s.ValidationFailed? ==> Healthy(h, listener))
    && (s.Blocked? ==> h == p.start)
    && (s.ValidationFailed? ==> p.pc.Restoring? && p.pc.phase == Some(ValidatingRecovery))
  }

  lemma CommandIsHonest(p: Process, r: Request, h: Host, now: int, ok: bool, h': Host)
    requires Ready(p, r, h, now)
    requires var e := Command(p, r, h, now, ok, h'); e.request.state != r.state && Terminal(e.request.state)
    ensures var e := Command(p, r, h, now, ok, h');
      && r.state.Running? && Honest(p, e.request.state, e.request.listener, e.host) && e.writes && (e.host == h' || e.host == h)
  {
  }

  lemma TornIsHonest(p: Process, r: Request, h: Host, now: int)
    requires Ready(p, r, h, now) && Torn(p, r, h, now).state != r.state && Terminal(Torn(p, r, h, now).state)
    ensures r.state.Running? && Honest(p, Torn(p, r, h, now).state, Torn(p, r, h, now).listener, h)
  {
    CommandIsHonest(p, r, h, now, true, h);
  }

  lemma TearingIsHonest(p: Process, r: Request, h: Host, now: int, ok: bool, h': Host, torn: bool)
    requires Ready(p, r, h, now)
    requires var e := Tearing(p, r, h, now, ok, h', torn); e.request.state != r.state && Terminal(e.request.state)
    ensures var e := Tearing(p, r, h, now, ok, h', torn);
      r.state.Running? && Honest(p, e.request.state, e.request.listener, e.host)
  {
    if !ok && torn && p.pc.At? && Marks(p.pc.op) {
      TornIsHonest(p, r, h, now);
    } else {
      CommandIsHonest(p, r, h, now, ok, h');
    }
  }

  lemma LabelledBy(w: World, i: nat, step: Step)
    requires Inv(w) && Runs(w, i) && ActorOf(step) == Some(i)
    requires var id := w.processes[i].request; var w' := Next(w, step);
      id in w'.requests && w'.requests[id].state != w.requests[id].state && Terminal(w'.requests[id].state)
    ensures var id := w.processes[i].request; var w' := Next(w, step); var r := w'.requests[id];
      && w.requests[id].state.Running? && TargetOf(r.binding) in w'.hosts
      && Honest(w.processes[i], r.state, r.listener, w'.hosts[TargetOf(r.binding)])
  {
    assert !w.processes[i].pc.Admitted?;
    HolderReady(w, i);
    var p := w.processes[i];
    var r := w.requests[p.request];
    var h := w.hosts[TargetAt(w, i)];
    if step.Go? {
      TearingKeeps(p, r, h, w.now, step.ok, step.host, step.torn);
      TearingIsHonest(p, r, h, w.now, step.ok, step.host, step.torn);
    } else {
      TornKeeps(p, r, h, w.now);
      TornIsHonest(p, r, h, w.now);
    }
  }

  /** When a step gives a request a final label, the request was running and the label is honest, even if the write of
    * the label is torn. */
  lemma LabelsAreHonest(hosts: map<Target, Host>, now: int, steps: seq<Step>, step: Step, id: string)
    requires Durable(Initial(hosts, now), steps)
    ensures var w := Run(Initial(hosts, now), steps);
      Labels(w, step, id) ==> var w' := Next(w, step); var r := w'.requests[id];
      && TargetOf(r.binding) in w'.hosts && w.requests[id].state.Running?
      && ActorOf(step).Some? && ActorOf(step).value < |w.processes| && w.processes[ActorOf(step).value].request == id
      && Honest(w.processes[ActorOf(step).value], r.state, r.listener, w'.hosts[TargetOf(r.binding)])
  {
    Reachable(hosts, now, steps);
    var w := Run(Initial(hosts, now), steps);
    if Labels(w, step, id) {
      MovedByOwnProcess(w, step, id);
      LabelledBy(w, ActorOf(step).value, step);
    }
  }

  /** The step gives the request a final label. */
  predicate Labels(w: World, step: Step, id: string) {
    && id in w.requests && id in Next(w, step).requests
    && Next(w, step).requests[id].state != w.requests[id].state && Terminal(Next(w, step).requests[id].state)
  }

  /** The process has started on target t, whose services were h. */
  predicate StartedOn(w: World, i: nat, t: Target, h: Host) {
    && i < |w.processes| && w.processes[i].start == h && !w.processes[i].pc.Admitted? && !w.processes[i].pc.Preflight?
    && w.processes[i].request in w.requests && TargetOf(w.requests[w.processes[i].request].binding) == t
  }

  lemma {:induction false} StartIsFrozen(w: World, steps: seq<Step>, i: nat, t: Target, h: Host)
    requires StartedOn(w, i, t, h)
    ensures StartedOn(Run(w, steps), i, t, h) && Run(w, steps).processes[i].request == w.processes[i].request
    decreases |steps|
  {
    if |steps| == 0 {
    } else {
      StartIsFrozen(w, steps[..|steps| - 1], i, t, h);
      StartStep(Run(w, steps[..|steps| - 1]), steps[|steps| - 1], i, t, h);
    }
  }

  lemma StartStep(w: World, step: Step, i: nat, t: Target, h: Host)
    requires StartedOn(w, i, t, h)
    ensures StartedOn(Next(w, step), i, t, h) && Next(w, step).processes[i].request == w.processes[i].request
  {
    if ActorOf(step).None? {
      OthersLetAlone(w, step);
    } else if ActorOf(step).value < |w.processes| {
      ActorActsAlone(w, step, ActorOf(step).value);
    }
  }

  /** A blocked request left the services exactly as they were when its process began: from the preflight of process i,
    * over any run, to the step in which it labels the request blocked. */
  lemma {:induction false} BlockedIsUntouched(w: World, i: nat, h': Host, steps: seq<Step>, step: Step)
    requires Inv(w) && Runs(w, i) && w.processes[i].pc.Preflight?
    requires var w1 := Proceed(w, i, true, h', false);
      w1.processes[i].pc == At(MakeRoot) && Durable(w1, steps) && ActorOf(step) == Some(i)
    ensures var id := w.processes[i].request; var t := TargetAt(w, i); var w2 := Run(Proceed(w, i, true, h', false), steps);
      Labels(w2, step, id) && Next(w2, step).requests[id].state.Blocked? ==>
        t in Next(w2, step).hosts && Next(w2, step).hosts[t] == w.hosts[t]
  {
    var id := w.processes[i].request;
    assert ProcessOk(w, i);
    ProceedKeeps(w, i, true, h', false);
    var begun := Proceed(w, i, true, h', false);
    StartIsFrozen(begun, steps, i, TargetAt(w, i), w.hosts[TargetAt(w, i)]);
    RunKeeps(begun, steps);
    var w2 := Run(begun, steps);
    if Labels(w2, step, id) {
      MovedByOwnProcess(w2, step, id);
      LabelledBy(w2, i, step);
      StartStep(w2, step, i, TargetAt(w, i), w.hosts[TargetAt(w, i)]);
    }
  }
}
