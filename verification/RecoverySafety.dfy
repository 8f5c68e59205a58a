/** Invariants of recovery preparation: who holds a target, what its process has established about the services,
  * and what a request has gone through. Runs are durable when no exit trap loses the record of a running request. */
module RecoverySafety {
  import opened Text
  import opened RecoveryPrep

  predicate Live(w: World, i: nat) {
    i < |w.processes| && w.processes[i].alive && !w.processes[i].pc.Gone?
  }

  /** A live process that has taken, or inherited, the lock of its target. */
  predicate Holder(w: World, i: nat) {
    Live(w, i) && !w.processes[i].pc.Admitted?
  }

  predicate Reconciles(pc: Pc) {
    (pc.Restoring? && pc.phase.None?) || pc == Unlock(true)
  }

  predicate Terminal(s: State) {
    s.Completed? || s.Blocked? || s.FailedServicesRestored? || s.ValidationFailed? || s.RecoveryRequired?
  }

  predicate Known(w: World, i: nat) {
    && i < |w.processes| && w.processes[i].request in w.requests
    && TargetOf(w.requests[w.processes[i].request].binding) in w.hosts
  }

  function TargetAt(w: World, i: nat): Target
    requires Known(w, i)
  {
    TargetOf(w.requests[w.processes[i].request].binding)
  }

  /** An execution owns the lock of its target; a reconciliation inherits the lock of a dead execution of its request. */
  predicate Holds(w: World, i: nat) {
    && Known(w, i)
    && (!w.processes[i].pc.Admitted? ==>
         var t := TargetAt(w, i);
         && t in w.locks && w.locks[t] < |w.processes|
         && if Reconciles(w.processes[i].pc)
            then !Live(w, w.locks[t]) && w.processes[w.locks[t]].request == w.processes[i].request
            else w.locks[t] == i)
  }

  /** States from authorization on. */
  predicate Later(s: State) {
    s.Authorized? || s.Running? || Terminal(s)
  }

  predicate StateFits(r: Request, pc: Pc) {
    match pc
    case Admitted => Later(r.state)
    case Preflight => Later(r.state) && (r.state.Running? ==> !r.sealed)
    case At(op) => (if op.Finish? then r.state.Completed? else r.state.Running?) && (op.MakeRoot? || r.rootExists)
    case Blocking => r.state.Running?
    case Restoring(_, phase) => r.state.Running? || (phase.Some? && r.state.Completed?)
    case Unlock(reconciling) => Later(r.state) && (r.state.Running? ==> !r.sealed) && (reconciling ==> Terminal(r.state))
    case Gone => true
  }

  predicate ServicesProbed(op: Op) {
    op.MarkSealing? || op.SealEvidence? || op.MarkValidating? || op.Validate? || op.RecordCompleted? || op.Finish?
  }

  predicate HostFits(p: Process, listener: Option<set<string>>, h: Host) {
    match p.pc
    case At(op) =>
      && (!MutationStarted(op) ==> h == p.start)
      && (op.CheckStatus? || op.ProbeDatabase? ==> (listener.Some? ==> ListenerServes(h, listener.value)))
      && (ServicesProbed(op) ==> Healthy(h, listener))
    case Blocking => h == p.start
    case Restoring(RStatus(health), _) => health ==> h.openReadWrite
    case Restoring(RStart(health), _) => health ==> h.openReadWrite
    case Restoring(RRecheck(health), _) => health ==> h.openReadWrite
    case Restoring(RRegister, _) => h.openReadWrite
    case Restoring(RVerify, _) => h.openReadWrite
    case Restoring(RVerdict(restored), _) => restored ==> Healthy(h, listener)
    case _ => true
  }

  /** The process runs for the request's authorizer, and an execution was admitted inside its window. */
  predicate Cleared(p: Process, r: Request) {
    Some(p.actor) == r.authorizer && (p.pc.Admitted? || p.pc.Preflight? ==> WindowOpen(r.binding, p.admittedAt))
  }

  predicate Fits(w: World, i: nat)
    requires Known(w, i)
  {
    var r := w.requests[w.processes[i].request];
    && StateFits(r, w.processes[i].pc)
    && HostFits(w.processes[i], r.listener, w.hosts[TargetAt(w, i)])
    && Cleared(w.processes[i], r)
    && w.processes[i].admittedAt <= w.now
  }

  predicate ProcessOk(w: World, i: nat) {
    Live(w, i) ==> Holds(w, i) && Fits(w, i)
  }

  predicate OneReconciler(w: World, i: nat, j: nat) {
    (Live(w, i) && Live(w, j) && Reconciles(w.processes[i].pc) && Reconciles(w.processes[j].pc)
     && w.processes[i].request == w.processes[j].request) ==> i == j
  }

  /** A running request with a whole record keeps its target locked by its own process, alive or dead. */
  predicate RunningIsLocked(w: World, id: string)
    requires id in w.requests
  {
    w.requests[id].state.Running? && w.requests[id].sealed ==>
      var t := TargetOf(w.requests[id].binding);
      t in w.locks && w.locks[t] < |w.processes| && w.processes[w.locks[t]].request == id
  }

  /** Separation of duties and the admission window, as far as the request has come; a completed one has its backup. */
  predicate LifeOk(r: Request, now: int) {
    && r.binding == r.source && r.binding.windowStart < r.binding.windowEnd <= r.binding.windowStart + 86400
    && (r.state.Completed? ==> r.rootExists)
    && (!r.state.AwaitingApproval? ==> r.approver.Some? && r.approver.value != r.binding.requester)
    && (Later(r.state) ==> r.authorizer.Some? && r.authorizer != r.approver && r.authorizer.value != r.binding.requester)
    && (r.state.Running? || Terminal(r.state) ==>
         && r.executor == r.authorizer
         && r.admittedAt.Some? && WindowOpen(r.binding, r.admittedAt.value)
         && r.startedAt.Some? && r.admittedAt.value <= r.startedAt.value <= now)
  }

  predicate RequestOk(w: World, id: string)
    requires id in w.requests
  {
    LifeOk(w.requests[id], w.now) && RunningIsLocked(w, id)
  }

  ghost predicate Inv(w: World) {
    && (forall i: nat :: ProcessOk(w, i))
    && (forall i: nat, j: nat :: OneReconciler(w, i, j))
    && (forall id | id in w.requests :: RequestOk(w, id))
  }

  // ---- exclusion ----

  lemma Exclusive(w: World, i: nat, j: nat)
    requires ProcessOk(w, i) && ProcessOk(w, j) && OneReconciler(w, i, j)
    requires Holder(w, i) && Holder(w, j) && TargetAt(w, i) == TargetAt(w, j)
    ensures i == j
  {
  }

  // ---- a step of one holder ----

  /** From w to w' only process i, its request, and the host and lock of its target change; the request stays with the
    * same people, from its authorization on. */
  ghost predicate Touches(w: World, w': World, i: nat) {
    && Known(w, i)
    && |w'.processes| == |w.processes|
    && (forall j: nat | j < |w.processes| && j != i :: w'.processes[j] == w.processes[j])
    && w'.processes[i].request == w.processes[i].request
    && w'.requests.Keys == w.requests.Keys
    && (forall id | id in w.requests && id != w.processes[i].request :: w'.requests[id] == w.requests[id])
    && SamePeople(w.requests[w.processes[i].request], w'.requests[w.processes[i].request])
    && w'.hosts.Keys == w.hosts.Keys
    && (forall t | t in w.hosts && t != TargetAt(w, i) :: w'.hosts[t] == w.hosts[t])
    && (forall t | t != TargetAt(w, i) :: (t in w'.locks <==> t in w.locks) && (t in w.locks ==> w'.locks[t] == w.locks[t]))
    && w'.now == w.now
  }

  predicate SamePeople(r: Request, r': Request) {
    r'.binding == r.binding && r'.source == r.source && r'.authorizer == r.authorizer && Later(r'.state)
  }

  lemma OthersKept(w: World, w': World, i: nat, j: nat)
    requires Inv(w) && Holder(w, i) && Touches(w, w', i) && j != i
    ensures ProcessOk(w', j)
  {
    assert ProcessOk(w, j) && ProcessOk(w, i) && OneReconciler(w, i, j);
    if Holder(w', j) {
      assert Holder(w, j);
      if TargetAt(w, i) == TargetAt(w, j) { Exclusive(w, i, j); }
      var t := TargetAt(w, j);
      assert TargetAt(w', j) == t;
      assert w'.locks[t] == w.locks[t];
    }
  }

  /** What remains to be shown of process i itself. */
  ghost predicate OwnKept(w: World, w': World, i: nat)
    requires Touches(w, w', i)
  {
    var id := w.processes[i].request;
    && ProcessOk(w', i)
    && LifeOk(w'.requests[id], w.now) && RunningIsLocked(w', id)
    && (Live(w', i) && Reconciles(w'.processes[i].pc) ==> Reconciles(w.processes[i].pc))
  }

  lemma TouchKeeps(w: World, w': World, i: nat)
    requires Inv(w) && Holder(w, i) && Touches(w, w', i) && OwnKept(w, w', i)
    ensures Inv(w')
  {
    forall j: nat ensures ProcessOk(w', j) {
      if j != i { OthersKept(w, w', i, j); }
    }
    forall j: nat, k: nat ensures OneReconciler(w', j, k) {
      assert OneReconciler(w, j, k);
    }
    forall id | id in w'.requests ensures RequestOk(w', id) {
      assert RequestOk(w, id);
      if id != w.processes[i].request { RunningKept(w, w', i, id); }
    }
  }

  /** The lock of another running request belongs to a process of that request, so its target is another one. */
  lemma RunningKept(w: World, w': World, i: nat, id: string)
    requires Inv(w) && Holder(w, i) && Touches(w, w', i) && id in w.requests && id != w.processes[i].request
    ensures RunningIsLocked(w', id)
  {
    assert ProcessOk(w, i) && RequestOk(w, id);
  }

  /** What the process, its request and its target keep through one command. */
  predicate CommandOk(p: Process, r: Request, e: Effect, now: int) {
    && e.process.request == p.request && e.process.admittedAt == p.admittedAt && e.process.alive == p.alive
    && e.process.actor == p.actor && !e.process.pc.Admitted?
    && SamePeople(r, e.request)
    && StateFits(e.request, e.process.pc)
    && HostFits(e.process, e.request.listener, e.host)
    && Cleared(e.process, e.request)
    && LifeOk(e.request, now)
    && (e.unlocks ==> e.process.pc.Gone? && (e.request.state.Running? ==> !e.request.sealed))
    && (!e.process.pc.Gone? ==> (Reconciles(e.process.pc) <==> Reconciles(p.pc)))
    && (e.writes ==> e.request.sealed) && (!e.writes ==> e.request.sealed == r.sealed)
  }

  /** A process at any point but admission, with everything it relies on. */
  predicate Ready(p: Process, r: Request, h: Host, now: int) {
    && !p.pc.Admitted? && StateFits(r, p.pc) && HostFits(p, r.listener, h) && Cleared(p, r)
    && p.admittedAt <= now && LifeOk(r, now)
  }

  lemma PreflightKeeps(p: Process, r: Request, h: Host, now: int, ok: bool, h': Host)
    requires Ready(p, r, h, now) && p.pc.Preflight?
    ensures CommandOk(p, r, Command(p, r, h, now, ok, h'), now)
  {
  }

  predicate Probes(op: Op) {
    op.CheckServices? || op.CheckStatus? || op.ProbeDatabase?
  }

  lemma FailedOpKeeps(p: Process, r: Request, h: Host, now: int, h': Host)
    requires Ready(p, r, h, now) && p.pc.At?
    ensures CommandOk(p, r, Command(p, r, h, now, false, h'), now)
  {
  }

  /** What is known of the services after an operation of each kind. */
  lemma EarlyHost(p: Process, r: Request, h: Host, now: int, h': Host)
    requires HostFits(p, r.listener, h) && p.pc.At? && !Probes(p.pc.op) && !ServicesProbed(p.pc.op)
    ensures var e := Command(p, r, h, now, true, h'); HostFits(e.process, e.request.listener, e.host)
  {
  }

  lemma ProbeHost(p: Process, r: Request, h: Host, now: int, h': Host)
    requires HostFits(p, r.listener, h) && p.pc.At? && Probes(p.pc.op)
    ensures var e := Command(p, r, h, now, true, h'); HostFits(e.process, e.request.listener, e.host)
  {
  }

  lemma LateHost(p: Process, r: Request, h: Host, now: int, h': Host)
    requires HostFits(p, r.listener, h) && p.pc.At? && ServicesProbed(p.pc.op)
    ensures var e := Command(p, r, h, now, true, h'); HostFits(e.process, e.request.listener, e.host)
  {
  }

  /** A successful operation moves on, and changes the request's state only when it completes it. */
  lemma OpMoves(p: Process, r: Request, h: Host, now: int, h': Host)
    requires p.pc.At? && StateFits(r, p.pc)
    ensures var e := Command(p, r, h, now, true, h');
      && e.process == p.(pc := e.process.pc) && (e.process.pc.At? || e.process.pc == Unlock(false))
      && e.request == r.(state := e.request.state, sealed := e.request.sealed, rootExists := e.request.rootExists)
      && (e.request.state == r.state || e.request.state.Completed?)
      && StateFits(e.request, e.process.pc) && !e.unlocks
      && (e.writes ==> e.request.sealed) && (!e.writes ==> e.request.sealed == r.sealed)
  {
  }

  lemma OpKeeps(p: Process, r: Request, h: Host, now: int, ok: bool, h': Host)
    requires Ready(p, r, h, now) && p.pc.At?
    ensures CommandOk(p, r, Command(p, r, h, now, ok, h'), now)
  {
    if !ok {
      FailedOpKeeps(p, r, h, now, h');
    } else {
      OpMoves(p, r, h, now, h');
      if Probes(p.pc.op) {
        ProbeHost(p, r, h, now, h');
      } else if ServicesProbed(p.pc.op) {
        LateHost(p, r, h, now, h');
      } else {
        EarlyHost(p, r, h, now, h');
      }
    }
  }

  lemma EndKeeps(p: Process, r: Request, h: Host, now: int, ok: bool, h': Host)
    requires Ready(p, r, h, now) && (p.pc.Blocking? || p.pc.Unlock?)
    ensures CommandOk(p, r, Command(p, r, h, now, ok, h'), now)
  {
  }

  lemma VerdictKeeps(p: Process, r: Request, h: Host, now: int, ok: bool, h': Host)
    requires Ready(p, r, h, now) && p.pc.Restoring? && p.pc.step.RVerdict?
    ensures CommandOk(p, r, Command(p, r, h, now, ok, h'), now)
  {
  }

  lemma RestoreKeeps(p: Process, r: Request, h: Host, now: int, ok: bool, h': Host)
    requires Ready(p, r, h, now) && p.pc.Restoring?
    ensures CommandOk(p, r, Command(p, r, h, now, ok, h'), now)
  {
    if p.pc.step.RVerdict? { VerdictKeeps(p, r, h, now, ok, h'); }
  }

  lemma CommandKeeps(p: Process, r: Request, h: Host, now: int, ok: bool, h': Host)
    requires Ready(p, r, h, now) && !p.pc.Gone?
    ensures CommandOk(p, r, Command(p, r, h, now, ok, h'), now)
  {
    match p.pc
    case Preflight => PreflightKeeps(p, r, h, now, ok, h');
    case At(_) => OpKeeps(p, r, h, now, ok, h');
    case Restoring(_, _) => RestoreKeeps(p, r, h, now, ok, h');
    case _ => EndKeeps(p, r, h, now, ok, h');
  }

  lemma ApplyTouches(w: World, i: nat, e: Effect)
    requires Runs(w, i)
    requires e.process.request == w.processes[i].request && SamePeople(w.requests[e.process.request], e.request)
    ensures Touches(w, Apply(w, i, e), i)
  {
  }

  /** A torn mark keeps the request running, except that the last one completes it. */
  lemma TornMark(p: Process, r: Request, h: Host, now: int)
    requires p.pc.At? && Marks(p.pc.op) && OpMay(p.pc.op, r.listener, h, true, h)
    ensures Torn(p, r, h, now) == r.(state := if p.pc.op.RecordCompleted? then Completed else r.state, sealed := false)
  {
  }

  /** A failing mark whose write is torn goes to its trap like any other failure. */
  lemma TornMarkKeeps(p: Process, r: Request, h: Host, now: int, h': Host)
    requires Ready(p, r, h, now) && p.pc.At? && Marks(p.pc.op)
    ensures Kept(p, r, Tearing(p, r, h, now, false, h', true), now)
  {
    FailedOpKeeps(p, r, h, now, h');
    TornMark(p, r, h, now);
  }

  lemma TearingKeeps(p: Process, r: Request, h: Host, now: int, ok: bool, h': Host, torn: bool)
    requires Ready(p, r, h, now) && !p.pc.Gone?
    ensures Kept(p, r, Tearing(p, r, h, now, ok, h', torn), now)
  {
    if !ok && torn && p.pc.At? && Marks(p.pc.op) {
      TornMarkKeeps(p, r, h, now, h');
    } else {
      CommandKeeps(p, r, h, now, ok, h');
    }
  }

  /** CommandOk without what it says of whole records. */
  predicate Kept(p: Process, r: Request, e: Effect, now: int) {
    && e.process.request == p.request && e.process.admittedAt == p.admittedAt && e.process.alive == p.alive
    && !e.process.pc.Admitted?
    && SamePeople(r, e.request)
    && StateFits(e.request, e.process.pc)
    && HostFits(e.process, e.request.listener, e.host)
    && Cleared(e.process, e.request)
    && LifeOk(e.request, now)
    && (e.unlocks ==> e.process.pc.Gone? && (e.request.state.Running? ==> !e.request.sealed))
    && (!e.process.pc.Gone? ==> (Reconciles(e.process.pc) <==> Reconciles(p.pc)))
  }

  lemma AppliedKeeps(w: World, i: nat, e: Effect)
    requires Inv(w) && Runs(w, i) && Holder(w, i) && Kept(w.processes[i], w.requests[w.processes[i].request], e, w.now)
    ensures Inv(Apply(w, i, e))
  {
    assert ProcessOk(w, i) && RequestOk(w, w.processes[i].request);
    ApplyTouches(w, i, e);
    AppliedHolds(w, i, e);
    TouchKeeps(w, Apply(w, i, e), i);
  }

  lemma AppliedHolds(w: World, i: nat, e: Effect)
    requires Runs(w, i) && Holder(w, i) && ProcessOk(w, i) && Touches(w, Apply(w, i, e), i)
    requires Kept(w.processes[i], w.requests[w.processes[i].request], e, w.now)
    ensures OwnKept(w, Apply(w, i, e), i)
  {
    var w' := Apply(w, i, e);
    var t := TargetAt(w, i);
    if !e.unlocks {
      assert w'.locks == w.locks && TargetAt(w', i) == t;
      if Reconciles(w.processes[i].pc) { assert w.locks[t] != i; }
    }
  }

  lemma HolderReady(w: World, i: nat)
    requires Inv(w) && Holder(w, i)
    ensures Runs(w, i) && Known(w, i)
    ensures Ready(w.processes[i], w.requests[w.processes[i].request], w.hosts[TargetAt(w, i)], w.now)
  {
    assert ProcessOk(w, i) && RequestOk(w, w.processes[i].request);
  }

  lemma ProceedKeeps(w: World, i: nat, ok: bool, h': Host, torn: bool)
    requires Inv(w) && Holder(w, i)
    ensures Runs(w, i) && Inv(Proceed(w, i, ok, h', torn))
  {
    HolderReady(w, i);
    var p := w.processes[i];
    var r := w.requests[p.request];
    TearingKeeps(p, r, w.hosts[TargetAt(w, i)], w.now, ok, h', torn);
    AppliedKeeps(w, i, Tearing(p, r, w.hosts[TargetAt(w, i)], w.now, ok, h', torn));
  }

  // ---- taking the lock ----

  /** Only process i, which held nothing, changes, and possibly takes a free lock. */
  ghost predicate Enters(w: World, w': World, i: nat) {
    && Live(w, i) && w.processes[i].pc.Admitted? && Known(w, i)
    && (w' == SetProcess(w, i, w.processes[i].(pc := Gone))
        || w' == SetProcess(w, i, w.processes[i].(alive := false))
        || (TargetAt(w, i) !in w.locks
            && w' == SetProcess(w, i, w.processes[i].(pc := Preflight)).(locks := w.locks[TargetAt(w, i) := i])))
  }

  lemma EnterProcess(w: World, w': World, i: nat, j: nat)
    requires Inv(w) && Enters(w, w', i)
    ensures ProcessOk(w', j)
  {
    assert ProcessOk(w, j) && ProcessOk(w, i) && RequestOk(w, w.processes[i].request);
  }

  lemma EnterKeeps(w: World, w': World, i: nat)
    requires Inv(w) && Enters(w, w', i)
    ensures Inv(w')
  {
    forall j: nat ensures ProcessOk(w', j) { EnterProcess(w, w', i, j); }
    forall j: nat, k: nat ensures OneReconciler(w', j, k) { assert OneReconciler(w, j, k); }
    forall id | id in w'.requests ensures RequestOk(w', id) { assert RequestOk(w, id); }
  }

  // ---- the other steps of processes ----

  /** The record another writer of the request could be left with. */
  lemma TornKeeps(p: Process, r: Request, h: Host, now: int)
    requires Ready(p, r, h, now) && !p.pc.Gone?
    ensures SamePeople(r, Torn(p, r, h, now)) && LifeOk(Torn(p, r, h, now), now)
    ensures Torn(p, r, h, now) == r || !Torn(p, r, h, now).sealed
  {
    CommandKeeps(p, r, h, now, true, h);
  }

  /** A holder that dies keeps its lock. */
  lemma DeathKeeps(w: World, i: nat, r': Request)
    requires Inv(w) && Holder(w, i) && Known(w, i)
    requires var r := w.requests[w.processes[i].request]; r' == r || (SamePeople(r, r') && LifeOk(r', w.now) && !r'.sealed)
    ensures Inv(SetRequest(SetProcess(w, i, w.processes[i].(alive := false)), w.processes[i].request, r'))
  {
    assert ProcessOk(w, i) && RequestOk(w, w.processes[i].request);
    var w' := SetRequest(SetProcess(w, i, w.processes[i].(alive := false)), w.processes[i].request, r');
    TouchKeeps(w, w', i);
  }

  lemma KillKeeps(w: World, i: nat, torn: bool)
    requires Inv(w)
    ensures Inv(KillProcess(w, i, torn))
  {
    var w' := KillProcess(w, i, torn);
    if Holder(w, i) {
      HolderReady(w, i);
      var p := w.processes[i];
      var r := w.requests[p.request];
      var h := w.hosts[TargetAt(w, i)];
      TornKeeps(p, r, h, w.now);
      DeathKeeps(w, i, if torn then Torn(p, r, h, w.now) else r);
      assert w.requests[p.request := r] == w.requests;
    } else if Live(w, i) {
      assert ProcessOk(w, i);
      var p := w.processes[i];
      assert w.requests[p.request := w.requests[p.request]] == w.requests;
      EnterKeeps(w, w', i);
    } else {
      GoneKillKeeps(w, i, torn);
    }
  }

  lemma GoneKillKeeps(w: World, i: nat, torn: bool)
    requires Inv(w) && !Live(w, i)
    ensures Inv(KillProcess(w, i, torn))
  {
    var w' := KillProcess(w, i, torn);
    assert w'.requests == w.requests;
    forall j: nat ensures ProcessOk(w', j) { assert ProcessOk(w, j); }
    forall j: nat, k: nat ensures OneReconciler(w', j, k) { assert OneReconciler(w, j, k); }
    forall id | id in w'.requests ensures RequestOk(w', id) { assert RequestOk(w, id); }
  }

  /** The one step that is not durable: a trap gives up the lock of a request whose whole record still says running. */
  predicate Abandons(w: World, step: Step) {
    && step.LoseRecord? && Runs(w, step.process)
    && var p := w.processes[step.process];
       var r := w.requests[p.request];
       && MayLose(p, r, w.hosts[TargetOf(r.binding)], w.now) && r.state.Running? && r.sealed
       && (p.pc.At? || !step.torn)
  }

  lemma LossKeeps(w: World, i: nat, torn: bool)
    requires Inv(w) && !Abandons(w, LoseRecord(i, torn))
    ensures Inv(LoseTheRecord(w, i, torn))
  {
    var w' := LoseTheRecord(w, i, torn);
    if w' != w {
      assert Holder(w, i);
      HolderReady(w, i);
      var p := w.processes[i];
      var r := w.requests[p.request];
      var h := w.hosts[TargetAt(w, i)];
      LossFits(p, r, h, w.now, torn);
      var r' := if torn then Torn(p, r, h, w.now) else r;
      var e := Effect(p.(pc := Unlock(false)), r', h, false, false);
      AppliedKeeps(w, i, e);
      assert w.hosts[TargetAt(w, i) := h] == w.hosts;
    }
  }

  lemma LossFits(p: Process, r: Request, h: Host, now: int, torn: bool)
    requires Ready(p, r, h, now) && MayLose(p, r, h, now)
    requires !torn || p.pc.At? ==> (r.state.Running? ==> !r.sealed)
    ensures Kept(p, r, Effect(p.(pc := Unlock(false)), if torn then Torn(p, r, h, now) else r, h, false, false), now)
  {
  }

  // ---- people ----

  /** A command of a person changes one request, which no process is working on yet. */
  predicate Edits(w: World, w': World, id: string, r: Request) {
    && w' == SetRequest(w, id, r)
    && LifeOk(r, w.now) && !r.state.Running?
    && (id in w.requests ==> r.binding == w.requests[id].binding && !Later(w.requests[id].state))
  }

  lemma EditKeeps(w: World, w': World, id: string, r: Request)
    requires Inv(w) && Edits(w, w', id, r)
    ensures Inv(w')
  {
    forall j: nat ensures ProcessOk(w', j) { assert ProcessOk(w, j); }
    forall j: nat, k: nat ensures OneReconciler(w', j, k) { assert OneReconciler(w, j, k); }
    forall x | x in w'.requests ensures RequestOk(w', x) {
      if x in w.requests { assert RequestOk(w, x); }
    }
  }

  lemma EditsKeep(w: World, step: Step)
    requires Inv(w) && (step.Create? || step.Approve? || step.Authorize?)
    ensures Inv(Next(w, step))
  {
    var w' := Next(w, step);
    if w' != w {
      if step.id in w.requests { assert RequestOk(w, step.id); }
      EditKeeps(w, w', step.id, w'.requests[step.id]);
    }
  }

  /** A new process joins without disturbing the others. */
  lemma JoinKeeps(w: World, p: Process)
    requires Inv(w) && p.request in w.requests
    requires ProcessOk(w.(processes := w.processes + [p]), |w.processes|)
    requires forall j: nat :: j != |w.processes| ==>
      var w' := w.(processes := w.processes + [p]);
      OneReconciler(w', j, |w.processes|) && OneReconciler(w', |w.processes|, j)
    ensures Inv(w.(processes := w.processes + [p]))
  {
    var n := |w.processes|;
    var w' := w.(processes := w.processes + [p]);
    forall j: nat ensures ProcessOk(w', j) {
      assert ProcessOk(w, j);
      if j < n && Live(w, j) { assert Known(w, j) && TargetAt(w', j) == TargetAt(w, j); }
    }
    forall j: nat, k: nat ensures OneReconciler(w', j, k) {
      if j != n && k != n { assert OneReconciler(w, j, k); }
    }
    forall id | id in w'.requests ensures RequestOk(w', id) { assert RequestOk(w, id); }
  }

  lemma ExecuteKeeps(w: World, id: string, actor: string)
    requires Inv(w)
    ensures Inv(BeginExecution(w, id, actor))
  {
    var w' := BeginExecution(w, id, actor);
    if w' != w {
      JoinKeeps(w, w'.processes[|w.processes|]);
    }
  }

  lemma ReconcileKeeps(w: World, id: string, actor: string)
    requires Inv(w)
    ensures Inv(BeginReconciliation(w, id, actor))
  {
    var w' := BeginReconciliation(w, id, actor);
    if w' != w {
      var n := |w.processes|;
      assert RequestOk(w, id);
      forall j: nat | j != n ensures OneReconciler(w', j, n) && OneReconciler(w', n, j) {
        assert ProcessOk(w, j);
      }
      JoinKeeps(w, w'.processes[n]);
    }
  }

  lemma TickKeeps(w: World, elapsed: nat)
    requires Inv(w)
    ensures Inv(w.(now := w.now + elapsed))
  {
    var w' := w.(now := w.now + elapsed);
    forall j: nat ensures ProcessOk(w', j) { assert ProcessOk(w, j); }
    forall j: nat, k: nat ensures OneReconciler(w', j, k) { assert OneReconciler(w, j, k); }
    forall id | id in w'.requests ensures RequestOk(w', id) { assert RequestOk(w, id); }
  }

  // ---- every durable step, every durable run ----

  lemma GoKeeps(w: World, i: nat, ok: bool, h': Host, torn: bool)
    requires Inv(w) && Runs(w, i)
    ensures Inv(Proceed(w, i, ok, h', torn))
  {
    assert ProcessOk(w, i);
    if w.processes[i].pc.Admitted? {
      EnterKeeps(w, Proceed(w, i, ok, h', torn), i);
    } else {
      ProceedKeeps(w, i, ok, h', torn);
    }
  }

  lemma StepKeeps(w: World, step: Step)
    requires Inv(w) && !Abandons(w, step)
    ensures Inv(Next(w, step))
  {
    match step
    case Tick(elapsed) => TickKeeps(w, elapsed);
    case Create(_, _) => EditsKeep(w, step);
    case Approve(_, _) => EditsKeep(w, step);
    case Authorize(_, _) => EditsKeep(w, step);
    case Execute(id, actor) => ExecuteKeeps(w, id, actor);
    case Reconcile(id, actor) => ReconcileKeeps(w, id, actor);
    case Go(i, ok, host, torn) => if Runs(w, i) { GoKeeps(w, i, ok, host, torn); }
    case Kill(i, torn) => KillKeeps(w, i, torn);
    case LoseRecord(i, torn) => LossKeeps(w, i, torn);
  }

  predicate Durable(w: World, steps: seq<Step>)
    decreases |steps|
  {
    |steps| > 0 ==> Durable(w, steps[..|steps| - 1]) && !Abandons(Run(w, steps[..|steps| - 1]), steps[|steps| - 1])
  }

  lemma {:induction false} RunKeeps(w: World, steps: seq<Step>)
    requires Inv(w) && Durable(w, steps)
    ensures Inv(Run(w, steps))
    decreases |steps|
  {
    if |steps| == 0 {
    } else {
      RunKeeps(w, steps[..|steps| - 1]);
      StepKeeps(Run(w, steps[..|steps| - 1]), steps[|steps| - 1]);
    }
  }

  lemma {:induction false} Reachable(hosts: map<Target, Host>, now: int, steps: seq<Step>)
    requires Durable(Initial(hosts, now), steps)
    ensures Inv(Run(Initial(hosts, now), steps))
  {
    RunKeeps(Initial(hosts, now), steps);
  }

  lemma {:induction false} RunConcat(w: World, a: seq<Step>, b: seq<Step>)
    ensures Run(w, a + b) == Run(Run(w, a), b)
    decreases |b|
  {
    if |b| == 0 {
      assert a + b == a;
    } else {
      RunConcat(w, a, b[..|b| - 1]);
      assert (a + b)[..|a + b| - 1] == a + b[..|b| - 1];
    }
  }

  lemma Extend(w: World, steps: seq<Step>, step: Step)
    ensures Run(w, steps + [step]) == Next(Run(w, steps), step)
  {
    assert (steps + [step])[..|steps|] == steps;
  }

  lemma RunThree(w: World, a: Step, b: Step, c: Step)
    ensures Run(w, [a, b, c]) == Next(Next(Next(w, a), b), c)
  {
    Extend(w, [], a);
    Extend(w, [a], b);
    Extend(w, [a, b], c);
    assert [] + [a] == [a] && [a] + [b] == [a, b] && [a, b] + [c] == [a, b, c];
  }

  lemma RunAfter(w: World, step: Step, steps: seq<Step>)
    ensures Run(w, [step] + steps) == Run(Next(w, step), steps)
  {
    RunConcat(w, [step], steps);
    Extend(w, [], step);
    assert [] + [step] == [step];
  }

  /** No step of the run is a lost record. */
  predicate Lossless(steps: seq<Step>) {
    forall k | 0 <= k < |steps| :: !steps[k].LoseRecord?
  }

  lemma {:induction false} LosslessIsDurable(w: World, steps: seq<Step>)
    requires Lossless(steps)
    ensures Durable(w, steps)
    decreases |steps|
  {
    if |steps| > 0 { LosslessIsDurable(w, steps[..|steps| - 1]); }
  }
}
