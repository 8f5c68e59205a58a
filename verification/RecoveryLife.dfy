/** The life of a recovery request: how its state advances, when its record passes its own seal, and what is known of
  * the people and the times in it. */
module RecoveryLife {
  import opened Text
  import opened RecoveryPrep
  import opened RecoverySafety
  import opened RecoveryTheorems

  // ---- states advance ----

  /** A state is only ever left for a later one; so no command leaves a final state. */
  predicate Advances(w: World, w': World, id: string)
    requires id in w.requests
  {
    && id in w'.requests
    && w'.requests[id].source == w.requests[id].source
    && (w.requests[id].state == w'.requests[id].state || Rank(w.requests[id].state) < Rank(w'.requests[id].state))
  }

  /** An execution gets the lock of its target after its request, since its admission, has come to a final state, and its
    * preflight will pass: the backup root is still missing and the services are up. */
  predicate LocksLate(w: World, step: Step) {
    && step.Go? && step.ok && Runs(w, step.process) && w.processes[step.process].pc.Admitted?
    && var r := w.requests[w.processes[step.process].request];
       TargetOf(r.binding) !in w.locks && Terminal(r.state) && PreflightPasses(r, w.hosts[TargetOf(r.binding)])
  }

  /** A preflight in progress will not restart a finished request. */
  predicate Punctual(w: World, i: nat) {
    Live(w, i) && Known(w, i) && w.processes[i].pc.Preflight? ==>
      var r := w.requests[w.processes[i].request]; Terminal(r.state) ==> !PreflightPasses(r, w.hosts[TargetOf(r.binding)])
  }

  ghost predicate AllPunctual(w: World) {
    forall i: nat :: Punctual(w, i)
  }

  /** How a command moves the state of its request. */
  predicate Turns(p: Process, r: Request, h: Host, r': Request) {
    || r'.state == r.state
    || (p.pc.Preflight? && r'.state.Running? && PreflightPasses(r, h))
    || (r.state.Running? && Terminal(r'.state))
  }

  lemma CommandTurns(p: Process, r: Request, h: Host, now: int, ok: bool, h': Host, torn: bool)
    requires StateFits(r, p.pc)
    ensures Turns(p, r, h, Tearing(p, r, h, now, ok, h', torn).request) && Turns(p, r, h, Torn(p, r, h, now))
  {
  }

  lemma ActorTurns(w: World, step: Step, i: nat)
    requires ActorOf(step) == Some(i) && Runs(w, i) && StateFits(w.requests[w.processes[i].request], w.processes[i].pc)
    ensures var id := w.processes[i].request;
      id in Next(w, step).requests
      && Turns(w.processes[i], w.requests[id], w.hosts[TargetOf(w.requests[id].binding)], Next(w, step).requests[id])
  {
    var p := w.processes[i];
    var r := w.requests[p.request];
    var h := w.hosts[TargetOf(r.binding)];
    if step.Go? {
      CommandTurns(p, r, h, w.now, step.ok, step.host, step.torn);
    } else {
      CommandTurns(p, r, h, w.now, true, h, false);
    }
  }

  lemma IdleActor(w: World, step: Step, i: nat)
    requires ActorOf(step) == Some(i) && !Runs(w, i)
    ensures Next(w, step).requests == w.requests
  {
  }

  lemma AdvancesStep(w: World, step: Step, id: string)
    requires Inv(w) && AllPunctual(w) && id in w.requests
    ensures Advances(w, Next(w, step), id)
  {
    if ActorOf(step).None? {
      OthersLetAlone(w, step);
    } else {
      var i := ActorOf(step).value;
      if Runs(w, i) {
        assert ProcessOk(w, i) && Punctual(w, i);
        ActorActsAlone(w, step, i);
        ActorTurns(w, step, i);
      } else {
        IdleActor(w, step, i);
      }
    }
  }

  /** Between its lock and its start, nobody else moves the request of a process. */
  lemma PunctualOther(w: World, step: Step, i: nat, j: nat)
    requires Inv(w) && Punctual(w, j) && ActorOf(step) == Some(i) && i != j && i < |w.processes|
    ensures Punctual(Next(w, step), j)
  {
    assert ProcessOk(w, j) && ProcessOk(w, i) && OneReconciler(w, i, j);
    ActorActsAlone(w, step, i);
    if Live(w, j) && w.processes[j].pc.Preflight? {
      if Runs(w, i) && !w.processes[i].pc.Admitted? {
        ElsewhereHost(w, step, i, TargetAt(w, j));
      } else {
        AdmittedWritesNothing(w, step, i);
      }
    }
  }

  lemma PunctualOwn(w: World, step: Step, i: nat)
    requires Inv(w) && Punctual(w, i) && ActorOf(step) == Some(i) && i < |w.processes| && !LocksLate(w, step)
    ensures Punctual(Next(w, step), i)
  {
    assert ProcessOk(w, i);
    ActorActsAlone(w, step, i);
    if Runs(w, i) { ActorTurns(w, step, i); } else { IdleActor(w, step, i); }
  }

  lemma PunctualStep(w: World, step: Step)
    requires Inv(w) && AllPunctual(w) && !LocksLate(w, step)
    ensures AllPunctual(Next(w, step))
  {
    forall j: nat ensures Punctual(Next(w, step), j) {
      assert Punctual(w, j) && ProcessOk(w, j);
      if ActorOf(step).None? {
        OthersLetAlone(w, step);
      } else if ActorOf(step).value < |w.processes| {
        if ActorOf(step).value == j { PunctualOwn(w, step, j); } else { PunctualOther(w, step, ActorOf(step).value, j); }
      }
    }
  }

  /** No execution of the run gets its lock late. */
  predicate NeverLate(w: World, steps: seq<Step>)
    decreases |steps|
  {
    |steps| > 0 ==> NeverLate(w, steps[..|steps| - 1]) && !LocksLate(Run(w, steps[..|steps| - 1]), steps[|steps| - 1])
  }

  lemma {:induction false} PunctualRun(w: World, steps: seq<Step>)
    requires Inv(w) && AllPunctual(w) && Durable(w, steps) && NeverLate(w, steps)
    ensures Inv(Run(w, steps)) && AllPunctual(Run(w, steps))
    decreases |steps|
  {
    if |steps| == 0 {
    } else {
      PunctualRun(w, steps[..|steps| - 1]);
      StepKeeps(Run(w, steps[..|steps| - 1]), steps[|steps| - 1]);
      PunctualStep(Run(w, steps[..|steps| - 1]), steps[|steps| - 1]);
    }
  }

  /** Over any run in which no execution gets its lock late, states only advance. */
  lemma {:induction false} StatesAdvance(hosts: map<Target, Host>, now: int, before: seq<Step>, steps: seq<Step>, id: string)
    requires Durable(Initial(hosts, now), before) && NeverLate(Initial(hosts, now), before)
    requires var w := Run(Initial(hosts, now), before);
      id in w.requests && Durable(w, steps) && NeverLate(w, steps)
    ensures var w := Run(Initial(hosts, now), before);
      Advances(w, Run(w, steps), id)
    decreases |steps|
  {
    var w := Run(Initial(hosts, now), before);
    if |steps| == 0 {
    } else {
      PunctualRun(Initial(hosts, now), before);
      StatesAdvance(hosts, now, before, steps[..|steps| - 1], id);
      PunctualRun(w, steps[..|steps| - 1]);
      AdvancesStep(Run(w, steps[..|steps| - 1]), steps[|steps| - 1], id);
    }
  }

  /** And the condition is exact: an execution that gets its lock late leaves the final state with its preflight. */
  lemma LateLockRestarts(w: World, i: nat, h: Host)
    requires LocksLate(w, Go(i, true, h, false))
    ensures var id := w.processes[i].request;
      var w' := Next(Next(w, Go(i, true, h, false)), Go(i, true, h, false));
      && id in w'.requests && Terminal(w.requests[id].state) && w'.requests[id].state.Running? && !Advances(w, w', id)
  {
    var w1 := Next(w, Go(i, true, h, false));
    assert Runs(w1, i) && w1.requests == w.requests && w1.hosts == w.hosts;
  }

  lemma CompletedStep(w: World, step: Step, id: string)
    requires Inv(w) && id in w.requests && w.requests[id].state.Completed?
    ensures id in Next(w, step).requests && Next(w, step).requests[id].state.Completed?
  {
    if ActorOf(step).None? {
      OthersLetAlone(w, step);
    } else {
      var i := ActorOf(step).value;
      if Runs(w, i) {
        assert ProcessOk(w, i) && RequestOk(w, id);
        ActorActsAlone(w, step, i);
        ActorTurns(w, step, i);
      } else {
        IdleActor(w, step, i);
      }
    }
  }

  /** A completed request stays completed over every durable run, late locks or not. */
  lemma {:induction false} CompletedIsFinal(w: World, steps: seq<Step>, id: string)
    requires Inv(w) && Durable(w, steps) && id in w.requests && w.requests[id].state.Completed?
    ensures id in Run(w, steps).requests && Run(w, steps).requests[id].state.Completed?
    decreases |steps|
  {
    if |steps| > 0 {
      CompletedIsFinal(w, steps[..|steps| - 1], id);
      RunKeeps(w, steps[..|steps| - 1]);
      CompletedStep(Run(w, steps[..|steps| - 1]), steps[|steps| - 1], id);
    }
  }

  // ---- the seal of the record ----

  /** Whether a step writes the record, and if so, as a whole. */
  function Wrote(w: World, step: Step, id: string): Option<bool> {
    match step
    case Create(x, _) => if x == id && Next(w, step) != w then Some(true) else None
    case Approve(x, _) => if x == id && Next(w, step) != w then Some(true) else None
    case Authorize(x, _) => if x == id && Next(w, step) != w then Some(true) else None
    case Go(i, ok, h', torn) =>
      if !Runs(w, i) || w.processes[i].request != id then None
      else
        var p, r := w.processes[i], w.requests[id];
        var h := w.hosts[TargetOf(r.binding)];
        if Command(p, r, h, w.now, ok, h').writes then Some(true)
        else if !ok && torn && p.pc.At? && Marks(p.pc.op) && Command(p, r, h, w.now, ok, h').process != p then Some(false)
        else None
    case Kill(i, torn) =>
      if !torn || !Runs(w, i) || w.processes[i].request != id then None
      else
        var r := w.requests[id];
        var h := w.hosts[TargetOf(r.binding)];
        if Command(w.processes[i], r, h, w.now, true, h).writes then Some(false) else None
    case LoseRecord(i, torn) =>
      if !torn || !Runs(w, i) || w.processes[i].request != id then None
      else
        var r := w.requests[id];
        var h := w.hosts[TargetOf(r.binding)];
        if MayLose(w.processes[i], r, h, w.now) && Command(w.processes[i], r, h, w.now, true, h).writes then Some(false) else None
    case _ => None
  }

  /** The last write of the record was whole; a request that was there before counts as it was. */
  predicate LastWriteWhole(w: World, steps: seq<Step>, id: string)
    decreases |steps|
  {
    if |steps| == 0 then id in w.requests && w.requests[id].sealed
    else match Wrote(Run(w, steps[..|steps| - 1]), steps[|steps| - 1], id)
      case Some(whole) => whole
      case None => LastWriteWhole(w, steps[..|steps| - 1], id)
  }

  lemma CommandSeals(p: Process, r: Request, h: Host, now: int, ok: bool, h': Host)
    ensures var e := Command(p, r, h, now, ok, h'); e.request.sealed <==> e.writes || r.sealed
  {
  }

  lemma MarkTears(p: Process, r: Request, h: Host, now: int, h': Host)
    requires p.pc.At? && Marks(p.pc.op)
    ensures !Torn(p, r, h, now).sealed
  {
  }

  lemma GoSeals(w: World, i: nat, ok: bool, h': Host, torn: bool)
    requires Runs(w, i)
    ensures var id := w.processes[i].request; var w' := Proceed(w, i, ok, h', torn);
      && w'.requests.Keys == w.requests.Keys
      && (w'.requests[id].sealed <==> match Wrote(w, Go(i, ok, h', torn), id) case Some(whole) => whole case None => w.requests[id].sealed)
      && forall x | x in w.requests && x != id :: w'.requests[x] == w.requests[x]
  {
    var p := w.processes[i];
    var r := w.requests[p.request];
    var h := w.hosts[TargetOf(r.binding)];
    CommandSeals(p, r, h, w.now, ok, h');
    if p.pc.At? && Marks(p.pc.op) { MarkTears(p, r, h, w.now, h'); }
  }

  lemma KillSeals(w: World, i: nat, torn: bool, id: string)
    requires id in w.requests
    ensures var w' := KillProcess(w, i, torn);
      && w'.requests.Keys == w.requests.Keys
      && (w'.requests[id].sealed <==> match Wrote(w, Kill(i, torn), id) case Some(whole) => whole case None => w.requests[id].sealed)
  {
  }

  lemma LossSeals(w: World, i: nat, torn: bool, id: string)
    requires id in w.requests
    ensures var w' := LoseTheRecord(w, i, torn);
      && w'.requests.Keys == w.requests.Keys
      && (w'.requests[id].sealed <==> match Wrote(w, LoseRecord(i, torn), id) case Some(whole) => whole case None => w.requests[id].sealed)
  {
  }

  lemma SealStep(w: World, step: Step, id: string)
    requires id in Next(w, step).requests
    ensures Next(w, step).requests[id].sealed <==>
      match Wrote(w, step, id) case Some(whole) => whole case None => id in w.requests && w.requests[id].sealed
  {
    if step.Go? && Runs(w, step.process) {
      GoSeals(w, step.process, step.ok, step.host, step.torn);
    } else if step.Kill? && id in w.requests {
      KillSeals(w, step.process, step.torn, id);
    } else if step.LoseRecord? && id in w.requests {
      LossSeals(w, step.process, step.torn, id);
    }
  }

  /** Over any run, a record passes its own seal exactly if its last write was whole. */
  lemma {:induction false} SealedIffWhole(w: World, steps: seq<Step>, id: string)
    requires id in Run(w, steps).requests
    ensures Run(w, steps).requests[id].sealed <==> LastWriteWhole(w, steps, id)
    decreases |steps|
  {
    if |steps| == 0 {
    } else {
      var before := Run(w, steps[..|steps| - 1]);
      SealStep(before, steps[|steps| - 1], id);
      if id in before.requests {
        SealedIffWhole(w, steps[..|steps| - 1], id);
      } else {
        NewRequest(before, steps[|steps| - 1], id);
      }
    }
  }

  lemma NewRequest(w: World, step: Step, id: string)
    requires id !in w.requests && id in Next(w, step).requests
    ensures Wrote(w, step, id) == Some(true)
  {
  }

  // ---- duties and windows ----

  /** A request that runs or has run was asked for, approved and authorized by three people, is executed by its
    * authorizer, was admitted inside its window against its immutable source, and passes its own seal exactly if its
    * last write was whole. */
  lemma DutiesAreSeparated(hosts: map<Target, Host>, now: int, steps: seq<Step>, id: string)
    requires Durable(Initial(hosts, now), steps) && id in Run(Initial(hosts, now), steps).requests
    requires Rank(Run(Initial(hosts, now), steps).requests[id].state) >= 3
    ensures var r := Run(Initial(hosts, now), steps).requests[id];
      && r.approver.Some? && r.authorizer.Some? && r.executor == r.authorizer
      && r.binding.requester != r.approver.value && r.binding.requester != r.authorizer.value && r.approver != r.authorizer
      && r.binding == r.source && r.source.windowStart < r.source.windowEnd <= r.source.windowStart + 86400
      && r.admittedAt.Some? && WindowOpen(r.source, r.admittedAt.value)
      && r.startedAt.Some? && r.admittedAt.value <= r.startedAt.value
      && (WindowOpen(r.source, r.startedAt.value) <==> r.startedAt.value <= r.source.windowEnd)
      && (r.sealed <==> LastWriteWhole(Initial(hosts, now), steps, id))
  {
    Reachable(hosts, now, steps);
    assert RequestOk(Run(Initial(hosts, now), steps), id);
    SealedIffWhole(Initial(hosts, now), steps, id);
  }

  /** The window is checked before the lock and the preflight, so a request is recorded as started inside its window
    * exactly when the window is still open once the preflight is done. */
  lemma StartedInsideWindow(w: World, i: nat, h': Host)
    requires Inv(w) && Runs(w, i) && w.processes[i].pc.Preflight?
    requires Proceed(w, i, true, h', false).processes[i].pc == At(MakeRoot)
    ensures var r := Proceed(w, i, true, h', false).requests[w.processes[i].request];
      r.startedAt == Some(w.now) && (WindowOpen(r.binding, r.startedAt.value) <==> w.now <= r.binding.windowEnd)
  {
    assert ProcessOk(w, i);
  }
}
