/** What must have happened for a recovery request to be where it is: who approved, authorized and executed it, in which
  * state and at what time, and what a start finds. */
module RecoveryHistory {
  import opened Text
  import opened RecoveryPrep
  import opened RecoverySafety
  import opened RecoveryTheorems

  /** The request is recorded, whole, and in the given state. */
  predicate Stood(w: World, id: string, state: State) {
    Loads(w, id) && w.requests[id].state == state
  }

  /** The request was approved by somebody other than its requester, while it awaited that. */
  predicate ApprovedBy(w0: World, steps: seq<Step>, id: string, actor: string) {
    exists k: nat | k < |steps| :: steps[k] == Approve(id, actor) && Stood(Run(w0, steps[..k]), id, AwaitingApproval)
      && actor != Run(w0, steps[..k]).requests[id].binding.requester
  }

  /** It was authorized, once approved and while its window was open, by somebody other than requester and approver. */
  predicate AuthorizedBy(w0: World, steps: seq<Step>, id: string, actor: string) {
    exists k: nat | k < |steps| :: steps[k] == Authorize(id, actor) && Stood(Run(w0, steps[..k]), id, Approved)
      && var v := Run(w0, steps[..k]);
         && actor != v.requests[id].binding.requester && Some(actor) != v.requests[id].approver
         && WindowOpen(v.requests[id].binding, v.now)
  }

  /** Its execution was admitted for its authorizer, once authorized and while its window was open. */
  predicate AdmittedFor(w0: World, steps: seq<Step>, id: string, actor: string, at: int) {
    exists k: nat | k < |steps| :: steps[k] == Execute(id, actor) && Stood(Run(w0, steps[..k]), id, Authorized)
      && var v := Run(w0, steps[..k]);
         v.requests[id].authorizer == Some(actor) && v.now == at && WindowOpen(v.requests[id].binding, at)
  }

  /** What the fields of a record say about the past. */
  predicate PastOf(w0: World, steps: seq<Step>, id: string, r: Request) {
    && (r.approver.Some? ==> ApprovedBy(w0, steps, id, r.approver.value))
    && (r.authorizer.Some? ==> AuthorizedBy(w0, steps, id, r.authorizer.value))
    && (r.executor.Some? ==> r.admittedAt.Some? && AdmittedFor(w0, steps, id, r.executor.value, r.admittedAt.value))
  }

  /** An execution was admitted. */
  predicate PastOfProcess(w0: World, steps: seq<Step>, p: Process) {
    p.pc.Admitted? || p.pc.Preflight? ==> AdmittedFor(w0, steps, p.request, p.actor, p.admittedAt)
  }

  lemma PastStays(w0: World, steps: seq<Step>, step: Step, id: string, actor: string, at: int)
    ensures ApprovedBy(w0, steps, id, actor) ==> ApprovedBy(w0, steps + [step], id, actor)
    ensures AuthorizedBy(w0, steps, id, actor) ==> AuthorizedBy(w0, steps + [step], id, actor)
    ensures AdmittedFor(w0, steps, id, actor, at) ==> AdmittedFor(w0, steps + [step], id, actor, at)
  {
    var more := steps + [step];
    assert forall k: nat | k < |steps| :: more[..k] == steps[..k] && more[k] == steps[k];
  }

  lemma NowApproved(w0: World, steps: seq<Step>, id: string, actor: string)
    requires var w := Run(w0, steps); Next(w, Approve(id, actor)) != w
    ensures ApprovedBy(w0, steps + [Approve(id, actor)], id, actor)
  {
    var more := steps + [Approve(id, actor)];
    assert more[..|steps|] == steps && more[|steps|] == Approve(id, actor);
  }

  lemma NowAuthorized(w0: World, steps: seq<Step>, id: string, actor: string)
    requires var w := Run(w0, steps); Next(w, Authorize(id, actor)) != w
    ensures AuthorizedBy(w0, steps + [Authorize(id, actor)], id, actor)
  {
    var more := steps + [Authorize(id, actor)];
    assert more[..|steps|] == steps && more[|steps|] == Authorize(id, actor);
  }

  lemma NowAdmitted(w0: World, steps: seq<Step>, id: string, actor: string)
    requires var w := Run(w0, steps); Next(w, Execute(id, actor)) != w
    ensures AdmittedFor(w0, steps + [Execute(id, actor)], id, actor, Run(w0, steps).now)
  {
    var more := steps + [Execute(id, actor)];
    assert more[..|steps|] == steps && more[|steps|] == Execute(id, actor);
  }

  // ---- how the fields come to be set ----

  /** What a process writes about people and times: nothing, or its own admission. */
  predicate OwnAdmission(p: Process, r: Request, r': Request) {
    && r'.approver == r.approver && r'.authorizer == r.authorizer
    && ((r'.executor == r.executor && r'.admittedAt == r.admittedAt)
        || (p.pc.Preflight? && r'.executor == Some(p.actor) && r'.admittedAt == Some(p.admittedAt)))
  }

  lemma CommandAdmission(p: Process, r: Request, h: Host, now: int, ok: bool, h': Host, torn: bool)
    ensures OwnAdmission(p, r, Tearing(p, r, h, now, ok, h', torn).request) && OwnAdmission(p, r, Torn(p, r, h, now))
  {
  }

  lemma ActorAdmission(w: World, step: Step, i: nat, id: string)
    requires ActorOf(step) == Some(i) && id in w.requests
    ensures id in Next(w, step).requests
    ensures Next(w, step).requests[id] == w.requests[id]
      || (i < |w.processes| && w.processes[i].request == id && OwnAdmission(w.processes[i], w.requests[id], Next(w, step).requests[id]))
  {
    if i < |w.processes| && w.processes[i].request == id && Runs(w, i) {
      var h := w.hosts[TargetOf(w.requests[id].binding)];
      if step.Go? {
        CommandAdmission(w.processes[i], w.requests[id], h, w.now, step.ok, step.host, step.torn);
      } else {
        CommandAdmission(w.processes[i], w.requests[id], h, w.now, true, h, false);
      }
    }
  }

  /** How a step changes a record that it does not create. */
  lemma PeopleChange(w: World, step: Step, id: string)
    requires ActorOf(step).None? && id in w.requests
    ensures id in Next(w, step).requests
    ensures var r, r' := w.requests[id], Next(w, step).requests[id];
      && r'.executor == r.executor && r'.admittedAt == r.admittedAt
      && (r'.approver == r.approver || (step.Approve? && step.id == id && r'.approver == Some(step.actor) && Next(w, step) != w))
      && (r'.authorizer == r.authorizer || (step.Authorize? && step.id == id && r'.authorizer == Some(step.actor) && Next(w, step) != w))
  {
  }

  lemma Created(w: World, step: Step, id: string)
    requires id !in w.requests && id in Next(w, step).requests
    ensures var r := Next(w, step).requests[id]; r.approver.None? && r.authorizer.None? && r.executor.None?
  {
  }

  lemma RecordPast(w0: World, steps: seq<Step>, step: Step, id: string)
    requires var w := Run(w0, steps); id in Next(w, step).requests && (id in w.requests ==> PastOf(w0, steps, id, w.requests[id]))
    requires forall i: nat | i < |Run(w0, steps).processes| :: PastOfProcess(w0, steps, Run(w0, steps).processes[i])
    ensures PastOf(w0, steps + [step], id, Next(Run(w0, steps), step).requests[id])
  {
    var w := Run(w0, steps);
    if id !in w.requests {
      Created(w, step, id);
    } else {
      var r := w.requests[id];
      RecordStays(w0, steps, step, id, r);
      if ActorOf(step).None? {
        PeopleChange(w, step, id);
        if step.Approve? && Next(w, step) != w { NowApproved(w0, steps, step.id, step.actor); }
        if step.Authorize? && Next(w, step) != w { NowAuthorized(w0, steps, step.id, step.actor); }
      } else {
        var i := ActorOf(step).value;
        ActorAdmission(w, step, i, id);
        if i < |w.processes| {
          var p := w.processes[i];
          PastStays(w0, steps, step, p.request, p.actor, p.admittedAt);
        }
      }
    }
  }

  lemma RecordStays(w0: World, steps: seq<Step>, step: Step, id: string, r: Request)
    requires PastOf(w0, steps, id, r)
    ensures PastOf(w0, steps + [step], id, r)
  {
    if r.approver.Some? { PastStays(w0, steps, step, id, r.approver.value, 0); }
    if r.authorizer.Some? { PastStays(w0, steps, step, id, r.authorizer.value, 0); }
    if r.executor.Some? { PastStays(w0, steps, step, id, r.executor.value, r.admittedAt.value); }
  }

  /** A process that is admitted or in its preflight was so before, or is admitted now. */
  lemma ProcessChange(w: World, step: Step, i: nat)
    requires i < |Next(w, step).processes|
    requires var p' := Next(w, step).processes[i]; p'.pc.Admitted? || p'.pc.Preflight?
    ensures var p' := Next(w, step).processes[i];
      if i < |w.processes|
      then (w.processes[i].pc.Admitted? || w.processes[i].pc.Preflight?) && p'.request == w.processes[i].request
           && p'.actor == w.processes[i].actor && p'.admittedAt == w.processes[i].admittedAt
      else step == Execute(p'.request, p'.actor) && Next(w, step) != w && p'.admittedAt == w.now
  {
    if ActorOf(step).Some? && ActorOf(step).value < |w.processes| {
      ActorActsAlone(w, step, ActorOf(step).value);
      if ActorOf(step).value == i { AdmissionStays(w, step, i); }
    }
  }

  lemma AdmissionStays(w: World, step: Step, i: nat)
    requires ActorOf(step) == Some(i) && i < |w.processes| && i < |Next(w, step).processes|
    ensures Next(w, step).processes[i].admittedAt == w.processes[i].admittedAt
  {
  }

  lemma ProcessPast(w0: World, steps: seq<Step>, step: Step, i: nat)
    requires i < |Next(Run(w0, steps), step).processes|
    requires i < |Run(w0, steps).processes| ==> PastOfProcess(w0, steps, Run(w0, steps).processes[i])
    ensures PastOfProcess(w0, steps + [step], Next(Run(w0, steps), step).processes[i])
  {
    var w := Run(w0, steps);
    var p' := Next(w, step).processes[i];
    if p'.pc.Admitted? || p'.pc.Preflight? {
      ProcessChange(w, step, i);
      PastStays(w0, steps, step, p'.request, p'.actor, p'.admittedAt);
      if i >= |w.processes| { NowAdmitted(w0, steps, p'.request, p'.actor); }
    }
  }

  lemma {:induction false} ProcessesHavePast(w0: World, steps: seq<Step>, i: nat)
    requires w0.processes == [] && i < |Run(w0, steps).processes|
    ensures PastOfProcess(w0, steps, Run(w0, steps).processes[i])
    decreases |steps|
  {
    if |steps| > 0 {
      var before, step := steps[..|steps| - 1], steps[|steps| - 1];
      if i < |Run(w0, before).processes| { ProcessesHavePast(w0, before, i); }
      ProcessPast(w0, before, step, i);
      assert before + [step] == steps;
    }
  }

  /** Whoever a record names as approver, authorizer and executor did approve, authorize and have it executed, each in the
    * state for it, and the last two while the window was open. */
  lemma {:induction false} RecordsHavePast(w0: World, steps: seq<Step>, id: string)
    requires w0.requests == map[] && w0.processes == [] && id in Run(w0, steps).requests
    ensures PastOf(w0, steps, id, Run(w0, steps).requests[id])
    decreases |steps|
  {
    if |steps| > 0 {
      var before, step := steps[..|steps| - 1], steps[|steps| - 1];
      if id in Run(w0, before).requests { RecordsHavePast(w0, before, id); }
      forall i: nat | i < |Run(w0, before).processes| ensures PastOfProcess(w0, before, Run(w0, before).processes[i]) {
        ProcessesHavePast(w0, before, i);
      }
      RecordPast(w0, before, step, id);
      assert before + [step] == steps;
    }
  }

  /** So a request that runs or has run was approved, authorized and admitted in that order of states, by the people its
    * record names. */
  lemma DutiesWereDone(hosts: map<Target, Host>, now: int, steps: seq<Step>, id: string)
    requires Durable(Initial(hosts, now), steps) && id in Run(Initial(hosts, now), steps).requests
    requires var s := Run(Initial(hosts, now), steps).requests[id].state; s.Running? || Terminal(s)
    ensures var w0 := Initial(hosts, now); var r := Run(w0, steps).requests[id];
      && r.approver.Some? && ApprovedBy(w0, steps, id, r.approver.value)
      && r.authorizer.Some? && AuthorizedBy(w0, steps, id, r.authorizer.value)
      && r.executor == r.authorizer && r.admittedAt.Some? && AdmittedFor(w0, steps, id, r.authorizer.value, r.admittedAt.value)
  {
    Reachable(hosts, now, steps);
    assert RequestOk(Run(Initial(hosts, now), steps), id);
    RecordsHavePast(Initial(hosts, now), steps, id);
  }

  // ---- what a start finds ----

  /** A request becomes running only through a preflight that found the database open, no backup root, and either no
    * listener or one that is ready and serves something; its services are then recorded as they are. */
  lemma StartFindsHealth(w: World, step: Step, id: string)
    requires id in w.requests && id in Next(w, step).requests
    requires !w.requests[id].state.Running? && Next(w, step).requests[id].state.Running?
    ensures ActorOf(step).Some? && Runs(w, ActorOf(step).value)
    ensures var p := w.processes[ActorOf(step).value]; var r, r' := w.requests[id], Next(w, step).requests[id];
      var h := w.hosts[TargetOf(r.binding)];
      && p.request == id && p.pc.Preflight? && h.openReadWrite && !r.rootExists
      && r'.listener == (if h.listenerUp then Some(h.services) else None) && Healthy(h, r'.listener)
      && (h.listenerUp ==> h.services != {})
      && r'.startedAt == Some(w.now) && r'.executor == Some(p.actor)
  {
    if ActorOf(step).None? {
      OthersLetAlone(w, step);
    } else {
      var i := ActorOf(step).value;
      if Runs(w, i) && w.processes[i].request == id {
        var h := w.hosts[TargetOf(w.requests[id].binding)];
        CommandStarts(w.processes[i], w.requests[id], h, w.now, step.Go? && step.ok, if step.Go? then step.host else h, step.Go? && step.torn);
      }
    }
  }

  lemma CommandStarts(p: Process, r: Request, h: Host, now: int, ok: bool, h': Host, torn: bool)
    requires !r.state.Running?
    ensures Tearing(p, r, h, now, ok, h', torn).request.state.Running? ==>
      p.pc.Preflight? && PreflightPasses(r, h) && Tearing(p, r, h, now, ok, h', torn).request == Started(p, r, h, now)
    ensures Torn(p, r, h, now).state.Running? ==>
      p.pc.Preflight? && PreflightPasses(r, h) && Torn(p, r, h, now) == Started(p, r, h, now).(sealed := false)
  {
  }
}
