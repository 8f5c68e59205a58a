/** What a completed label says about the preparation: every command of it succeeded, in order; and that a preparation whose
  * commands succeed does end there. */
module RecoveryCompletion {
  import opened Text
  import opened RecoveryPrep
  import opened RecoverySafety
  import opened RecoveryTheorems
  import opened RecoveryLimits

  /** The commands of a preparation, in the order of the script. */
  const PREPARATION: seq<Op> := [
    MakeRoot, PrepareRoot, MarkValidatingRman, CheckSyntax,
    MarkQuiesce, StopListener, Shutdown,
    MarkArchive, ArchiveHomes,
    MarkMount, MountDatabase, CheckMount,
    MarkBackup, RunRman, CheckPieces,
    MarkRestore, OpenDatabase, StartListener, Register, CheckServices, CheckStatus, ProbeDatabase,
    MarkSealing, SealEvidence,
    MarkValidating, Validate]

  /** Step k of the run is a successful command of process i: it is at the operation, and the services change within the
    * footprint of the operation. */
  predicate Succeeds(w: World, steps: seq<Step>, k: nat, i: nat, op: Op)
    requires k < |steps|
  {
    && steps[k].Go? && steps[k].process == i && steps[k].ok
    && var v := Run(w, steps[..k]);
       && Runs(v, i) && v.processes[i].pc == At(op)
       && var r := v.requests[v.processes[i].request];
          OpMay(op, r.listener, v.hosts[TargetOf(r.binding)], true, steps[k].host)
  }

  /** The first n commands of the preparation succeeded in the run, one after the other. */
  predicate Done(w: World, steps: seq<Step>, i: nat, n: nat)
    requires n <= |PREPARATION|
    decreases n
  {
    n > 0 ==> exists k: nat | k < |steps| :: Succeeds(w, steps, k, i, PREPARATION[n - 1]) && Done(w, steps[..k], i, n - 1)
  }

  /** What was done in a run stays done in a longer one. */
  lemma DoneStays(w: World, steps: seq<Step>, step: Step, i: nat, n: nat)
    requires n <= |PREPARATION| && Done(w, steps, i, n)
    ensures Done(w, steps + [step], i, n)
  {
    if n > 0 {
      var k: nat :| k < |steps| && Succeeds(w, steps, k, i, PREPARATION[n - 1]) && Done(w, steps[..k], i, n - 1);
      assert (steps + [step])[..k] == steps[..k];
      assert Succeeds(w, steps + [step], k, i, PREPARATION[n - 1]);
    }
  }

  lemma DoneMore(w: World, steps: seq<Step>, step: Step, i: nat, n: nat)
    requires n < |PREPARATION| && Done(w, steps, i, n)
    requires step.Go? && step.process == i && step.ok && Runs(Run(w, steps), i)
    requires var v := Run(w, steps);
      && v.processes[i].pc == At(PREPARATION[n])
      && var r := v.requests[v.processes[i].request];
         OpMay(PREPARATION[n], r.listener, v.hosts[TargetOf(r.binding)], true, step.host)
    ensures Done(w, steps + [step], i, n + 1)
  {
    var more := steps + [step];
    assert more[..|steps|] == steps && more[|steps|] == step;
    assert Succeeds(w, more, |steps|, i, PREPARATION[n]);
  }

  /** How many commands of the preparation come before the operation. */
  function Place(op: Op): (n: nat)
    ensures n <= |PREPARATION|
  {
    match op
    case MakeRoot => 0
    case PrepareRoot => 1
    case MarkValidatingRman => 2
    case CheckSyntax => 3
    case MarkQuiesce => 4
    case StopListener => 5
    case Shutdown => 6
    case MarkArchive => 7
    case ArchiveHomes => 8
    case MarkMount => 9
    case MountDatabase => 10
    case CheckMount => 11
    case MarkBackup => 12
    case RunRman => 13
    case CheckPieces => 14
    case MarkRestore => 15
    case OpenDatabase => 16
    case StartListener => 17
    case Register => 18
    case CheckServices => 19
    case CheckStatus => 20
    case ProbeDatabase => 21
    case MarkSealing => 22
    case SealEvidence => 23
    case MarkValidating => 24
    case Validate => 25
    case RecordCompleted => 26
    case Finish => 26
  }

  /** An operation leads to the one that comes after it in the list, and the last to the record of the completion. */
  lemma AfterIsNext(op: Op)
    ensures Place(op) < 26 ==> PREPARATION[Place(op)] == op && Place(After(op)) == Place(op) + 1
    ensures op.RecordCompleted? || op.Finish? ==> After(op).Finish?
  {
  }

  /** How an operation comes to be at hand: it was, a preflight passed, or the one before it succeeded. */
  predicate Comes(p: Process, r: Request, h: Host, ok: bool, h': Host, op: Op) {
    || p.pc == At(op)
    || (p.pc.Preflight? && op.MakeRoot?)
    || (p.pc.At? && ok && OpMay(p.pc.op, r.listener, h, true, h') && op == After(p.pc.op))
  }

  lemma CommandComes(p: Process, r: Request, h: Host, now: int, ok: bool, h': Host, torn: bool)
    ensures var e := Tearing(p, r, h, now, ok, h', torn);
      e.process.pc.At? ==> Comes(p, r, h, ok, h', e.process.pc.op)
  {
  }

  lemma OperationComes(w: World, step: Step, i: nat)
    requires i < |w.processes| && Next(w, step).processes[i].pc.At?
    requires |Next(w, step).processes| >= |w.processes|
    ensures var op := Next(w, step).processes[i].pc.op;
      || w.processes[i].pc == At(op)
      || (step.Go? && step.process == i && Runs(w, i)
          && var r := w.requests[w.processes[i].request];
             Comes(w.processes[i], r, w.hosts[TargetOf(r.binding)], step.ok, step.host, op))
  {
    if ActorOf(step).None? {
      OthersLetAlone(w, step);
    } else if ActorOf(step).value != i && ActorOf(step).value < |w.processes| {
      ActorActsAlone(w, step, ActorOf(step).value);
    } else if step.Go? && Runs(w, i) {
      var r := w.requests[w.processes[i].request];
      CommandComes(w.processes[i], r, w.hosts[TargetOf(r.binding)], w.now, step.ok, step.host, step.torn);
    }
  }

  /** No requests and no processes yet. */
  predicate Empty(w: World) {
    w.requests == map[] && w.processes == []
  }

  /** A process at an operation has done everything before it. */
  lemma {:induction false} OperationsAreDone(w0: World, steps: seq<Step>, i: nat)
    requires Empty(w0) && i < |Run(w0, steps).processes| && Run(w0, steps).processes[i].pc.At?
    ensures Done(w0, steps, i, Place(Run(w0, steps).processes[i].pc.op))
    decreases |steps|
  {
    if |steps| > 0 {
      var before, step := steps[..|steps| - 1], steps[|steps| - 1];
      var w := Run(w0, before);
      ProcessesStay(w, step, i);
      if i < |w.processes| {
        OperationComes(w, step, i);
        if w.processes[i].pc.At? {
          OperationsAreDone(w0, before, i);
          Continues(w0, before, step, i, w.processes[i].pc.op, Next(w, step).processes[i].pc.op);
        }
      }
      assert before + [step] == steps;
    }
  }

  lemma ProcessesStay(w: World, step: Step, i: nat)
    requires i < |Next(w, step).processes|
    ensures |w.processes| <= |Next(w, step).processes|
    ensures i >= |w.processes| ==> !Next(w, step).processes[i].pc.At?
  {
    if ActorOf(step).None? {
      OthersLetAlone(w, step);
    } else if ActorOf(step).value < |w.processes| {
      ActorActsAlone(w, step, ActorOf(step).value);
    }
  }

  lemma Continues(w0: World, before: seq<Step>, step: Step, i: nat, op: Op, op': Op)
    requires Done(w0, before, i, Place(op))
    requires
      || op' == op
      || (step.Go? && step.process == i && step.ok && op' == After(op) && Runs(Run(w0, before), i)
          && var w := Run(w0, before);
             && w.processes[i].pc == At(op)
             && var r := w.requests[w.processes[i].request]; OpMay(op, r.listener, w.hosts[TargetOf(r.binding)], true, step.host))
    ensures Done(w0, before + [step], i, Place(op'))
  {
    AfterIsNext(op);
    DoneStays(w0, before, step, i, Place(op));
    if op' != op && Place(op) < 26 { DoneMore(w0, before, step, i, Place(op)); }
  }

  /** Only the record of a completion completes a request. */
  lemma BecomesCompleted(w: World, step: Step, id: string)
    requires id in Next(w, step).requests && Next(w, step).requests[id].state.Completed?
    requires id in w.requests ==> !w.requests[id].state.Completed?
    ensures ActorOf(step).Some? && Runs(w, ActorOf(step).value)
    ensures w.processes[ActorOf(step).value].request == id && w.processes[ActorOf(step).value].pc == At(RecordCompleted)
  {
    if id in w.requests {
      MovedByOwnProcess(w, step, id);
      var i := ActorOf(step).value;
      var p, r := w.processes[i], w.requests[id];
      var h := w.hosts[TargetOf(r.binding)];
      CommandCompletes(p, r, h, w.now, step.Go? && step.ok, if step.Go? then step.host else h, step.Go? && step.torn);
    }
  }

  lemma CommandCompletes(p: Process, r: Request, h: Host, now: int, ok: bool, h': Host, torn: bool)
    requires !r.state.Completed?
    ensures Tearing(p, r, h, now, ok, h', torn).request.state.Completed? || Torn(p, r, h, now).state.Completed? ==>
      p.pc == At(RecordCompleted)
  {
  }

  /** A process of the request carried out the first n commands of the preparation. */
  predicate CarriedOut(w0: World, steps: seq<Step>, i: nat, id: string, n: nat) {
    var w := Run(w0, steps);
    n <= |PREPARATION| && i < |w.processes| && w.processes[i].request == id && Done(w0, steps, i, n)
  }

  predicate IsCompleted(w: World, id: string) {
    id in w.requests && w.requests[id].state.Completed?
  }

  lemma {:induction false} CompletedFrom(w0: World, steps: seq<Step>, id: string, n: nat) returns (i: nat)
    requires Empty(w0) && IsCompleted(Run(w0, steps), id) && n == Place(RecordCompleted)
    ensures CarriedOut(w0, steps, i, id, n)
    decreases |steps|
  {
    var before, step := steps[..|steps| - 1], steps[|steps| - 1];
    if IsCompleted(Run(w0, before), id) {
      i := CompletedFrom(w0, before, id, n);
    } else {
      i := Completer(w0, before, step, id, n);
    }
    PreparedStays(w0, before, step, i, id, n);
    assert before + [step] == steps;
  }

  /** A completed request has been prepared: in the run that led to it, a process of the request carried out every command
    * of the preparation successfully, one after the other, down to the validation of the recovery set. */
  lemma CompletedIsPrepared(hosts: map<Target, Host>, now: int, steps: seq<Step>, id: string) returns (i: nat)
    requires var w := Run(Initial(hosts, now), steps); id in w.requests && w.requests[id].state.Completed?
    ensures var w := Run(Initial(hosts, now), steps);
      i < |w.processes| && w.processes[i].request == id && Done(Initial(hosts, now), steps, i, |PREPARATION|)
  {
    assert |PREPARATION| == Place(RecordCompleted);
    i := CompletedFrom(Initial(hosts, now), steps, id, |PREPARATION|);
  }

  /** The process that completes a request has done everything. */
  lemma Completer(w0: World, before: seq<Step>, step: Step, id: string, n: nat) returns (i: nat)
    requires n == Place(RecordCompleted) && Empty(w0) && !IsCompleted(Run(w0, before), id) && IsCompleted(Next(Run(w0, before), step), id)
    ensures CarriedOut(w0, before, i, id, n)
  {
    var w := Run(w0, before);
    BecomesCompleted(w, step, id);
    i := ActorOf(step).value;
    DoneThen(w0, before, i, n);
  }

  lemma DoneThen(w0: World, steps: seq<Step>, i: nat, n: nat)
    requires Empty(w0) && i < |Run(w0, steps).processes| && Run(w0, steps).processes[i].pc.At?
    requires n == Place(Run(w0, steps).processes[i].pc.op)
    ensures Done(w0, steps, i, n)
  {
    OperationsAreDone(w0, steps, i);
  }

  lemma PreparedStays(w0: World, before: seq<Step>, step: Step, i: nat, id: string, n: nat)
    requires CarriedOut(w0, before, i, id, n)
    ensures CarriedOut(w0, before + [step], i, id, n)
  {
    DoneStays(w0, before, step, i, n);
    RequestStays(Run(w0, before), step, i);
    Extend(w0, before, step);
  }

  lemma RequestStays(w: World, step: Step, i: nat)
    requires i < |w.processes|
    ensures i < |Next(w, step).processes| && Next(w, step).processes[i].request == w.processes[i].request
  {
    if ActorOf(step).None? {
      OthersLetAlone(w, step);
    } else if ActorOf(step).value < |w.processes| {
      ActorActsAlone(w, step, ActorOf(step).value);
    }
  }

  // ---- and a preparation that succeeds is completed ----

  function Repeat(step: Step, n: nat): seq<Step> {
    if n == 0 then [] else [step] + Repeat(step, n - 1)
  }

  /** Process i works on request id, whose target has services h. */
  predicate OnItsWay(w: World, i: nat, id: string, h: Host) {
    && Runs(w, i) && w.processes[i].request == id
    && w.hosts[TargetOf(w.requests[id].binding)] == h && Healthy(h, w.requests[id].listener)
  }

  /** The request is completed with a whole record, its services are as they were, its target is free, and its process has
    * left. */
  predicate CompletedWell(w: World, i: nat, id: string, h: Host) {
    && i < |w.processes| && w.processes[i].pc.Gone?
    && id in w.requests && w.requests[id].state.Completed? && w.requests[id].sealed
    && var t := TargetOf(w.requests[id].binding); t in w.hosts && w.hosts[t] == h && t !in w.locks
  }

  lemma NextSucceeds(w: World, i: nat, id: string, h: Host)
    requires OnItsWay(w, i, id, h) && w.processes[i].pc.At? && Place(w.processes[i].pc.op) < 26
    ensures var w' := Next(w, Go(i, true, h, false));
      OnItsWay(w', i, id, h) && w'.processes[i].pc.At? && !w'.processes[i].pc.op.Finish?
      && Place(w'.processes[i].pc.op) == Place(w.processes[i].pc.op) + 1
  {
    CommandSucceeds(w.processes[i], w.requests[id], h, w.now);
  }

  /** On healthy services every command of the preparation can succeed and leave them as they are. */
  lemma CommandSucceeds(p: Process, r: Request, h: Host, now: int)
    requires p.pc.At? && Place(p.pc.op) < 26 && Healthy(h, r.listener)
    ensures var e := Tearing(p, r, h, now, true, h, false);
      && e.process == p.(pc := e.process.pc) && e.process.pc.At? && !e.process.pc.op.Finish?
      && Place(e.process.pc.op) == Place(p.pc.op) + 1
      && e.host == h && !e.unlocks && e.request.listener == r.listener && e.request.binding == r.binding
  {
    StaysHealthy(p.pc.op, r.listener, h);
    MovesOn(p, r, h, now);
    AfterIsNext(p.pc.op);
  }

  lemma StaysHealthy(op: Op, listener: Option<set<string>>, h: Host)
    requires Healthy(h, listener)
    ensures OpMay(op, listener, h, true, h)
  {
  }

  lemma MovesOn(p: Process, r: Request, h: Host, now: int)
    requires p.pc.At? && !p.pc.op.RecordCompleted? && !p.pc.op.Finish? && OpMay(p.pc.op, r.listener, h, true, h)
    ensures var e := Tearing(p, r, h, now, true, h, false);
      && e.process == p.(pc := At(After(p.pc.op))) && e.host == h && !e.unlocks
      && e.request == r.(sealed := e.request.sealed, rootExists := e.request.rootExists)
  {
  }

  lemma EndSucceeds(w: World, i: nat, id: string, h: Host)
    requires OnItsWay(w, i, id, h) && w.processes[i].pc == At(RecordCompleted)
    ensures var go := Go(i, true, h, false); CompletedWell(Next(Next(Next(w, go), go), go), i, id, h)
  {
    var go := Go(i, true, h, false);
    var w1 := Next(w, go);
    assert Runs(w1, i) && w1.processes[i].pc == At(Finish);
    var w2 := Next(w1, go);
    assert Runs(w2, i) && w2.processes[i].pc == Unlock(false);
  }

  lemma {:induction false} SucceedsToTheEnd(w: World, i: nat, id: string, h: Host)
    requires OnItsWay(w, i, id, h) && w.processes[i].pc.At? && !w.processes[i].pc.op.Finish?
    ensures CompletedWell(Run(w, Repeat(Go(i, true, h, false), 29 - Place(w.processes[i].pc.op))), i, id, h)
    decreases 26 - Place(w.processes[i].pc.op)
  {
    var go := Go(i, true, h, false);
    if Place(w.processes[i].pc.op) == 26 {
      EndSucceeds(w, i, id, h);
      RunThree(w, go, go, go);
      assert Repeat(go, 1) == [go] && Repeat(go, 2) == [go] + Repeat(go, 1) && Repeat(go, 3) == [go] + Repeat(go, 2);
      assert [go] + ([go] + [go]) == [go, go, go];
    } else {
      var n := 28 - Place(w.processes[i].pc.op);
      NextSucceeds(w, i, id, h);
      SucceedsToTheEnd(Next(w, go), i, id, h);
      RunAfter(w, go, Repeat(go, n));
      assert Repeat(go, n + 1) == [go] + Repeat(go, n);
    }
  }

  /** From a preflight that passes, thirty successful commands that leave the services as they are complete the request:
    * the preflight, the preparation, the record of the completion, the end of the script and the release of the lock. */
  lemma PreparationCompletes(w: World, i: nat)
    requires Runs(w, i) && w.processes[i].pc.Preflight?
    requires PreflightPasses(w.requests[w.processes[i].request], w.hosts[TargetAt(w, i)])
    ensures var h := w.hosts[TargetAt(w, i)];
      CompletedWell(Run(w, Repeat(Go(i, true, h, false), 30)), i, w.processes[i].request, h)
  {
    var h := w.hosts[TargetAt(w, i)];
    var go := Go(i, true, h, false);
    assert OnItsWay(Next(w, go), i, w.processes[i].request, h) && Next(w, go).processes[i].pc == At(MakeRoot);
    SucceedsToTheEnd(Next(w, go), i, w.processes[i].request, h);
    RunAfter(w, go, Repeat(go, 29));
  }
}
