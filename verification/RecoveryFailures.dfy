/** How a failed command of an execution ends: which label its request gets, and why a restoration is not proven. */
module RecoveryFailures {
  import opened Text
  import opened RecoveryPrep
  import opened RecoverySafety
  import opened RecoveryServices

  // ---- why a restoration is not proven ----

  /** The command at the given kind of point of a restoration was issued, and failed. */
  predicate FailedAt(listener: Option<set<string>>, outcomes: seq<bool>, kind: Restore -> bool) {
    exists k | 0 <= k < |outcomes| :: !outcomes[k] && kind(Replay(listener, outcomes[..k]))
  }

  lemma FailedMore(listener: Option<set<string>>, outcomes: seq<bool>, ok: bool, kind: Restore -> bool)
    ensures FailedAt(listener, outcomes + [ok], kind) <==>
      FailedAt(listener, outcomes, kind) || (!ok && kind(Replay(listener, outcomes)))
  {
    var more := outcomes + [ok];
    assert more[|outcomes|] == ok && more[..|outcomes|] == outcomes;
    assert forall k | 0 <= k < |outcomes| :: more[k] == outcomes[k] && more[..k] == outcomes[..k];
  }

  /** The probe of the database. */
  predicate IsProbe(r: Restore) { r.RProbe? }

  /** The commands on the listener that have to succeed once they are issued: its start after a bad status, the status
    * after that, the registration and the check of its services. */
  predicate IsListenerCommand(r: Restore) { r.RStart? || r.RRecheck? || r.RRegister? || r.RVerify? }

  predicate ProbeOrListenerFailed(listener: Option<set<string>>, outcomes: seq<bool>) {
    FailedAt(listener, outcomes, IsProbe) || FailedAt(listener, outcomes, IsListenerCommand)
  }

  lemma {:induction false} PointCause(listener: Option<set<string>>, h: Host, outcomes: seq<bool>, effects: seq<Host>)
    requires Allowed(listener, h, outcomes, effects)
    ensures match Replay(listener, outcomes)
      case RStatus(health) => health || FailedAt(listener, outcomes, IsProbe)
      case RStart(health) => health || FailedAt(listener, outcomes, IsProbe)
      case RRecheck(health) => health || FailedAt(listener, outcomes, IsProbe)
      case RVerdict(restored) => restored || ProbeOrListenerFailed(listener, outcomes)
      case _ => true
    decreases |outcomes|
  {
    if |outcomes| > 0 {
      var n := |outcomes| - 1;
      PointCause(listener, h, outcomes[..n], effects[..n]);
      FailedMore(listener, outcomes[..n], outcomes[n], IsProbe);
      FailedMore(listener, outcomes[..n], outcomes[n], IsListenerCommand);
      assert outcomes[..n] + [outcomes[n]] == outcomes;
    }
  }

  /** A restoration comes to a negative verdict only if its probe failed, or a command on the listener that has to
    * succeed: opening a database that is open, starting one and a first bad status are forgiven. */
  lemma UnprovenHasCause(listener: Option<set<string>>, h: Host, outcomes: seq<bool>, effects: seq<Host>)
    requires Allowed(listener, h, outcomes, effects) && Replay(listener, outcomes).RVerdict?
    ensures Replay(listener, outcomes).restored <==> Proven(listener, outcomes)
    ensures !Proven(listener, outcomes) ==> ProbeOrListenerFailed(listener, outcomes)
  {
    PointMeans(listener, h, outcomes, effects);
    PointCause(listener, h, outcomes, effects);
  }

  /** How many commands a restoration may still issue. */
  function Remaining(r: Restore): nat {
    match r
    case ROpen => 8
    case RStartup => 7
    case RProbe => 6
    case RStatus(_) => 5
    case RStart(_) => 4
    case RRecheck(_) => 3
    case RRegister => 2
    case RVerify => 1
    case RVerdict(_) => 0
  }

  /** A restoration comes to its verdict after at most eight commands. */
  lemma {:induction false} RestorationEnds(listener: Option<set<string>>, h: Host, outcomes: seq<bool>, effects: seq<Host>)
    requires Allowed(listener, h, outcomes, effects)
    ensures |outcomes| + Remaining(Replay(listener, outcomes)) <= 8
    ensures |outcomes| == 8 ==> Replay(listener, outcomes).RVerdict?
    decreases |outcomes|
  {
    if |outcomes| > 0 {
      var n := |outcomes| - 1;
      RestorationEnds(listener, h, outcomes[..n], effects[..n]);
    }
  }

  /** Outcomes and effects, command by command. */
  lemma AllowedThen(listener: Option<set<string>>, h: Host, outcomes: seq<bool>, effects: seq<Host>, ok: bool, after: Host)
    requires Allowed(listener, h, outcomes, effects) && !Replay(listener, outcomes).RVerdict?
    requires RestoreMay(Replay(listener, outcomes), listener, Last(h, effects), ok, after)
    ensures Allowed(listener, h, outcomes + [ok], effects + [after]) && Last(h, effects + [after]) == after
    ensures Replay(listener, outcomes + [ok]) == RestoreNext(Replay(listener, outcomes), listener, ok)
  {
    AllowedMore(listener, h, outcomes, effects, ok, after);
  }

  /** On healthy services a restoration opens, probes, and, with a listener, asks its status twice, registers and checks its
    * services: it starts nothing, changes nothing, and is proven. */
  lemma HealthyIsLeftAlone(listener: Option<set<string>>, h: Host)
    requires Healthy(h, listener)
    ensures var outcomes := [true, true] + (if listener.Some? then [true, true] + [true, true] else []);
      var effects := [h, h] + (if listener.Some? then [h, h] + [h, h] else []);
      Allowed(listener, h, outcomes, effects) && Replay(listener, outcomes) == RVerdict(true)
  {
    AllowedThen(listener, h, [], [], true, h);
    AllowedThen(listener, h, [true], [h], true, h);
    assert [] + [true] == [true] && [] + [h] == [h] && [true] + [true] == [true, true] && [h] + [h] == [h, h];
    if listener.Some? {
      HealthyListener(listener, h);
    } else {
      assert [true, true] + [] == [true, true] && [h, h] + [] == [h, h];
    }
  }

  lemma HealthyListener(listener: Option<set<string>>, h: Host)
    requires Healthy(h, listener) && listener.Some?
    requires Allowed(listener, h, [true, true], [h, h]) && Replay(listener, [true, true]) == RStatus(true)
    ensures Allowed(listener, h, [true, true] + ([true, true] + [true, true]), [h, h] + ([h, h] + [h, h]))
    ensures Replay(listener, [true, true] + ([true, true] + [true, true])) == RVerdict(true)
  {
    AllowedThen(listener, h, [true, true], [h, h], true, h);
    AllowedThen(listener, h, [true, true] + [true], [h, h] + [h], true, h);
    AllowedThen(listener, h, [true, true] + [true] + [true], [h, h] + [h] + [h], true, h);
    AllowedThen(listener, h, [true, true] + [true] + [true] + [true], [h, h] + [h] + [h] + [h], true, h);
    assert [true, true] + [true] + [true] + [true] + [true] == [true, true] + ([true, true] + [true, true]);
    assert [h, h] + [h] + [h] + [h] + [h] == [h, h] + ([h, h] + [h, h]);
  }

  /** With everything down a restoration can still be proven: the database does not open and is started, and a listener
    * without status is started and comes to serve what it served before. */
  lemma DownIsRestored(listener: Option<set<string>>, h: Host)
    ensures var up := Host(true, h.listenerUp, h.services, h.ready);
      var back := Host(true, true, if listener.Some? then listener.value else {}, true);
      var outcomes := [false, true, true] + (if listener.Some? then [false, true, true] + [true, true] else []);
      var effects := [h, up, up] + (if listener.Some? then [up, back, back] + [back, back] else []);
      Allowed(listener, h, outcomes, effects) && Replay(listener, outcomes) == RVerdict(true)
  {
    var up := Host(true, h.listenerUp, h.services, h.ready);
    AllowedThen(listener, h, [], [], false, h);
    AllowedThen(listener, h, [] + [false], [] + [h], true, up);
    AllowedThen(listener, h, [] + [false] + [true], [] + [h] + [up], true, up);
    assert [] + [false] + [true] + [true] == [false, true, true] && [] + [h] + [up] + [up] == [h, up, up];
    if listener.Some? {
      DownListener(listener, h, up);
    } else {
      assert [false, true, true] + [] == [false, true, true] && [h, up, up] + [] == [h, up, up];
    }
  }

  lemma DownListener(listener: Option<set<string>>, h: Host, up: Host)
    requires listener.Some? && up.openReadWrite
    requires Allowed(listener, h, [false, true, true], [h, up, up]) && Replay(listener, [false, true, true]) == RStatus(true)
    ensures var back := Host(true, true, listener.value, true);
      && Allowed(listener, h, [false, true, true] + ([false, true, true] + [true, true]), [h, up, up] + ([up, back, back] + [back, back]))
      && Replay(listener, [false, true, true] + ([false, true, true] + [true, true])) == RVerdict(true)
  {
    var back := Host(true, true, listener.value, true);
    var o, e := [false, true, true], [h, up, up];
    AllowedThen(listener, h, o, e, false, up);
    AllowedThen(listener, h, o + [false], e + [up], true, back);
    AllowedThen(listener, h, o + [false] + [true], e + [up] + [back], true, back);
    AllowedThen(listener, h, o + [false] + [true] + [true], e + [up] + [back] + [back], true, back);
    AllowedThen(listener, h, o + [false] + [true] + [true] + [true], e + [up] + [back] + [back] + [back], true, back);
    assert o + [false] + [true] + [true] + [true] + [true] == o + ([false, true, true] + [true, true]);
    assert e + [up] + [back] + [back] + [back] + [back] == e + ([up, back, back] + [back, back]);
  }

  // ---- the label of a failed command ----

  /** The operations before the first that may change the services. */
  const UNTOUCHED: set<Op> := {MakeRoot, PrepareRoot, MarkValidatingRman, CheckSyntax}

  /** The operations of the validation phase. */
  const VALIDATION: set<Op> := {MarkValidating, Validate, RecordCompleted}

  predicate AtOp(w: World, i: nat, op: Op) {
    Runs(w, i) && w.processes[i].pc == At(op) && w.requests[w.processes[i].request].state.Running?
  }

  /** The operation fails, with services h' left behind. */
  predicate Fails(w: World, i: nat, op: Op, h': Host)
    requires AtOp(w, i, op)
  {
    var r := w.requests[w.processes[i].request];
    OpMay(op, r.listener, w.hosts[TargetOf(r.binding)], false, h')
  }

  lemma FailedOperation(w: World, i: nat, op: Op, h': Host, torn: bool)
    requires AtOp(w, i, op) && Fails(w, i, op, h') && !(torn && op.RecordCompleted?)
    ensures var w' := Next(w, Go(i, false, h', torn)); var id := w.processes[i].request;
      && Runs(w', i) && w'.processes[i].request == id && w'.requests[id].state.Running?
      && w'.requests[id].listener == w.requests[id].listener && w'.requests[id].binding == w.requests[id].binding
      && w'.hosts[TargetOf(w.requests[id].binding)] == h'
      && w'.processes[i].pc == if op in UNTOUCHED then Blocking else Restoring(ROpen, Some(PhaseOf(op)))
    ensures op !in UNTOUCHED && !op.Finish? ==> (PhaseOf(op).ValidatingRecovery? <==> op in VALIDATION)
  {
    var p := w.processes[i];
    var r := w.requests[p.request];
    FailedCommand(p, r, w.hosts[TargetOf(r.binding)], w.now, op, h', torn);
  }

  lemma FailedCommand(p: Process, r: Request, h: Host, now: int, op: Op, h': Host, torn: bool)
    requires p.pc == At(op) && r.state.Running? && OpMay(op, r.listener, h, false, h') && !(torn && op.RecordCompleted?)
    ensures var e := Tearing(p, r, h, now, false, h', torn);
      && e.request == r.(sealed := e.request.sealed)
      && e.host == h'
      && e.process == p.(pc := if op in UNTOUCHED then Blocking else Restoring(ROpen, Some(PhaseOf(op))))
  {
  }

  /** The process leaves, and the target is free. */
  predicate Leaves(w: World, i: nat, t: Target) {
    i < |w.processes| && w.processes[i].pc.Gone? && t !in w.locks
  }

  /** A preflight that fails leaves request and services as they were, and the target free. */
  lemma FailedPreflightLeaves(w: World, i: nat, h': Host)
    requires Runs(w, i) && w.processes[i].pc.Preflight?
    ensures var t := TargetOf(w.requests[w.processes[i].request].binding);
      var w' := Next(Next(w, Go(i, false, h', false)), Go(i, true, h', false));
      w'.requests == w.requests && w'.hosts == w.hosts && Leaves(w', i, t)
  {
    var id := w.processes[i].request;
    var t := TargetOf(w.requests[id].binding);
    assert w.requests[id := w.requests[id]] == w.requests && w.hosts[t := w.hosts[t]] == w.hosts;
    assert Next(w, Go(i, false, h', false)) == w.(processes := w.processes[i := w.processes[i].(pc := Unlock(false))]);
  }

  lemma UnlockLeaves(w: World, i: nat, h': Host)
    requires Runs(w, i) && w.processes[i].pc.Unlock?
    ensures Leaves(Next(w, Go(i, true, h', false)), i, TargetOf(w.requests[w.processes[i].request].binding))
  {
  }

  /** A command that fails before the services are touched leaves the request blocked, with the services untouched. */
  lemma EarlyFailureBlocks(w: World, i: nat, op: Op, h': Host, torn: bool)
    requires AtOp(w, i, op) && op in UNTOUCHED && Fails(w, i, op, h')
    ensures var id := w.processes[i].request; var t := TargetOf(w.requests[id].binding);
      var w' := Next(Next(w, Go(i, false, h', torn)), Go(i, true, h', false));
      && id in w'.requests && w'.requests[id].state.Blocked? && w'.requests[id].sealed
      && t in w'.hosts && w'.hosts[t] == w.hosts[t] && Leaves(Next(w', Go(i, true, h', false)), i, t)
  {
    FailedOperation(w, i, op, h', torn);
    var w1 := Next(w, Go(i, false, h', torn));
    var w2 := Next(w1, Go(i, true, h', false));
    assert Runs(w2, i) && w2.processes[i].pc.Unlock?;
    UnlockLeaves(w2, i, h');
  }

  /** Any later command that fails starts a restoration, and its label tells what came of it: recovery_required exactly if
    * the services were not proven, validation_failed exactly if they were and the command belonged to the validation of
    * the recovery set, and failed_services_restored exactly if they were and it did not. */
  lemma LateFailureLabel(w: World, i: nat, op: Op, h': Host, torn: bool, outcomes: seq<bool>, effects: seq<Host>, last: Host)
    requires AtOp(w, i, op) && op !in UNTOUCHED && !op.Finish? && Fails(w, i, op, h') && !(torn && op.RecordCompleted?)
    requires var listener := w.requests[w.processes[i].request].listener;
      Allowed(listener, h', outcomes, effects) && Replay(listener, outcomes).RVerdict?
    ensures var id := w.processes[i].request; var proven := Proven(w.requests[id].listener, outcomes);
      var w' := Next(Run(Next(w, Go(i, false, h', torn)), Commands(i, outcomes, effects)), Go(i, true, last, false));
      && id in w'.requests && w'.requests[id].sealed
      && (w'.requests[id].state.RecoveryRequired? <==> !proven)
      && (w'.requests[id].state.ValidationFailed? <==> proven && op in VALIDATION)
      && (w'.requests[id].state.FailedServicesRestored? <==> proven && op !in VALIDATION)
      && Leaves(Next(w', Go(i, true, last, false)), i, TargetOf(w.requests[id].binding))
  {
    FailedOperation(w, i, op, h', torn);
    var w1 := Next(w, Go(i, false, h', torn));
    LabelTellsTheRestoration(w1, i, Some(PhaseOf(op)), outcomes, effects, last);
    UnlockLeaves(Next(Run(w1, Commands(i, outcomes, effects)), Go(i, true, last, false)), i, last);
  }
}
