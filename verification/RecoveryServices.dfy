/** The service restoration of an exit trap or a reconciliation, as the commands it issues one after another.
  * Each command may have any effect inside its footprint; the outcomes are logged, and the log replays to the same
  * verdict in the step machine of RecoveryPrep. */
module RecoveryServices {
  import opened Text
  import opened RecoveryPrep

  /** One answer of the listener: when it was asked, and the services and instance status it reported. */
  datatype Poll = Poll(now: int, answered: bool, services: set<string>, ready: bool)

  predicate AllPresent(p: Poll, expected: seq<string>) {
    p.answered && (forall k | 0 <= k < |expected| :: expected[k] in p.services) && p.ready
  }

  predicate InTime(polls: nat -> Poll, k: nat, deadline: int) {
    polls(k).now <= deadline
  }

  /** verify_listener_services: polls every two seconds until every expected service is back or the deadline passes. */
  method VerifyListenerServices(expected: seq<string>, polls: nat -> Poll, timeout: nat) returns (present: bool)
    requires forall k: nat :: polls(k).now + 2 <= polls(k + 1).now
    ensures present ==> expected != []
    ensures expected != [] ==>
      (present <==> exists k: nat :: InTime(polls, k, polls(0).now + timeout) && AllPresent(polls(k), expected))
  {
    if expected == [] { return false; }
    var deadline := polls(0).now + timeout;
    var k := 0;
    while InTime(polls, k, deadline)
      invariant forall j: nat :: j < k ==> !AllPresent(polls(j), expected)
      decreases deadline + 2 - polls(k).now
    {
      if polls(k).answered {
        var allPresent := true;
        var i := 0;
        while i < |expected|
          invariant 0 <= i <= |expected|
          invariant allPresent <==> forall m | 0 <= m < i :: expected[m] in polls(k).services
        {
          if expected[i] !in polls(k).services { allPresent := false; }
          i := i + 1;
        }
        if !polls(k).ready { allPresent := false; }
        if allPresent { return true; }
      }
      k := k + 1;
    }
    forall j: nat | InTime(polls, j, deadline) ensures !AllPresent(polls(j), expected) {
      if j >= k { Later(polls, k, j); }
    }
    present := false;
  }

  lemma {:induction false} Later(polls: nat -> Poll, k: nat, j: nat)
    requires forall m: nat :: polls(m).now + 2 <= polls(m + 1).now
    requires k <= j
    ensures polls(k).now + 2 * (j - k) <= polls(j).now
    decreases j
  {
    if j > k { Later(polls, k, j - 1); }
  }

  /** The step machine after the given outcomes. */
  function Replay(listener: Option<set<string>>, outcomes: seq<bool>): Restore {
    if |outcomes| == 0 then ROpen
    else RestoreNext(Replay(listener, outcomes[..|outcomes| - 1]), listener, outcomes[|outcomes| - 1])
  }

  /** The services after the given effects. */
  function Last(h: Host, effects: seq<Host>): Host {
    if |effects| == 0 then h else effects[|effects| - 1]
  }

  /** Outcomes and effects of a restoration that the footprints of its commands allow, up to its verdict. */
  predicate Allowed(listener: Option<set<string>>, h: Host, outcomes: seq<bool>, effects: seq<Host>)
    decreases |outcomes|
  {
    && |outcomes| == |effects|
    && (|outcomes| > 0 ==>
         var n := |outcomes| - 1;
         && Allowed(listener, h, outcomes[..n], effects[..n])
         && !Replay(listener, outcomes[..n]).RVerdict?
         && RestoreMay(Replay(listener, outcomes[..n]), listener, Last(h, effects[..n]), outcomes[n], effects[n]))
  }

  lemma AllowedMore(listener: Option<set<string>>, h: Host, outcomes: seq<bool>, effects: seq<Host>, ok: bool, after: Host)
    requires Allowed(listener, h, outcomes, effects) && !Replay(listener, outcomes).RVerdict?
    requires RestoreMay(Replay(listener, outcomes), listener, Last(h, effects), ok, after)
    ensures Allowed(listener, h, outcomes + [ok], effects + [after])
    ensures Replay(listener, outcomes + [ok]) == RestoreNext(Replay(listener, outcomes), listener, ok)
  {
    assert (outcomes + [ok])[..|outcomes|] == outcomes && (effects + [after])[..|effects|] == effects;
  }

  function Commands(i: nat, outcomes: seq<bool>, effects: seq<Host>): seq<Step>
    requires |outcomes| == |effects|
  {
    seq(|outcomes|, k requires 0 <= k < |outcomes| => Go(i, outcomes[k], effects[k], false))
  }

  /** The world with process i at pc and the services of its target at h. */
  function Moved(w: World, i: nat, pc: Pc, h: Host): World
    requires Runs(w, i)
  {
    var t := TargetOf(w.requests[w.processes[i].request].binding);
    w.(processes := w.processes[i := w.processes[i].(pc := pc)], hosts := w.hosts[t := h])
  }

  lemma OneCommand(w: World, i: nat, step: Restore, phase: Option<Phase>, h: Host, ok: bool, after: Host)
    requires Runs(w, i) && !step.RVerdict?
    requires RestoreMay(step, w.requests[w.processes[i].request].listener, h, ok, after)
    ensures var listener := w.requests[w.processes[i].request].listener;
      Next(Moved(w, i, Restoring(step, phase), h), Go(i, ok, after, false)) ==
      Moved(w, i, Restoring(RestoreNext(step, listener, ok), phase), after)
  {
    var w1 := Moved(w, i, Restoring(step, phase), h);
    var r := w.requests[w.processes[i].request];
    var t := TargetOf(r.binding);
    assert Runs(w1, i) && w1.hosts[t] == h;
    assert w1.requests[w.processes[i].request := r] == w1.requests;
    assert w1.hosts[t := after] == w.hosts[t := after];
  }

  lemma LastCommand(w: World, i: nat, outcomes: seq<bool>, effects: seq<Host>)
    requires |outcomes| == |effects| > 0
    ensures var n := |outcomes| - 1;
      Run(w, Commands(i, outcomes, effects)) ==
      Next(Run(w, Commands(i, outcomes[..n], effects[..n])), Go(i, outcomes[n], effects[n], false))
  {
    var n := |outcomes| - 1;
    assert Commands(i, outcomes, effects)[..n] == Commands(i, outcomes[..n], effects[..n]);
  }

  /** Every restoration so allowed is a run of the step machine: the same commands take process i of any world from
    * the start of a restoration to the same point, with the same services, and change nothing else. */
  lemma {:induction false} RestorationIsARun(w: World, i: nat, phase: Option<Phase>, outcomes: seq<bool>, effects: seq<Host>)
    requires Runs(w, i) && w.processes[i].pc == Restoring(ROpen, phase)
    requires var r := w.requests[w.processes[i].request];
      Allowed(r.listener, w.hosts[TargetOf(r.binding)], outcomes, effects)
    ensures var r := w.requests[w.processes[i].request];
      Run(w, Commands(i, outcomes, effects)) ==
      Moved(w, i, Restoring(Replay(r.listener, outcomes), phase), Last(w.hosts[TargetOf(r.binding)], effects))
    decreases |outcomes|
  {
    var r := w.requests[w.processes[i].request];
    var h := w.hosts[TargetOf(r.binding)];
    if |outcomes| == 0 {
      assert w.processes[i := w.processes[i].(pc := Restoring(ROpen, phase))] == w.processes;
    } else {
      var n := |outcomes| - 1;
      RestorationIsARun(w, i, phase, outcomes[..n], effects[..n]);
      LastCommand(w, i, outcomes, effects);
      OneCommand(w, i, Replay(r.listener, outcomes[..n]), phase, Last(h, effects[..n]), outcomes[n], effects[n]);
    }
  }

  /** The command at the given point of a restoration was issued, and succeeded. */
  predicate Succeeded(listener: Option<set<string>>, outcomes: seq<bool>, at: Restore) {
    |outcomes| > 0 &&
    (Succeeded(listener, outcomes[..|outcomes| - 1], at)
     || (Replay(listener, outcomes[..|outcomes| - 1]) == at && outcomes[|outcomes| - 1]))
  }

  /** The database was probed and found open, and a listener that ran before was found to serve its services. */
  predicate Proven(listener: Option<set<string>>, outcomes: seq<bool>) {
    Succeeded(listener, outcomes, RProbe) && (listener.Some? ==> Succeeded(listener, outcomes, RVerify))
  }

  /** What has been proven at each point of a restoration. */
  lemma {:induction false} PointMeans(listener: Option<set<string>>, h: Host, outcomes: seq<bool>, effects: seq<Host>)
    requires Allowed(listener, h, outcomes, effects)
    ensures match Replay(listener, outcomes)
      case ROpen | RStartup | RProbe =>
        !Succeeded(listener, outcomes, RProbe) && !Succeeded(listener, outcomes, RVerify)
      case RStatus(health) =>
        listener.Some? && Succeeded(listener, outcomes, RProbe) == health && !Succeeded(listener, outcomes, RVerify)
      case RStart(health) =>
        listener.Some? && Succeeded(listener, outcomes, RProbe) == health && !Succeeded(listener, outcomes, RVerify)
      case RRecheck(health) =>
        listener.Some? && Succeeded(listener, outcomes, RProbe) == health && !Succeeded(listener, outcomes, RVerify)
      case RRegister | RVerify =>
        listener.Some? && Succeeded(listener, outcomes, RProbe) && !Succeeded(listener, outcomes, RVerify)
      case RVerdict(restored) => restored == Proven(listener, outcomes)
    decreases |outcomes|
  {
    if |outcomes| > 0 {
      var n := |outcomes| - 1;
      PointMeans(listener, h, outcomes[..n], effects[..n]);
    }
  }

  /** A whole restoration in the world, up to the label: recovery_required exactly if the services were not proven on
    * the way, validation_failed exactly if they were and the execution had reached the validation phase. */
  lemma LabelTellsTheRestoration(w: World, i: nat, phase: Option<Phase>, outcomes: seq<bool>, effects: seq<Host>, h': Host)
    requires Runs(w, i) && w.processes[i].pc == Restoring(ROpen, phase) && w.requests[w.processes[i].request].state.Running?
    requires var r := w.requests[w.processes[i].request];
      Allowed(r.listener, w.hosts[TargetOf(r.binding)], outcomes, effects) && Replay(r.listener, outcomes).RVerdict?
    ensures var id := w.processes[i].request; var proven := Proven(w.requests[id].listener, outcomes);
      var w' := Next(Run(w, Commands(i, outcomes, effects)), Go(i, true, h', false));
      && id in w'.requests
      && var r' := w'.requests[id];
      && (r'.state.RecoveryRequired? <==> !proven)
      && (r'.state.ValidationFailed? <==> proven && phase == Some(ValidatingRecovery))
      && (r'.state.FailedServicesRestored? <==> proven && phase != Some(ValidatingRecovery))
      && r'.sealed && r'.binding == w.requests[id].binding
      && Runs(w', i) && w'.processes[i].request == id && w'.processes[i].pc.Unlock?
  {
    var r := w.requests[w.processes[i].request];
    var h := w.hosts[TargetOf(r.binding)];
    RestorationIsARun(w, i, phase, outcomes, effects);
    PointMeans(r.listener, h, outcomes, effects);
    var w1 := Moved(w, i, Restoring(Replay(r.listener, outcomes), phase), Last(h, effects));
    assert Runs(w1, i);
  }

  /** The shell variables of a running execution, the services it works on and the state it has recorded. */
  class Execution {
    var host: Host
    var state: State
    var succeeded: bool
    var mutationStarted: bool
    var phase: Phase
    var lockOwned: bool
    const listener: Option<set<string>>
    ghost var outcomes: seq<bool>
    ghost var effects: seq<Host>

    constructor (host: Host, listener: Option<set<string>>)
      ensures this.host == host && this.listener == listener && outcomes == [] && effects == []
      ensures state == Running && !succeeded && !mutationStarted && phase == Initializing && lockOwned
    {
      this.host, this.listener, outcomes, effects := host, listener, [], [];
      state, succeeded, mutationStarted, phase, lockOwned := Running, false, false, Initializing, true;
    }

    /** The commands issued so far, from services `was`, are allowed. */
    ghost predicate Logged(was: Host)
      reads this
    {
      Allowed(listener, was, outcomes, effects) && host == Last(was, effects)
    }

    /** One external command at the given position of the step machine, with any outcome its footprint allows. */
    method Issue(step: Restore, ghost was: Host) returns (ok: bool)
      requires Logged(was) && Replay(listener, outcomes) == step && !step.RVerdict?
      modifies `host, `outcomes, `effects
      ensures Logged(was)
      ensures RestoreMay(step, listener, old(host), ok, host)
      ensures Replay(listener, outcomes) == RestoreNext(step, listener, ok)
    {
      var after: Host := *;
      ok := *;
      if !RestoreMay(step, listener, host, ok, after) { ok, after := false, host; }
      AllowedMore(listener, was, outcomes, effects, ok, after);
      host, outcomes, effects := after, outcomes + [ok], effects + [after];
    }

    /** restore_services_after_failure: the commands issued are those of the step machine up to its verdict, and a true
      * verdict proves the services. */
    method RestoreServices() returns (restored: bool)
      requires outcomes == [] && effects == []
      modifies `host, `outcomes, `effects
      ensures Logged(old(host)) && Replay(listener, outcomes) == RVerdict(restored)
      ensures restored ==> Healthy(host, listener)
    {
      ghost var was := host;
      var healthOk, listenerOk := false, true;
      var ok := Issue(ROpen, was);
      if !ok {
        ok := Issue(RStartup, was);
      }
      ok := Issue(RProbe, was);
      if ok { healthOk := true; }
      if listener.Some? {
        ok := Issue(RStatus(healthOk), was);
        if !ok {
          ok := Issue(RStart(healthOk), was);
          if !ok { listenerOk := false; }
        }
        if listenerOk {
          ok := Issue(RRecheck(healthOk), was);
          if !ok { listenerOk := false; }
        }
        if healthOk && listenerOk {
          ok := Issue(RRegister, was);
          if !ok { listenerOk := false; }
          if listenerOk {
            ok := Issue(RVerify, was);
            if !ok { listenerOk := false; }
          }
        }
      }
      restored := healthOk && listenerOk;
    }

    /** execute_exit_trap, for any failure of the execution. */
    method ExitTrap()
      requires outcomes == [] && effects == []
      modifies `host, `outcomes, `effects, `state, `lockOwned
      ensures old(succeeded) ==> host == old(host) && state == old(state) && lockOwned == old(lockOwned)
      ensures !old(succeeded) ==> !lockOwned
      ensures !old(succeeded) && !mutationStarted ==>
        host == old(host) && state == if old(state).Running? then Blocked else old(state)
      ensures !old(succeeded) && mutationStarted ==> Logged(old(host)) && Replay(listener, outcomes).RVerdict?
      ensures !old(succeeded) && mutationStarted && old(state).Completed? ==> state.Completed?
      ensures !old(succeeded) && mutationStarted && !old(state).Completed? ==>
        && state == FinalState(Replay(listener, outcomes).restored, Some(phase))
        && (!state.RecoveryRequired? ==> Healthy(host, listener))
    {
      if succeeded { return; }
      if !mutationStarted {
        if state.Running? { state := Blocked; }
        lockOwned := false;
        return;
      }
      var restored := RestoreServices();
      var failure := RecoveryRequired;
      if restored {
        failure := if phase.ValidatingRecovery? then ValidationFailed else FailedServicesRestored;
      }
      if !state.Completed? { state := failure; }
      lockOwned := false;
    }
  }
}
