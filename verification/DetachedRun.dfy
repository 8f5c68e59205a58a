/** Detached executions: polling a launch until it ends, and importing the outcome of one that ended unobserved. */
module DetachedRun {
  import opened Text
  import opened RunRegistry

  const LIVE_POLL_MAX_CONSECUTIVE_SSH_FAILURES := 6
  const LIVE_EXECUTE_TIMEOUT_SECONDS := 3600
  const LIVE_POLL_INTERVAL_SECONDS := 10

  /** What a poll of the run directory prints. */
  datatype Poll = SshFailure | Rc(line: CodeLine) | StillRunning | Missing | Dead

  datatype Polled = Exited(code: int) | LostContact | TimedOut | Vanished | DiedSilently

  /** Consecutive failed polls up to and including poll k. */
  function Failures(polls: nat -> Poll, k: nat): nat {
    if !polls(k).SshFailure? then 0 else 1 + (if k == 0 then 0 else Failures(polls, k - 1))
  }

  predicate GoesOn(polls: nat -> Poll, clock: nat -> int, start: int, k: nat) {
    match polls(k)
    case SshFailure => Failures(polls, k) < LIVE_POLL_MAX_CONSECUTIVE_SSH_FAILURES
    case StillRunning => clock(k) <= start + LIVE_EXECUTE_TIMEOUT_SECONDS
    case _ => false
  }

  function Verdict(p: Poll): Polled {
    match p
    case SshFailure => LostContact
    case StillRunning => TimedOut
    case Missing => Vanished
    case Dead => DiedSilently
    case Rc(line) => Exited(CodeRead(line))
  }

  /** _run_detached_remote: the verdict is that of the first poll that does not go on. Polls are at least an interval
    * apart, so the loop ends. */
  method RunDetachedRemote(polls: nat -> Poll, clock: nat -> int, start: int) returns (result: Polled, k: nat)
    requires forall j: nat :: clock(j) + LIVE_POLL_INTERVAL_SECONDS <= clock(j + 1)
    ensures !GoesOn(polls, clock, start, k) && forall j: nat :: j < k ==> GoesOn(polls, clock, start, j)
    ensures result == Verdict(polls(k))
  {
    var deadline := start + LIVE_EXECUTE_TIMEOUT_SECONDS;
    var sshFailures := 0;
    k := 0;
    while true
      invariant forall j: nat :: j < k ==> GoesOn(polls, clock, start, j)
      invariant sshFailures == if k == 0 then 0 else Failures(polls, k - 1)
      invariant 0 <= sshFailures < LIVE_POLL_MAX_CONSECUTIVE_SSH_FAILURES
      decreases if clock(k) <= deadline then deadline - clock(k) + 1 else 0, LIVE_POLL_MAX_CONSECUTIVE_SSH_FAILURES - sshFailures
    {
      match polls(k) {
        case SshFailure =>
          sshFailures := sshFailures + 1;
          if sshFailures >= LIVE_POLL_MAX_CONSECUTIVE_SSH_FAILURES { return LostContact, k; }
        case StillRunning =>
          sshFailures := 0;
          if clock(k) > deadline { return TimedOut, k; }
        case Missing => return Vanished, k;
        case Dead => return DiedSilently, k;
        case Rc(line) =>
          return Exited(if line.Code? then line.value else 1), k;
      }
      k := k + 1;
    }
    assert false;
  }

  // ---- results ----

  datatype Output = Blank | NotJson | Json
  datatype Parsed = Payload | PlanError

  function ParseExecutorResult(code: int, stdout: Output): Parsed {
    if stdout.NotJson? || code != 0 || stdout.Blank? then PlanError else Payload
  }

  /** What becomes of a detached run. */
  datatype Outcome = Outcome(status: Status, terminal: bool)

  /** _execute_live once the poll loop has ended: sealed is None when the sync or the task query fails or is not
    * terminal. */
  function ExecuteLive(polled: Polled, sealed: Option<bool>, planReconciled: bool, stdout: Output): Outcome {
    if !polled.Exited? || sealed.None? || (polled.code == 0) != sealed.value || !planReconciled then Outcome(Unknown, false)
    else match ParseExecutorResult(polled.code, stdout)
      case Payload => Outcome(Succeeded, true)
      case PlanError => Outcome(Failed, true)
  }

  /** What reconcile_detached_run can observe: whether the launch could be identified and its host matched, the poll,
    * the two logs, the sealed task, and whether a succeeded plan could be reconciled. */
  datatype Inspection = Inspection(identified: bool, poll: Poll, logs: Option<Output>, sealed: Option<bool>, planReconciled: bool)

  function ReconcileDetachedRun(i: Inspection): Status {
    if !i.identified then Unknown
    else if !i.poll.Rc? || i.poll.line.NoLine? then Unknown
    else if i.poll.line.Unparsable? then Unknown
    else if i.logs.None? || i.sealed.None? then Unknown
    else if (i.poll.line.value == 0) != i.sealed.value then Unknown
    else if !i.planReconciled then Unknown
    else match ParseExecutorResult(i.poll.line.value, i.logs.value)
      case Payload => Succeeded
      case PlanError => Failed
  }

  /** The observations are true of the remote run. */
  predicate Truthful(p: Poll, sealed: Option<bool>, r: Remote) {
    (p.Rc? ==> r.rc == Some(p.line)) && (sealed.Some? ==> r.sealed == sealed)
  }

  /** An inspection says succeeded exactly if the launch is identified, its exit file holds code 0, its sealed task
    * succeeded, its output is JSON and the plan is reconciled. */
  lemma InspectionSucceeds(i: Inspection)
    ensures ReconcileDetachedRun(i).Succeeded? <==>
      i.identified && i.poll == Rc(Code(0)) && i.sealed == Some(true) && i.logs == Some(Json) && i.planReconciled
  {
  }

  /** It says failed exactly if an identified launch with both logs has a readable exit code that agrees with its sealed
    * task, the plan is reconciled, and the code is not 0 or the output is blank or not JSON; otherwise it is unknown. */
  lemma InspectionFails(i: Inspection)
    ensures ReconcileDetachedRun(i).Failed? <==>
      && i.identified && i.logs.Some? && i.planReconciled
      && i.poll.Rc? && i.poll.line.Code? && i.sealed.Some? && (i.poll.line.value == 0 <==> i.sealed.value)
      && (i.poll.line.value != 0 || i.logs.value.Blank? || i.logs.value.NotJson?)
    ensures ReconcileDetachedRun(i).Succeeded? || ReconcileDetachedRun(i).Failed? || ReconcileDetachedRun(i).Unknown?
  {
  }

  /** A truthful inspection reports only what the registry lets a reconciliation commit. */
  lemma InspectionIsAdmissible(i: Inspection, r: Remote)
    requires Truthful(i.poll, i.sealed, r)
    ensures InspectionMay(r, ReconcileDetachedRun(i))
  {
  }

  /** The watcher calls a run terminal exactly when it resolves it, only on an end it may accept, and succeeded only on
    * exit code 0 and a succeeded task. Its end is verified except in exactly one case: the exit file holds no number and
    * the sealed task failed. */
  lemma WatchingIsAdmissible(p: Poll, sealed: Option<bool>, planReconciled: bool, stdout: Output, r: Remote)
    requires Truthful(p, sealed, r)
    ensures var o := ExecuteLive(Verdict(p), sealed, planReconciled, stdout);
      && (o.terminal <==> !o.status.Unknown?) && (o.terminal ==> Accepted(r))
      && (o.status.Succeeded? ==> r.rc == Some(Code(0)) && r.sealed == Some(true) && ReturnsZero(r))
      && (o.terminal && !Verified(r) <==> p.Rc? && !p.line.Code? && sealed == Some(false) && planReconciled)
  {
  }

  /** Watching a launch to its end and inspecting it later agree: if an inspection resolves it, watching it, with the
    * same sealed task and output, resolves it the same way. */
  lemma InspectionAgreesWithWatching(i: Inspection, polls: nat -> Poll, clock: nat -> int, start: int, k: nat)
    requires !GoesOn(polls, clock, start, k) && polls(k) == i.poll
    requires !ReconcileDetachedRun(i).Unknown?
    ensures ExecuteLive(Verdict(polls(k)), i.sealed, i.planReconciled, i.logs.value) == Outcome(ReconcileDetachedRun(i), true)
  {
  }

  /** And the other way: if watching resolves a launch with a readable exit code, an identified inspection with both logs
    * resolves it the same way. */
  lemma WatchingAgreesWithInspection(
    line: CodeLine, sealed: Option<bool>, planReconciled: bool, stdout: Output, polls: nat -> Poll, clock: nat -> int, start: int, k: nat)
    requires !GoesOn(polls, clock, start, k) && polls(k) == Rc(line) && line.Code?
    requires ExecuteLive(Verdict(polls(k)), sealed, planReconciled, stdout).terminal
    ensures Outcome(ReconcileDetachedRun(Inspection(true, polls(k), Some(stdout), sealed, planReconciled)), true)
      == ExecuteLive(Verdict(polls(k)), sealed, planReconciled, stdout)
  {
  }

  /** The watcher says succeeded exactly on exit code 0, a succeeded sealed task, a reconciled plan and JSON. */
  lemma WatchingSucceeds(p: Poll, sealed: Option<bool>, planReconciled: bool, stdout: Output)
    ensures ExecuteLive(Verdict(p), sealed, planReconciled, stdout).status.Succeeded? <==>
      p == Rc(Code(0)) && sealed == Some(true) && planReconciled && stdout.Json?
  {
  }

  /** It goes on through five failed polls in a row, and gives up at the sixth. */
  lemma {:induction false} SixFailures(polls: nat -> Poll, k: nat, n: nat)
    ensures Failures(polls, k) >= n <==> n <= k + 1 && forall j: nat | k < j + n && j <= k :: polls(j).SshFailure?
    decreases k
  {
    if polls(k).SshFailure? && k > 0 && n > 0 { SixFailures(polls, k - 1, n - 1); }
  }

  lemma GivesUpAtTheSixth(polls: nat -> Poll, clock: nat -> int, start: int, k: nat)
    requires polls(k).SshFailure?
    ensures GoesOn(polls, clock, start, k) <==> !(k >= 5 && forall j: nat | k - 5 <= j <= k :: polls(j).SshFailure?)
  {
    SixFailures(polls, k, 6);
  }

  /** On an exit file without a readable code they differ: watching takes it for exit code 1. */
  lemma UnreadableCode(line: CodeLine, stdout: Output)
    requires !line.Code?
    ensures ExecuteLive(Verdict(Rc(line)), Some(false), true, stdout) == Outcome(Failed, true)
    ensures ReconcileDetachedRun(Inspection(true, Rc(line), Some(stdout), Some(false), true)) == Unknown
  {
  }
}
