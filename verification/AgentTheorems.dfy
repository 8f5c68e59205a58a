/** What the agent protocol guarantees over every run. */
module AgentTheorems {
  import opened Text
  import opened AgentQueue
  import opened AgentProtocol
  import opened AgentSafety

  // ---- exclusive execution ----

  /** From launch to terminal outcome a worker holds its job at its own claim generation, whatever leases,
    * heartbeats, crashes and reconciliations happened since, and the sealed task is at its attempt. */
  lemma {:induction false} InFlightHoldsJob(now: int, steps: seq<Step>, i: nat)
    requires i < |Run(Initial(now), steps).workers| && InFlight(Run(Initial(now), steps).workers[i])
    ensures
      var s := Run(Initial(now), steps);
      var w := s.workers[i];
      && w.claim.id in s.queue.jobs
      && Active(JobOf(s, i)) && JobOf(s, i).generation == w.claim.generation && JobOf(s, i).attempt == w.claim.attempt
      && KeyOf(w.claim) in s.native && s.native[KeyOf(w.claim)].retryCount == w.claim.attempt
      && !Terminal(s.native[KeyOf(w.claim)].status)
  {
    RunKeeps(now, steps);
    WorkerFacts(Run(Initial(now), steps), i);
  }

  /** Two executions in flight never share a node or a plan. */
  lemma {:induction false} InFlightExclusive(now: int, steps: seq<Step>, i: nat, k: nat)
    requires
      var s := Run(Initial(now), steps);
      i < |s.workers| && k < |s.workers| && i != k && InFlight(s.workers[i]) && InFlight(s.workers[k])
    ensures
      var s := Run(Initial(now), steps);
      s.workers[i].claim.node != s.workers[k].claim.node && s.workers[i].claim.plan != s.workers[k].claim.plan
  {
    var s := Run(Initial(now), steps);
    RunKeeps(now, steps);
    WorkerFacts(s, i);
    WorkerFacts(s, k);
    if s.workers[i].claim.id == s.workers[k].claim.id {
      OnlyCommitted(s, i, k);
    }
  }

  /** A deferral is committed only while the sealed task is still pending at the job's attempt,
    * although it was queried with the lock released. */
  lemma DeferredIsPending(now: int, steps: seq<Step>, i: nat, input: Input)
    requires
      var s := Run(Initial(now), steps);
      i < |s.workers| && s.workers[i].pc.DeferCommit? && QueueCall(s, i, input).1.Granted?
    ensures
      var s := Run(Initial(now), steps);
      PendingFor(s.native, s.workers[i].claim) && JobOf(s, i).attempt == s.workers[i].claim.attempt
  {
    var s := Run(Initial(now), steps);
    RunKeeps(now, steps);
    WorkerFacts(s, i);
    QueueCallShape(s, i, input);
    OwnedFacts(s, i, input);
  }

  // ---- sealed outcomes ----

  /** The job records the end of a sealed task of its own plan, name, adapter and attempt, and counts as succeeded exactly
    * if that task did. */
  predicate RecordsItsEnd(j: Job) {
    && j.result.Some?
    && var t := j.result.value.evidence;
       && t.plan == j.plan && t.task == j.task && t.adapter == j.adapter && t.retryCount == j.attempt
       && (t.status.Succeeded? || t.status.Failed?)
       && ((j.result.value.status == "success" || j.result.value.status == "succeeded") <==> t.status.Succeeded?)
  }

  /** Every completed job, current or archived, records a terminal sealed task of exactly its own attempt,
    * and counts as succeeded exactly when that task succeeded. */
  lemma {:induction false} CompletedIsSealed(now: int, steps: seq<Step>)
    ensures
      var q := Run(Initial(now), steps).queue;
      && (forall id | id in q.jobs && q.jobs[id].status.Completed? :: RecordsItsEnd(q.jobs[id]))
      && (forall key | key in q.history :: q.history[key].status.Completed? && RecordsItsEnd(q.history[key]))
  {
    RunKeeps(now, steps);
    var s := Run(Initial(now), steps);
    forall id | id in s.queue.jobs && s.queue.jobs[id].status.Completed? ensures Sealed(s.queue.jobs[id]) && s.queue.jobs[id].(status := Completed) == s.queue.jobs[id] {
      assert JobOk(s.workers, s.queue.jobs[id]);
    }
    forall key | key in s.queue.history ensures s.queue.history[key].status.Completed? && Sealed(s.queue.history[key]) {
      assert ArchiveOk(s.queue.jobs, key, s.queue.history[key]);
    }
  }

  // ---- what one step does to the queue ----

  datatype Change =
    | Nothing | Swept | Handed(node: string) | Changed(job: Job) | Issued(job: Job) | Archived(id: string)

  predicate Retried(j: Job, j': Job) {
    j.status.Completed? && j' == NewJob(j.plan, j.task, j.node, j.adapter, j.attempt + 1, j.generation)
  }

  /** A job is changed by the lapse of its lease, by its owner before the deadline, or by a reconciliation to a sealed outcome. */
  predicate Worked(now: int, j: Job, j': Job) {
    || j' == j
    || (Lapsed(j, now) && j' == Expire(j, now))
    || (Leased(j) && now < Deadline(j)
        && (j' == Flagged(j) || j' == Deferred(j) || (j'.lease.Some? && j' == Renewed(j, j'.lease.value))
            || (j'.result.Some? && j' == Closed(j, j'.result.value) && Sealed(j'))))
    || (j.status.ReconciliationRequired? && j'.result.Some? && j' == Closed(j, j'.result.value) && Sealed(j'))
  }

  /** A claim of an eligible job, after the sweep over lapsed leases. */
  ghost predicate HandedOut(s: System, s': System, node: string) {
    && |s'.workers| == |s.workers| + 1
    && var e := ExpireAll(s.queue.jobs, s.now);
       var c := s'.workers[|s.workers|].claim;
       && Eligible(e, node, c.id) && c.claimedBy.Some? && c.lease.Some?
       && c == ClaimedBy(s.queue.jobs[c.id], c.claimedBy.value, c.lease.value, |s.workers|)
       && s'.queue == s.queue.(jobs := e[c.id := c])
  }

  /** Everything a step can do to the queue, the claims and the clock. */
  ghost predicate Explains(s: System, s': System, c: Change) {
    && s.now <= s'.now && |s.workers| <= |s'.workers|
    && (forall i | 0 <= i < |s.workers| :: s'.workers[i].claim == s.workers[i].claim)
    && (!c.Handed? ==> |s'.workers| == |s.workers|)
    && match c
       case Nothing => s'.queue == s.queue
       case Swept => s'.queue == s.queue.(jobs := ExpireAll(s.queue.jobs, s.now))
       case Handed(node) => HandedOut(s, s', node)
       case Changed(j') => j'.id in s.queue.jobs && s'.queue == Store(s.queue, j') && Worked(s.now, s.queue.jobs[j'.id], j')
       case Issued(j') => PublishWrites(s.queue, s'.queue, j') && (j'.id in s.queue.jobs ==> Retried(s.queue.jobs[j'.id], j'))
       case Archived(id) => ArchiveWrites(s.queue, s'.queue, id)
  }

  predicate Claimed(j: Job, j': Job, token: nat) {
    j.status.Queued? && j'.claimedBy.Some? && j'.lease.Some? && j' == ClaimedBy(j, j'.claimedBy.value, j'.lease.value, token)
  }

  /** The whole life of one job: worked on, claimed under a fresh token, or replaced by its next attempt. */
  predicate Moves(now: int, token: nat, j: Job, j': Job) {
    Worked(now, j, j') || Claimed(j, j', token) || Retried(j, j')
  }

  lemma JobMoves(s: System, s': System, c: Change, id: string)
    requires JobsOk(s) && Explains(s, s', c) && id in s.queue.jobs
    ensures id in s'.queue.jobs && Moves(s.now, |s.workers|, s.queue.jobs[id], s'.queue.jobs[id])
    ensures Retried(s.queue.jobs[id], s'.queue.jobs[id]) ==> c.Issued?
  {
    match c
    case Handed(node) => assert JobOk(s.workers, s.queue.jobs[id]);
    case _ =>
  }

  lemma ActExplained(s: System, i: nat, input: Input) returns (c: Change)
    requires Inv(s) && i < |s.workers|
    ensures !c.Issued? && Explains(s, Advance(s, i, input), c)
  {
    WorkerFacts(s, i);
    c := OwnerExplained(s, i, input);
  }

  /** What an owner call writes is a move of its job. */
  lemma OwnerWorks(s: System, i: nat, input: Input)
    requires i < |s.workers| && WorkerOk(s.queue, s.native, s.workers[i])
    requires JobOk(s.workers, JobOf(s, i)) && JobOf(s, i).id == s.workers[i].claim.id
    ensures Worked(s.now, JobOf(s, i), Expire(JobOf(s, i), s.now))
    ensures Owner(s, i, input).1.Granted? && Releasing(s.workers[i]) ==> Worked(s.now, JobOf(s, i), ReleaseTarget(s, i, input))
    ensures Owner(s, i, input).1.Granted? && !Releasing(s.workers[i]) ==> Worked(s.now, JobOf(s, i), QuietTarget(s, i, input))
  {
    OwnedFacts(s, i, input);
    if Releasing(s.workers[i]) { ReleaseFits(s, i, input); }
  }

  /** A worker's step touches nothing of the queue but by its call, and leaves claims and clock alone. */
  lemma AdvanceFrame(s: System, i: nat, input: Input)
    requires i < |s.workers|
    ensures
      var s' := Advance(s, i, input);
      && s'.queue == QueueCall(s, i, input).0 && s'.now == s.now && |s'.workers| == |s.workers|
      && forall k | 0 <= k < |s.workers| :: s'.workers[k].claim == s.workers[k].claim
  {
  }

  /** What the queue becomes after a worker's call. */
  lemma CallShape(s: System, i: nat, input: Input)
    requires i < |s.workers| && WorkerOk(s.queue, s.native, s.workers[i])
    requires JobOk(s.workers, JobOf(s, i)) && JobOf(s, i).id == s.workers[i].claim.id
    ensures
      var next := QueueCall(s, i, input).0;
      var j' := if Releasing(s.workers[i]) then ReleaseTarget(s, i, input) else QuietTarget(s, i, input);
      || next == s.queue || next == Store(s.queue, Expire(JobOf(s, i), s.now))
      || (Owner(s, i, input).1.Granted? && j'.id == JobOf(s, i).id && next == Store(s.queue, j'))
  {
    OwnedFacts(s, i, input);
    QueueCallShape(s, i, input);
  }

  lemma OwnerExplained(s: System, i: nat, input: Input) returns (c: Change)
    requires i < |s.workers| && WorkerOk(s.queue, s.native, s.workers[i])
    requires JobOk(s.workers, JobOf(s, i)) && JobOf(s, i).id == s.workers[i].claim.id
    ensures !c.Issued? && Explains(s, Advance(s, i, input), c)
  {
    AdvanceFrame(s, i, input);
    CallShape(s, i, input);
    OwnerWorks(s, i, input);
    var next := QueueCall(s, i, input).0;
    if next == s.queue {
      c := Nothing;
    } else if next == Store(s.queue, Expire(JobOf(s, i), s.now)) {
      c := Changed(Expire(JobOf(s, i), s.now));
    } else {
      c := Changed(if Releasing(s.workers[i]) then ReleaseTarget(s, i, input) else QuietTarget(s, i, input));
    }
  }

  /** Handing out an eligible job is a change of its kind. */
  lemma GrantExplained(s: System, node: string, id: string, w: Worker, seconds: int)
    requires JobsOk(s) && Eligible(ExpireAll(s.queue.jobs, s.now), node, id)
    requires w.claim == ClaimedBy(ExpireAll(s.queue.jobs, s.now)[id], w.agent, s.now + seconds, |s.workers|)
    ensures
      var e := s.queue.(jobs := ExpireAll(s.queue.jobs, s.now));
      Explains(s, s.(queue := e.(jobs := e.jobs[id := w.claim]), workers := s.workers + [w]), Handed(node))
  {
    assert s.queue.jobs[id].id == id;
  }

  lemma ClaimExplained(s: System, node: string, agent: string, seconds: int, enrolled: bool, manual: bool) returns (c: Change)
    requires JobsOk(s)
    ensures !c.Issued? && Explains(s, ClaimStep(s, node, agent, seconds, enrolled, manual), c)
  {
    var id := ClaimEffect(s.queue, node, agent, seconds, enrolled, |s.workers|, s.now);
    var (q', r) := Claim(s.queue, node, agent, seconds, enrolled, |s.workers|, s.now);
    if r.Granted? {
      c := Handed(node);
      GrantExplained(s, node, id, Worker(r.job, agent, seconds, if manual then Manual else Fresh, NotStarted, false), seconds);
    } else {
      c := if q' == s.queue then Nothing else Swept;
    }
  }

  lemma PublishExplained(s: System, step: Step) returns (c: Change)
    requires JobsOk(s) && step.PublishTask?
    ensures Explains(s, Next(s, step), c) && (Next(s, step) == s ==> c.Nothing?)
    ensures Next(s, step) != s ==> c.Issued? && c.job.plan == step.plan && c.job.task == step.task
  {
    PublishEffect(s.queue, step.plan, step.task, step.node, step.adapter, step.attempt);
    var (q', r) := Publish(s.queue, step.plan, step.task, step.node, step.adapter, step.attempt);
    c := if q' == s.queue then Nothing else Issued(r.job);
  }

  lemma DeathExplained(s: System, step: Step) returns (c: Change)
    requires JobsOk(s) && step.PublishDies?
    ensures !c.Issued? && Explains(s, Next(s, step), c)
    ensures c.Archived? <==> Next(s, step) != s
    ensures c.Archived? ==> c.id == JobId(step.plan, step.task)
  {
    InterruptedEffect(s.queue, step.plan, step.task, step.node, step.adapter, step.attempt);
    c := if Next(s, step) == s then Nothing else Archived(JobId(step.plan, step.task));
  }

  lemma OperateExplained(s: System, k: nat, input: Input) returns (c: Change)
    requires JobsOk(s) && k < |s.operators| && OperatorOk(s.queue, s.native, s.operators[k])
    ensures !c.Issued? && Explains(s, AdvanceOperator(s, k, input), c)
  {
    var o := s.operators[k];
    c := Nothing;
    if o.OperatorCommit? {
      var (q', r) := ReconcileCommit(s.queue, o.seen, o.report);
      if r.Granted? {
        assert JobOk(s.workers, s.queue.jobs[o.seen.id]) && Describes(o.report, r.job);
        assert Sealed(r.job);
        c := Changed(r.job);
      }
    }
  }

  lemma BeginExplained(s: System, id: string) returns (c: Change)
    requires JobsOk(s)
    ensures !c.Issued? && Explains(s, Next(s, BeginReconcile(id)), c)
  {
    c := if Next(s, BeginReconcile(id)).queue == s.queue then Nothing else Changed(Expire(s.queue.jobs[id], s.now));
  }

  /** Steps of the environment leave the queue alone. */
  lemma IdleExplained(s: System, step: Step)
    requires !step.PublishTask? && !step.PublishDies? && !step.ClaimJob? && !step.Act? && !step.Operate? && !step.BeginReconcile?
    ensures Explains(s, Next(s, step), Nothing)
  {
  }

  /** Every step of every kind, on one page. */
  lemma StepExplained(s: System, step: Step) returns (c: Change)
    requires Inv(s)
    ensures Explains(s, Next(s, step), c)
    ensures c.Issued? <==> step.PublishTask? && Next(s, step) != s
    ensures c.Issued? ==> c.job.plan == step.plan && c.job.task == step.task
  {
    c := Nothing;
    match step
    case PublishTask(_, _, _, _, _) => c := PublishExplained(s, step);
    case PublishDies(_, _, _, _, _) => c := DeathExplained(s, step);
    case ClaimJob(node, agent, seconds, enrolled, manual) => c := ClaimExplained(s, node, agent, seconds, enrolled, manual);
    case Act(i, input) => if i < |s.workers| { c := ActExplained(s, i, input); }
    case Operate(k, input) => if k < |s.operators| { c := OperateExplained(s, k, input); }
    case BeginReconcile(id) => c := BeginExplained(s, id);
    case _ => IdleExplained(s, step);
  }

  // ---- fencing ----

  /** Worker i's token still opens its job. */
  predicate Live(s: System, i: nat)
    requires i < |s.workers|
  {
    s.workers[i].claim.id in s.queue.jobs && Opens(i, JobOf(s, i), s.now)
  }

  predicate Opens(token: nat, j: Job, now: int) {
    j.tokenHash == Some(Sha256(token)) && Leased(j) && now < Deadline(j)
  }

  lemma ClosedStaysClosed(now: int, now': int, minted: nat, token: nat, j: Job, j': Job)
    requires Moves(now, minted, j, j') && now <= now' && token < minted && !Opens(token, j, now)
    ensures !Opens(token, j', now')
  {
  }

  /** A token that does not open its job now never will again: not after a deferral, an expiry,
    * a reconciliation, a completion or a republication. */
  lemma DeadStaysDead(s: System, s': System, c: Change, i: nat)
    requires JobsOk(s) && Explains(s, s', c) && i < |s.workers| && s.workers[i].claim.id in s.queue.jobs && !Live(s, i)
    ensures !Live(s', i)
  {
    JobMoves(s, s', c, s.workers[i].claim.id);
    ClosedStaysClosed(s.now, s'.now, |s.workers|, i, JobOf(s, i), JobOf(s', i));
  }

  lemma {:induction false} DeadForever(s: System, steps: seq<Step>, i: nat)
    requires Inv(s) && i < |s.workers| && !Live(s, i)
    ensures Inv(Run(s, steps)) && i < |Run(s, steps).workers| && !Live(Run(s, steps), i)
    decreases |steps|
  {
    if |steps| > 0 {
      var s1 := Run(s, steps[..|steps| - 1]);
      DeadForever(s, steps[..|steps| - 1], i);
      StepKeeps(s1, steps[|steps| - 1]);
      WorkerFacts(s1, i);
      var c := StepExplained(s1, steps[|steps| - 1]);
      DeadStaysDead(s1, Next(s1, steps[|steps| - 1]), c, i);
    }
  }

  /** Whoever presents a token on whatever job: the call is granted only to a live token, on the job, generation
    * and attempt it was minted for. */
  lemma GrantedTokensAreLive(s: System, id: string, who: Caller)
    requires Inv(s) && OwnedSection(s.queue, id, who, s.now).1.Granted?
    ensures
      && who.token.Some? && who.token.value < |s.workers| && Live(s, who.token.value)
      && s.workers[who.token.value].claim.id == id
      && s.queue.jobs[id].generation == s.workers[who.token.value].claim.generation
      && s.queue.jobs[id].attempt == s.workers[who.token.value].claim.attempt
  {
    assert JobOk(s.workers, s.queue.jobs[id]);
    WorkerFacts(s, who.token.value);
  }

  /** Once worker i's token is dead, no call presenting it is granted in any later state, on any job, by anyone. */
  lemma {:induction false} DeadTokensRefused(now: int, before: seq<Step>, after: seq<Step>, i: nat, id: string, agent: string, enrolled: bool)
    requires i < |Run(Initial(now), before).workers| && !Live(Run(Initial(now), before), i)
    ensures
      var s := Run(Run(Initial(now), before), after);
      OwnedSection(s.queue, id, Caller(agent, enrolled, Some(i)), s.now).1.Refused?
  {
    var s0 := Run(Initial(now), before);
    RunKeeps(now, before);
    DeadForever(s0, after, i);
    var s := Run(s0, after);
    if OwnedSection(s.queue, id, Caller(agent, enrolled, Some(i)), s.now).1.Granted? {
      GrantedTokensAreLive(s, id, Caller(agent, enrolled, Some(i)));
    }
  }

  /** Claim generations of one job strictly increase from claim to claim, retries included. */
  lemma GenerationsIncrease(now: int, steps: seq<Step>, i: nat, k: nat)
    requires
      var s := Run(Initial(now), steps);
      i < k < |s.workers| && s.workers[i].claim.id == s.workers[k].claim.id
    ensures
      var s := Run(Initial(now), steps);
      && s.workers[k].claim.id in s.queue.jobs
      && s.workers[i].claim.generation < s.workers[k].claim.generation <= JobOf(s, k).generation
      && s.workers[i].claim.attempt <= s.workers[k].claim.attempt <= JobOf(s, k).attempt
  {
    RunKeeps(now, steps);
    WorkerFacts(Run(Initial(now), steps), k);
  }

  // ---- lapsed attempts ----

  /** The attempt can no longer be worked on: its lease has lapsed, it awaits reconciliation, or it is completed. */
  predicate Stopped(j: Job, now: int) {
    Lapsed(j, now) || j.status.ReconciliationRequired? || j.status.Completed?
  }

  /** Attempt a of job id is stopped or superseded. */
  predicate Spent(s: System, id: string, a: nat) {
    && id in s.queue.jobs
    && (s.queue.jobs[id].attempt > a || (s.queue.jobs[id].attempt == a && Stopped(s.queue.jobs[id], s.now)))
  }

  /** From a lapsed lease the only way on is reconciliation_required, then completed on a sealed outcome,
    * then the next attempt. */
  lemma StoppedJob(now: int, now': int, token: nat, j: Job, j': Job)
    requires Moves(now, token, j, j') && now <= now' && Stopped(j, now)
    ensures Lapsed(j, now) ==> j' == j || j' == Expire(j, now)
    ensures j.status.ReconciliationRequired? ==> j' == j || (j'.status.Completed? && Sealed(j') && j'.attempt == j.attempt)
    ensures j.status.Completed? ==> j' == j || Retried(j, j')
    ensures (Stopped(j', now') && j'.attempt == j.attempt) || (Retried(j, j') && j'.attempt == j.attempt + 1)
  {
  }

  lemma SpentStays(s: System, s': System, c: Change, id: string, a: nat)
    requires JobsOk(s) && Explains(s, s', c) && Spent(s, id, a)
    ensures Spent(s', id, a)
  {
    JobMoves(s, s', c, id);
    var j, j' := s.queue.jobs[id], s'.queue.jobs[id];
    if j.attempt == a {
      StoppedJob(s.now, s'.now, |s.workers|, j, j');
    } else {
      assert JobOk(s.workers, j);
      MovesKeepBinding(s.now, |s.workers|, j, j');
    }
  }

  /** Nothing of a spent attempt is ever claimed again. */
  lemma SpentNotClaimed(s: System, s': System, c: Change, id: string, a: nat)
    requires Explains(s, s', c) && Spent(s, id, a)
    ensures forall i | |s.workers| <= i < |s'.workers| && s'.workers[i].claim.id == id :: s'.workers[i].claim.attempt > a
  {
    if c.Handed? {
      HandedWasQueued(s, s', c);
    }
  }

  lemma HandedWasQueued(s: System, s': System, c: Change)
    requires Explains(s, s', c) && c.Handed?
    ensures
      var claim := s'.workers[|s.workers|].claim;
      claim.id in s.queue.jobs && s.queue.jobs[claim.id].status.Queued? && claim.attempt == s.queue.jobs[claim.id].attempt
  {
  }

  lemma {:induction false} SpentForever(s: System, steps: seq<Step>, id: string, a: nat)
    requires Inv(s) && Spent(s, id, a)
    ensures
      var s' := Run(s, steps);
      && Inv(s') && Spent(s', id, a) && |s.workers| <= |s'.workers|
      && (forall i | |s.workers| <= i < |s'.workers| && s'.workers[i].claim.id == id :: s'.workers[i].claim.attempt > a)
    decreases |steps|
  {
    if |steps| > 0 {
      var s1 := Run(s, steps[..|steps| - 1]);
      SpentForever(s, steps[..|steps| - 1], id, a);
      StepKeeps(s1, steps[|steps| - 1]);
      var c := StepExplained(s1, steps[|steps| - 1]);
      SpentStays(s1, Next(s1, steps[|steps| - 1]), c, id, a);
      SpentNotClaimed(s1, Next(s1, steps[|steps| - 1]), c, id, a);
    }
  }

  // ---- bindings and archives ----

  /** Publishing never rebinds a job: another plan, task, node or adapter under the same file name is refused,
    * and republishing the current attempt changes nothing. */
  lemma PublishNeverRebinds(q: Queue, plan: string, task: string, node: string, adapter: string, attempt: int)
    requires JobId(plan, task) in q.jobs && q.jobs[JobId(plan, task)].id == JobId(plan, task)
    ensures
      var j := q.jobs[JobId(plan, task)];
      var (q', r) := Publish(q, plan, task, node, adapter, attempt);
      && (!SameBinding(j, plan, task, node, adapter) ==> q' == q && r.Refused?)
      && (attempt == j.attempt ==> q' == q)
      && (q' != q ==> SameBinding(j, plan, task, node, adapter) && Retried(j, q'.jobs[j.id]) && q'.history == q.history[(j.id, j.attempt) := j])
  {
  }

  /** Two different tasks can share a file name: the separator may occur in identifiers. */
  lemma JobIdNotInjective()
    ensures JobId("a__b", "c") == JobId("a", "b__c")
    ensures Publishable("a__b", "c", "n", "database_rolling_opatch", 0) && Publishable("a", "b__c", "n", "database_rolling_opatch", 0)
  {
    var id := "a__b__c";
    assert JobId("a__b", "c") == id && JobId("a", "b__c") == id;
    assert "database_rolling_opatch" in ADAPTERS;
  }

  lemma BindingStep(s: System, s': System, c: Change, id: string)
    requires JobsOk(s) && Explains(s, s', c) && id in s.queue.jobs
    ensures
      && id in s'.queue.jobs && SameTask(s.queue.jobs[id], s'.queue.jobs[id])
      && s.queue.jobs[id].attempt <= s'.queue.jobs[id].attempt && s.queue.jobs[id].generation <= s'.queue.jobs[id].generation
  {
    JobMoves(s, s', c, id);
    assert JobOk(s.workers, s.queue.jobs[id]);
    MovesKeepBinding(s.now, |s.workers|, s.queue.jobs[id], s'.queue.jobs[id]);
  }

  lemma MovesKeepBinding(now: int, token: nat, j: Job, j': Job)
    requires Moves(now, token, j, j') && WellNamed(j)
    ensures SameTask(j, j') && j.attempt <= j'.attempt && j.generation <= j'.generation
  {
  }

  lemma HistoryStep(s: System, s': System, c: Change)
    requires HistoryOk(s.queue) && Explains(s, s', c)
    ensures forall key | key in s.queue.history :: key in s'.queue.history && s'.queue.history[key] == s.queue.history[key]
  {
    forall key | key in s.queue.history ensures ArchiveOk(s.queue.jobs, key, s.queue.history[key]) {
    }
  }

  lemma IssuedHistory(q: Queue, q': Queue, j': Job, id: string)
    requires PublishWrites(q, q', j') && id in q.jobs && (j'.id in q.jobs ==> q.jobs[j'.id].id == j'.id)
    ensures forall m: nat :: (id, m) in q'.history <==> (id, m) in q.history || (id == j'.id && m == q.jobs[id].attempt)
    ensures id == j'.id ==> (id, q.jobs[id].attempt) !in q.history
    ensures q'.jobs[id].attempt == q.jobs[id].attempt + (if id == j'.id then 1 else 0)
  {
  }

  lemma MovesKeepAttempt(now: int, token: nat, j: Job, j': Job)
    requires Moves(now, token, j, j') && !Retried(j, j')
    ensures j'.attempt == j.attempt
  {
  }

  /** The current attempt of the job is already archived: the publication of its next attempt has died. */
  predicate Wedged(q: Queue, id: string) {
    id in q.jobs && (id, q.jobs[id].attempt) in q.history
  }

  /** A step leaves a job at its attempt and its earlier archive as it is, or moves the job on and archives just that
    * attempt. */
  lemma AttemptStep(s: System, s': System, c: Change, id: string)
    requires JobsOk(s) && Explains(s, s', c) && id in s.queue.jobs
    ensures id in s'.queue.jobs
    ensures
      var a, a' := s.queue.jobs[id].attempt, s'.queue.jobs[id].attempt;
      && (a' == a || (a' == a + 1 && !Wedged(s.queue, id)))
      && (forall m: nat | m != a :: (id, m) in s'.queue.history <==> (id, m) in s.queue.history)
      && ((id, a) in s'.queue.history <==> Wedged(s.queue, id) || a' == a + 1 || c == Archived(id))
  {
    JobMoves(s, s', c, id);
    if c.Issued? {
      IssuedHistory(s.queue, s'.queue, c.job, id);
    } else {
      MovesKeepAttempt(s.now, |s.workers|, s.queue.jobs[id], s'.queue.jobs[id]);
    }
  }

  /** Over any run a job keeps its plan, task, node and adapter, the archive only grows, and what is added for the job
    * are exactly the attempts it leaves behind, and the current one if it is wedged. */
  lemma {:induction false} BindingsForever(s: System, steps: seq<Step>, id: string)
    requires Inv(s) && id in s.queue.jobs
    ensures
      var s' := Run(s, steps);
      && Inv(s') && id in s'.queue.jobs && SameTask(s.queue.jobs[id], s'.queue.jobs[id])
      && s.queue.jobs[id].attempt <= s'.queue.jobs[id].attempt && s.queue.jobs[id].generation <= s'.queue.jobs[id].generation
      && (forall key | key in s.queue.history :: key in s'.queue.history && s'.queue.history[key] == s.queue.history[key])
      && AddedJust(s, s', id)
    decreases |steps|
  {
    if |steps| > 0 {
      var s1 := Run(s, steps[..|steps| - 1]);
      BindingsForever(s, steps[..|steps| - 1], id);
      StepKeeps(s1, steps[|steps| - 1]);
      var c := StepExplained(s1, steps[|steps| - 1]);
      BindingStep(s1, Next(s1, steps[|steps| - 1]), c, id);
      HistoryStep(s1, Next(s1, steps[|steps| - 1]), c);
      AddedStep(s, s1, Next(s1, steps[|steps| - 1]), c, id);
    }
  }

  /** What is archived of the job in s' and was not in s. */
  ghost predicate AddedJust(s: System, s': System, id: string)
    requires id in s.queue.jobs && id in s'.queue.jobs
  {
    forall m: nat :: (id, m) in s'.queue.history <==>
      || (id, m) in s.queue.history || s.queue.jobs[id].attempt <= m < s'.queue.jobs[id].attempt
      || (m == s'.queue.jobs[id].attempt && Wedged(s'.queue, id))
  }

  lemma AddedStep(s: System, s1: System, s2: System, c: Change, id: string)
    requires Inv(s1) && Explains(s1, s2, c) && id in s.queue.jobs && id in s1.queue.jobs && id in s2.queue.jobs
    requires AddedJust(s, s1, id) && s.queue.jobs[id].attempt <= s1.queue.jobs[id].attempt
    ensures AddedJust(s, s2, id)
  {
    AttemptStep(s1, s2, c, id);
    NoneAhead(s1, id);
  }

  lemma NoneAhead(s: System, id: string)
    requires Inv(s) && id in s.queue.jobs
    ensures forall m: nat | (id, m) in s.queue.history :: m <= s.queue.jobs[id].attempt
  {
    forall m: nat | (id, m) in s.queue.history ensures m <= s.queue.jobs[id].attempt {
      assert ArchiveOk(s.queue.jobs, (id, m), s.queue.history[(id, m)]);
    }
  }

  /** From the step that first publishes a job on, its archive holds exactly the attempts from the one first published
    * to the one before the current, and the current one if it is wedged; each completed, sealed and bound to the same
    * task. */
  lemma {:induction false} ArchiveIsExact(now: int, before: seq<Step>, first: Step, after: seq<Step>, id: string)
    requires id !in Run(Initial(now), before).queue.jobs && id in Next(Run(Initial(now), before), first).queue.jobs
    ensures
      var s1 := Next(Run(Initial(now), before), first);
      var q := Run(s1, after).queue;
      && id in q.jobs
      && (forall m: nat :: (id, m) in q.history <==>
            s1.queue.jobs[id].attempt <= m < q.jobs[id].attempt || (m == q.jobs[id].attempt && Wedged(q, id)))
      && (forall m: nat | (id, m) in q.history ::
            && q.history[(id, m)].attempt == m && SameTask(q.jobs[id], q.history[(id, m)])
            && q.history[(id, m)].status.Completed? && Sealed(q.history[(id, m)]))
  {
    RunKeeps(now, before);
    var s0 := Run(Initial(now), before);
    var c := StepExplained(s0, first);
    NoArchiveYet(s0, Next(s0, first), c, id);
    StepKeeps(s0, first);
    BindingsForever(Next(s0, first), after, id);
    ArchivedEntries(Run(Next(s0, first), after).queue, id);
  }

  lemma NoArchiveYet(s: System, s': System, c: Change, id: string)
    requires HistoryOk(s.queue) && Explains(s, s', c) && id !in s.queue.jobs && id in s'.queue.jobs
    ensures forall m: nat :: (id, m) !in s'.queue.history
  {
    forall m: nat | (id, m) in s.queue.history ensures ArchiveOk(s.queue.jobs, (id, m), s.queue.history[(id, m)]) {
    }
  }

  lemma ArchivedEntries(q: Queue, id: string)
    requires HistoryOk(q)
    ensures forall m: nat | (id, m) in q.history :: ArchiveOk(q.jobs, (id, m), q.history[(id, m)])
  {
  }

  // ---- an interrupted publication ----

  /** No publication of the job changes anything. */
  ghost predicate PublishesNothing(q: Queue, id: string) {
    forall plan, task, node, adapter, attempt | JobId(plan, task) == id :: Publish(q, plan, task, node, adapter, attempt).0 == q
  }

  lemma WedgedStep(s: System, s': System, c: Change, id: string)
    requires JobsOk(s) && HistoryOk(s.queue) && Explains(s, s', c) && Wedged(s.queue, id)
    ensures Wedged(s'.queue, id) && s'.queue.jobs[id] == s.queue.jobs[id]
  {
    assert ArchiveOk(s.queue.jobs, (id, s.queue.jobs[id].attempt), s.queue.history[(id, s.queue.jobs[id].attempt)]);
    JobMoves(s, s', c, id);
    StoppedJob(s.now, s'.now, |s.workers|, s.queue.jobs[id], s'.queue.jobs[id]);
    AttemptStep(s, s', c, id);
  }

  lemma {:induction false} WedgedForever(s: System, steps: seq<Step>, id: string)
    requires Inv(s) && Wedged(s.queue, id)
    ensures
      var q := Run(s, steps).queue;
      Inv(Run(s, steps)) && Wedged(q, id) && q.jobs[id] == s.queue.jobs[id]
    decreases |steps|
  {
    if |steps| > 0 {
      var s1 := Run(s, steps[..|steps| - 1]);
      WedgedForever(s, steps[..|steps| - 1], id);
      StepKeeps(s1, steps[|steps| - 1]);
      var c := StepExplained(s1, steps[|steps| - 1]);
      WedgedStep(s1, Next(s1, steps[|steps| - 1]), c, id);
    }
  }

  /** If a publication of a next attempt dies between its two writes, the job keeps its completed record in every later
    * state, and no publication of it changes anything any more. */
  lemma {:induction false} InterruptedPublication(
    now: int, before: seq<Step>, plan: string, task: string, node: string, adapter: string, attempt: int, after: seq<Step>)
    ensures
      var s := Run(Initial(now), before);
      var s1 := Next(s, PublishDies(plan, task, node, adapter, attempt));
      var id := JobId(plan, task);
      var q := Run(s1, after).queue;
      s1 != s ==> id in s.queue.jobs && id in q.jobs && q.jobs[id] == s.queue.jobs[id] && q.jobs[id].status.Completed? && PublishesNothing(q, id)
  {
    var s := Run(Initial(now), before);
    var step := PublishDies(plan, task, node, adapter, attempt);
    RunKeeps(now, before);
    if Next(s, step) != s {
      var c := DeathExplained(s, step);
      StepKeeps(s, step);
      WedgedForever(Next(s, step), after, JobId(plan, task));
      NothingPublished(Run(Next(s, step), after), JobId(plan, task));
    }
  }

  lemma NothingPublished(s: System, id: string)
    requires JobsOk(s) && Wedged(s.queue, id)
    ensures PublishesNothing(s.queue, id)
  {
  }

  // ---- plan order ----

  predicate Begun(j: Job) {
    Active(j) || j.status.Completed?
  }

  /** Every active or completed task of the plan has all its lower-numbered peers completed successfully. */
  ghost predicate PlanOrdered(jobs: map<string, Job>, plan: string) {
    forall a, b | a in jobs && b in jobs && jobs[a].plan == plan && jobs[b].plan == plan
                  && Less(jobs[a].task, jobs[b].task) && Begun(jobs[b]) ::
      SucceededJob(jobs[a])
  }

  /** A publication is in time when no later task of its plan has begun. */
  ghost predicate InTime(jobs: map<string, Job>, plan: string, task: string) {
    forall b | b in jobs && jobs[b].plan == plan && Less(task, jobs[b].task) :: !Begun(jobs[b])
  }

  lemma IssueOrder(s: System, s': System, j': Job, plan: string)
    requires JobsOk(s) && Explains(s, s', Issued(j')) && PlanOrdered(s.queue.jobs, plan)
    ensures PlanOrdered(s'.queue.jobs, plan) <==> (j'.plan == plan ==> InTime(s.queue.jobs, plan, j'.task))
  {
    IssuedOrder(s.queue.jobs, j', plan);
  }

  lemma IssuedOrder(jobs: map<string, Job>, j': Job, plan: string)
    requires PlanOrdered(jobs, plan) && j'.status.Queued?
    requires j'.id in jobs ==> jobs[j'.id].task == j'.task && jobs[j'.id].plan == j'.plan && jobs[j'.id].status.Completed?
    ensures PlanOrdered(jobs[j'.id := j'], plan) <==> (j'.plan == plan ==> InTime(jobs, plan, j'.task))
  {
    LessIrreflexive(j'.task);
    var more := jobs[j'.id := j'];
    if j'.plan == plan && !InTime(jobs, plan, j'.task) {
      var b :| b in jobs && jobs[b].plan == plan && Less(j'.task, jobs[b].task) && Begun(jobs[b]);
      assert b != j'.id && more[j'.id] == j' && more[b] == jobs[b];
    }
  }

  lemma PairOrder(s: System, s': System, c: Change, plan: string, a: string, b: string)
    requires JobsOk(s) && Explains(s, s', c) && !c.Issued? && PlanOrdered(s.queue.jobs, plan)
    requires a in s.queue.jobs && b in s.queue.jobs && s.queue.jobs[a].plan == plan && s.queue.jobs[b].plan == plan
    requires Less(s.queue.jobs[a].task, s.queue.jobs[b].task) && b in s'.queue.jobs && Begun(s'.queue.jobs[b])
    ensures a in s'.queue.jobs && SucceededJob(s'.queue.jobs[a])
  {
    LessIrreflexive(s.queue.jobs[b].task);
    JobMoves(s, s', c, a);
    JobMoves(s, s', c, b);
    if Begun(s.queue.jobs[b]) {
      assert SucceededJob(s.queue.jobs[a]);
    } else {
      assert c.Handed?;
      assert SucceededJob(ExpireAll(s.queue.jobs, s.now)[a]);
    }
  }

  lemma WorkOrder(s: System, s': System, c: Change, plan: string)
    requires JobsOk(s) && Explains(s, s', c) && !c.Issued? && PlanOrdered(s.queue.jobs, plan)
    ensures PlanOrdered(s'.queue.jobs, plan)
  {
    assert s'.queue.jobs.Keys == s.queue.jobs.Keys;
    forall a, b | a in s'.queue.jobs && b in s'.queue.jobs && s'.queue.jobs[a].plan == plan && s'.queue.jobs[b].plan == plan
                  && Less(s'.queue.jobs[a].task, s'.queue.jobs[b].task) && Begun(s'.queue.jobs[b])
      ensures SucceededJob(s'.queue.jobs[a])
    {
      BindingStep(s, s', c, a);
      BindingStep(s, s', c, b);
      PairOrder(s, s', c, plan, a, b);
    }
  }

  /** In every state of the run the plan is in order. */
  ghost predicate AlwaysOrdered(s: System, steps: seq<Step>, plan: string) {
    PlanOrdered(Run(s, steps).queue.jobs, plan) && (|steps| > 0 ==> AlwaysOrdered(s, steps[..|steps| - 1], plan))
  }

  /** Every publication of the run that changes the plan is in time. */
  ghost predicate Punctual(s: System, steps: seq<Step>, plan: string) {
    |steps| > 0 ==>
      var before, last := Run(s, steps[..|steps| - 1]), steps[|steps| - 1];
      && Punctual(s, steps[..|steps| - 1], plan)
      && (last.PublishTask? && last.plan == plan && Next(before, last) != before ==> InTime(before.queue.jobs, plan, last.task))
  }

  /** A plan's tasks are executed in order throughout a run exactly when no task is published, for the first time or
    * again, after a later one has begun. A failed predecessor then blocks every later task on every node. */
  lemma {:induction false} OrderedIffPunctual(now: int, steps: seq<Step>, plan: string)
    ensures AlwaysOrdered(Initial(now), steps, plan) <==> Punctual(Initial(now), steps, plan)
    decreases |steps|
  {
    if |steps| > 0 {
      var before, last := steps[..|steps| - 1], steps[|steps| - 1];
      OrderedIffPunctual(now, before, plan);
      RunKeeps(now, before);
      var s := Run(Initial(now), before);
      var c := StepExplained(s, last);
      if AlwaysOrdered(Initial(now), before, plan) {
        assert PlanOrdered(s.queue.jobs, plan);
        if c.Issued? {
          IssueOrder(s, Next(s, last), c.job, plan);
        } else {
          WorkOrder(s, Next(s, last), c, plan);
        }
      }
    }
  }

  /** A queue with one fresh job. */
  function Single(plan: string, task: string, node: string, adapter: string): Queue {
    Queue(map[JobId(plan, task) := NewJob(plan, task, node, adapter, 0, 0)], [JobId(plan, task)], map[])
  }

  lemma SingleClaim(plan: string, task: string, node: string, adapter: string, agent: string, now: int)
    requires Publishable(plan, task, node, adapter, 0) && Identifier(agent, 128)
    ensures var (q', r) := Claim(Single(plan, task, node, adapter), node, agent, 600, true, 0, now);
      q'.jobs.Keys == {JobId(plan, task)} && SameTask(q'.jobs[JobId(plan, task)], NewJob(plan, task, node, adapter, 0, 0))
      && Active(q'.jobs[JobId(plan, task)])
  {
    var q := Single(plan, task, node, adapter);
    ClaimRule(q, node, agent, 600, 0, now);
    assert Eligible(ExpireAll(q.jobs, now), node, JobId(plan, task));
  }

  /** And plans do get out of order: a task is published and claimed before an earlier one is published. */
  lemma LatePublicationIsReached(now: int, plan: string, early: string, late: string, node: string, adapter: string, agent: string)
    requires Publishable(plan, early, node, adapter, 0) && Publishable(plan, late, node, adapter, 0) && Identifier(agent, 128)
    requires Less(early, late)
    ensures
      var steps := [PublishTask(plan, late, node, adapter, 0), ClaimJob(node, agent, 600, true, false)];
      var more := steps + [PublishTask(plan, early, node, adapter, 0)];
      !PlanOrdered(Run(Initial(now), more).queue.jobs, plan)
  {
    var x, y, z := PublishTask(plan, late, node, adapter, 0), ClaimJob(node, agent, 600, true, false), PublishTask(plan, early, node, adapter, 0);
    RunThree(Initial(now), x, y, z);
    FirstPublished(now, plan, late, node, adapter);
    FirstClaimed(Next(Initial(now), x), plan, late, node, adapter, agent);
    OtherId(plan, early, late);
    LateIsUnordered(Next(Next(Initial(now), x), y).queue, plan, early, late, node, adapter);
  }

  lemma RunThree(s: System, x: Step, y: Step, z: Step)
    ensures Run(s, [x, y] + [z]) == Next(Next(Next(s, x), y), z)
  {
    assert [] + [x] == [x] && [x] + [y] == [x, y];
    Extend(s, [], x);
    Extend(s, [x], y);
    Extend(s, [x, y], z);
  }

  lemma Extend(s: System, steps: seq<Step>, step: Step)
    ensures Run(s, steps + [step]) == Next(Run(s, steps), step)
  {
    assert (steps + [step])[..|steps|] == steps;
  }

  lemma FirstPublished(now: int, plan: string, task: string, node: string, adapter: string)
    requires Publishable(plan, task, node, adapter, 0)
    ensures Next(Initial(now), PublishTask(plan, task, node, adapter, 0)) == Initial(now).(queue := Single(plan, task, node, adapter))
  {
  }

  lemma FirstClaimed(s: System, plan: string, task: string, node: string, adapter: string, agent: string)
    requires s.queue == Single(plan, task, node, adapter) && s.workers == []
    requires Publishable(plan, task, node, adapter, 0) && Identifier(agent, 128)
    ensures var jobs := Next(s, ClaimJob(node, agent, 600, true, false)).queue.jobs;
      && jobs.Keys == {JobId(plan, task)}
      && jobs[JobId(plan, task)].plan == plan && jobs[JobId(plan, task)].task == task && Begun(jobs[JobId(plan, task)])
  {
    SingleClaim(plan, task, node, adapter, agent, s.now);
  }

  lemma OtherId(plan: string, early: string, late: string)
    requires Less(early, late)
    ensures JobId(plan, early) != JobId(plan, late)
  {
    LessIrreflexive(early);
    assert JobId(plan, early)[|plan| + 2..] == early && JobId(plan, late)[|plan| + 2..] == late;
  }

  lemma LateIsUnordered(q: Queue, plan: string, early: string, late: string, node: string, adapter: string)
    requires Publishable(plan, early, node, adapter, 0) && JobId(plan, early) !in q.jobs && JobId(plan, late) in q.jobs
    requires var b := q.jobs[JobId(plan, late)]; b.plan == plan && b.task == late && Begun(b) && Less(early, late)
    ensures !PlanOrdered(Publish(q, plan, early, node, adapter, 0).0.jobs, plan)
  {
    var jobs := Publish(q, plan, early, node, adapter, 0).0.jobs;
    assert JobId(plan, early) in jobs && JobId(plan, late) in jobs && !SucceededJob(jobs[JobId(plan, early)]);
  }
}
