/** Where the operations of the queue and the program of a worker lead: what a granted call leaves behind, who may call
  * next, and how every branch of run_once ends. */
module AgentProgress {
  import opened Text
  import opened AgentQueue
  import opened AgentProtocol
  import opened AgentSafety
  import opened AgentTheorems

  // ---- who may call after a granted call ----

  ghost predicate Named(q: Queue) {
    forall id | id in q.jobs :: q.jobs[id].id == id && WellNamed(q.jobs[id])
  }

  predicate MayCall(q: Queue, id: string, who: Caller, now: int) {
    OwnedSection(q, id, who, now).1.Granted?
  }

  /** From now on exactly this caller may work on the job, and exactly before the deadline. */
  ghost predicate OpenTo(q: Queue, id: string, who: Caller, deadline: int) {
    && (forall w: Caller, m: int :: MayCall(q, id, w, m) <==> w == who && m < deadline)
    && (forall m: int | m >= deadline ::
          var (q', r) := OwnedSection(q, id, who, m);
          r.Refused? && id in q'.jobs && q'.jobs[id].status.ReconciliationRequired?)
  }

  ghost predicate ClosedToAll(q: Queue, id: string) {
    forall w: Caller, m: int :: !MayCall(q, id, w, m)
  }

  /** The same task and attempt, with nothing said of its state. */
  predicate SameAttempt(j: Job, j': Job) {
    SameTask(j, j') && j'.attempt == j.attempt
  }

  /** Only an enrolled agent is given a job. After a claim exactly the claiming agent, with the token it was given, may work on the job, for exactly the lease. */
  lemma ClaimOpens(q: Queue, node: string, agent: string, seconds: int, enrolled: bool, token: nat, now: int)
    requires Named(q) && Claim(q, node, agent, seconds, enrolled, token, now).1.Granted?
    ensures
      var (q', r) := Claim(q, node, agent, seconds, enrolled, token, now);
      var id := r.job.id;
      && enrolled && 30 <= seconds <= 3600 && Identifier(node, 128) && Identifier(agent, 128)
      && id in q.jobs && id in q'.jobs && q'.jobs[id] == r.job
      && SameAttempt(q.jobs[id], r.job) && r.job.generation == q.jobs[id].generation + 1 && r.job.node == node
      && OpenTo(q', id, Caller(agent, true, Some(token)), now + seconds)
  {
    var id := ClaimEffect(q, node, agent, seconds, enrolled, token, now);
  }

  /** A renewal is granted exactly to whoever may call, for an admissible period, and opens the job to the same caller for
    * exactly that period. */
  lemma RenewalOpens(q: Queue, id: string, who: Caller, seconds: int, now: int)
    requires Named(q)
    ensures
      var (q', r) := ExtendLease(q, id, who, seconds, now);
      && (r.Granted? <==> 30 <= seconds <= 3600 && MayCall(q, id, who, now))
      && (r.Granted? ==>
            && id in q.jobs && q'.jobs.Keys == q.jobs.Keys && SameAttempt(q.jobs[id], q'.jobs[id])
            && q'.jobs[id].generation == q.jobs[id].generation && OpenTo(q', id, who, now + seconds))
  {
  }

  /** A deferral is granted exactly to whoever may call; then nobody may, and the job is queued as it was. */
  lemma DeferralReleases(q: Queue, id: string, who: Caller, now: int)
    requires Named(q)
    ensures
      var (q', r) := DeferPending(q, id, who, now);
      && (r.Granted? <==> MayCall(q, id, who, now))
      && (r.Granted? ==>
            && id in q.jobs && q'.jobs.Keys == q.jobs.Keys && SameAttempt(q.jobs[id], q'.jobs[id])
            && q'.jobs[id].generation == q.jobs[id].generation && q'.jobs[id].status.Queued? && ClosedToAll(q', id))
  {
  }

  /** So the next claim on the node is granted, if nothing else was in the way of the deferred job. */
  lemma DeferredIsClaimedAgain(
    q: Queue, id: string, who: Caller, now: int, agent: string, seconds: int, token: nat, later: int)
    requires WellFormed(q) && MayCall(q, id, who, now) && Identifier(q.jobs[id].node, 128)
    requires Identifier(agent, 128) && 30 <= seconds <= 3600
    requires NothingInTheWay(q.jobs, id)
    ensures Claim(DeferPending(q, id, who, now).0, q.jobs[id].node, agent, seconds, true, token, later).1.Granted?
  {
    var q' := DeferPending(q, id, who, now).0;
    assert q' == q.(jobs := q.jobs[id := Deferred(q.jobs[id])]) && q'.jobs.Keys == q.jobs.Keys;
    QueuedIsEligible(q.jobs, id, Deferred(q.jobs[id]), later);
    ClaimRule(q', q.jobs[id].node, agent, seconds, token, later);
  }

  /** Nothing else is active on the node or in the plan of the job, and its lower peers have succeeded. */
  ghost predicate NothingInTheWay(jobs: map<string, Job>, id: string)
    requires id in jobs
  {
    && (forall k | k in jobs && k != id && (jobs[k].node == jobs[id].node || jobs[k].plan == jobs[id].plan) :: !Active(jobs[k]))
    && (forall k | k in jobs && k != id && jobs[k].plan == jobs[id].plan && Less(jobs[k].task, jobs[id].task) :: SucceededJob(jobs[k]))
  }

  lemma QueuedIsEligible(jobs: map<string, Job>, id: string, j: Job, later: int)
    requires id in jobs && NothingInTheWay(jobs, id) && SameTask(jobs[id], j) && j.status.Queued?
    ensures Eligible(ExpireAll(jobs[id := j], later), jobs[id].node, id)
  {
    var e := ExpireAll(jobs[id := j], later);
    forall k | k in e && k != id ensures k in jobs && e[k] == Expire(jobs[k], later) && SameTask(jobs[k], e[k]) { }
  }

  /** A worker that gives its job up leaves it to reconciliation, and to nobody else. */
  lemma FlagStops(q: Queue, id: string, who: Caller, now: int)
    requires Named(q)
    ensures
      var (q', r) := RequireReconciliation(q, id, who, now);
      && (r.Granted? <==> MayCall(q, id, who, now))
      && (r.Granted? ==>
            && id in q.jobs && q'.jobs.Keys == q.jobs.Keys && SameAttempt(q.jobs[id], q'.jobs[id])
            && q'.jobs[id].generation == q.jobs[id].generation && Active(q'.jobs[id]) && ClosedToAll(q', id)
            && forall m: int :: ReconcileBegin(q', id, m) == (q', Granted(q'.jobs[id])))
  {
  }

  /** The job is completed with the report, and counts as succeeded exactly if the task did. */
  predicate CompletedBy(q: Queue, id: string, t: NativeTask) {
    && id in q.jobs && q.jobs[id].status.Completed?
    && q.jobs[id].result.Some? && q.jobs[id].result.value.evidence == t
    && (SucceededJob(q.jobs[id]) <==> t.status.Succeeded?)
  }

  /** A completion is granted exactly to whoever may call, and records the report. */
  lemma CompletionCloses(q: Queue, id: string, who: Caller, t: NativeTask, now: int)
    requires Named(q)
    ensures
      var (q', r) := Complete(q, id, who, t, now);
      && (r.Granted? <==> MayCall(q, id, who, now))
      && (r.Granted? ==>
            && id in q.jobs && q'.jobs.Keys == q.jobs.Keys && SameAttempt(q.jobs[id], q'.jobs[id])
            && CompletedBy(q', id, t) && ClosedToAll(q', id))
  {
  }

  /** A reconciliation that finds its job unchanged completes it in the same way. */
  lemma ReconciliationCloses(q: Queue, id: string, now: int, t: NativeTask)
    requires Named(q) && ReconcileBegin(q, id, now).1.Granted?
    ensures
      var (q1, r1) := ReconcileBegin(q, id, now);
      var (q2, r2) := ReconcileCommit(q1, r1.job, t);
      id in q.jobs && r2.Granted? && SameAttempt(q.jobs[id], q2.jobs[id]) && CompletedBy(q2, id, t)
  {
  }

  /** It does so exactly if the job still awaits reconciliation at the generation and attempt that were seen, and otherwise
    * changes nothing. */
  lemma ReconciliationIsFenced(q: Queue, seen: Job, t: NativeTask)
    requires Named(q)
    ensures
      var (q', r) := ReconcileCommit(q, seen, t);
      && (r.Granted? <==>
            && seen.id in q.jobs && q.jobs[seen.id].status.ReconciliationRequired?
            && q.jobs[seen.id].generation == seen.generation && q.jobs[seen.id].attempt == seen.attempt)
      && (r.Granted? ==> CompletedBy(q', seen.id, t))
      && (!r.Granted? ==> q' == q)
  {
  }

  // ---- publishing ----

  /** What a publication asks for can be given: a first record, the record that is there, or the next attempt of a completed
    * and not yet archived one. */
  predicate Publishes(q: Queue, plan: string, task: string, node: string, adapter: string, attempt: int) {
    var id := JobId(plan, task);
    && Publishable(plan, task, node, adapter, attempt)
    && (id in q.jobs ==>
          var j := q.jobs[id];
          && j.plan == plan && j.task == task && j.node == node && j.adapter == adapter
          && (attempt == j.attempt || (attempt == j.attempt + 1 && j.status.Completed? && (id, j.attempt) !in q.history)))
  }

  /** A publication is granted exactly then, and leaves the job at the attempt it names: as it was, or queued with nobody's
    * claim on it, under the generation it had. */
  lemma PublicationAdvances(q: Queue, plan: string, task: string, node: string, adapter: string, attempt: int)
    requires Named(q)
    ensures
      var (q', r) := Publish(q, plan, task, node, adapter, attempt);
      var id := JobId(plan, task);
      && (r.Granted? <==> Publishes(q, plan, task, node, adapter, attempt))
      && (r.Granted? ==>
            && id in q'.jobs && r.job == q'.jobs[id] && q'.jobs[id].attempt == attempt
            && q'.jobs[id].plan == plan && q'.jobs[id].task == task && q'.jobs[id].node == node && q'.jobs[id].adapter == adapter
            && (id in q.jobs && q.jobs[id].attempt == attempt ==> q' == q)
            && (id !in q.jobs || q.jobs[id].attempt != attempt ==>
                  && q'.jobs[id].status.Queued? && q'.jobs[id].result.None? && ClosedToAll(q', id)
                  && q'.jobs[id].generation == (if id in q.jobs then q.jobs[id].generation else 0)
                  && (id in q.jobs ==> (id, q.jobs[id].attempt) in q'.history)))
  {
  }
}
