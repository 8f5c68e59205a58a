/** The pull-agent work queue: records, the operations on them, and the store itself.
  *
  * Every locked section of the source is one function from queue to queue. The class
  * AgentQueueStore.QueueStore runs those sections step by step over a mutable store and is
  * proved to do what the functions say. Clocks, tokens, the enrollment registry and the sealed
  * native task are parameters.
  */
module AgentQueue {
  import opened Text

  datatype Status = Queued | Claimed | Running | Completed | ReconciliationRequired

  datatype NativeStatus = Pending | Executing | Succeeded | Failed | Unknown

  /** What the sealed plan tool reports about one task. */
  datatype NativeTask = NativeTask(plan: string, task: string, adapter: string, status: NativeStatus, retryCount: nat)

  /** SHA-256 as an injective function: claim tokens are drawn fresh and modelled by serial numbers. */
  datatype Digest = Sha256(token: nat)

  datatype JobResult = JobResult(status: string, evidence: NativeTask)

  datatype Job = Job(
    id: string, plan: string, task: string, node: string, adapter: string,
    attempt: nat, status: Status, generation: nat,
    claimedBy: Option<string>, lease: Option<int>, tokenHash: Option<Digest>, result: Option<JobResult>)

  /** `order` is the sorted directory listing, `history` the archive of earlier attempts. */
  datatype Queue = Queue(jobs: map<string, Job>, order: seq<string>, history: map<(string, nat), Job>)

  datatype Error = BadRequest | Forbidden | NotFound | Conflict

  datatype Reply = Refused(error: Error) | Idle | Granted(job: Job)

  /** Who presents which credentials; `enrolled` is the registry's verdict on the agent. */
  datatype Caller = Caller(agent: string, enrolled: bool, token: Option<nat>)

  const ADAPTERS: set<string> := {
    "database_single_instance_opatch", "database_single_instance_opatch_rollback",
    "database_rolling_opatch", "database_rac_opatch_rollback",
    "grid_rolling_opatch", "grid_rolling_opatch_rollback",
    "grid_rolling_opatchauto", "grid_rolling_opatchauto_rollback",
    "database_ojvm_opatch", "database_ojvm_opatch_rollback",
    "database_out_of_place_switch", "database_out_of_place_switchback"
  }

  predicate Alphanumeric(c: char) {
    'A' <= c <= 'Z' || 'a' <= c <= 'z' || '0' <= c <= '9'
  }

  predicate Identifier(s: string, limit: nat) {
    && 0 < |s| <= limit
    && Alphanumeric(s[0])
    && forall k | 0 < k < |s| :: Alphanumeric(s[k]) || s[k] in "._:-"
  }

  function JobId(plan: string, task: string): string {
    plan + "__" + task
  }

  predicate ValidJobId(id: string) {
    Identifier(id, 250) && forall k | 0 <= k < |id| - 1 :: !(id[k] == '.' && id[k + 1] == '.')
  }

  /** The order of `sorted(jobs.glob("*.json"))`. */
  predicate FileLess(a: string, b: string) {
    Less(a + ".json", b + ".json")
  }

  // ---- one record ----

  predicate Leased(j: Job) {
    j.status.Claimed? || j.status.Running?
  }

  /** The states that keep a node and a plan to themselves. */
  predicate Active(j: Job) {
    Leased(j) || j.status.ReconciliationRequired?
  }

  function Deadline(j: Job): int {
    if j.lease.Some? then j.lease.value else 0
  }

  predicate Lapsed(j: Job, now: int) {
    Leased(j) && Deadline(j) <= now
  }

  function Expire(j: Job, now: int): Job {
    if Lapsed(j, now) then j.(status := ReconciliationRequired) else j
  }

  function ExpireAll(jobs: map<string, Job>, now: int): map<string, Job> {
    map id | id in jobs :: Expire(jobs[id], now)
  }

  predicate Terminal(s: NativeStatus) {
    s.Succeeded? || s.Failed?
  }

  /** native_task accepts a report only for this plan, task, adapter and attempt. */
  predicate Describes(t: NativeTask, j: Job) {
    t.plan == j.plan && t.task == j.task && t.adapter == j.adapter && t.retryCount == j.attempt
  }

  predicate SucceededJob(j: Job) {
    j.status.Completed? && j.result.Some? && (j.result.value.status == "success" || j.result.value.status == "succeeded")
  }

  /** A recorded outcome that is backed by a terminal sealed task of the job's own attempt. */
  predicate Sealed(j: Job) {
    && j.result.Some?
    && Describes(j.result.value.evidence, j)
    && Terminal(j.result.value.evidence.status)
    && (SucceededJob(j.(status := Completed)) <==> j.result.value.evidence.status.Succeeded?)
  }

  predicate TokenMatches(j: Job, who: Caller) {
    && j.claimedBy == Some(who.agent)
    && who.token.Some?
    && j.tokenHash == Some(Sha256(who.token.value))
  }

  function Store(q: Queue, j: Job): Queue {
    q.(jobs := q.jobs[j.id := j])
  }

  // ---- the locked sections ----

  /** A read followed by the ownership check, which may record an expiry and still refuse. */
  function OwnedSection(q: Queue, id: string, who: Caller, now: int): (Queue, Reply) {
    if !ValidJobId(id) then (q, Refused(BadRequest))
    else if id !in q.jobs then (q, Refused(NotFound))
    else
      var j := q.jobs[id];
      if !who.enrolled then (q, Refused(Forbidden))
      else if !TokenMatches(j, who) then (q, Refused(Conflict))
      else if Lapsed(j, now) then (Store(q, Expire(j, now)), Refused(Conflict))
      else if !Leased(j) then (q, Refused(Conflict))
      else (q, Granted(j))
  }

  function Commit(q: Queue, r: Reply, f: Job -> Job): (Queue, Reply) {
    if r.Granted? then (Store(q, f(r.job)), Granted(f(r.job))) else (q, r)
  }

  function Renewed(j: Job, deadline: int): Job {
    j.(status := Running, lease := Some(deadline))
  }

  function Deferred(j: Job): Job {
    j.(status := Queued, claimedBy := None, lease := None, tokenHash := None)
  }

  function Flagged(j: Job): Job {
    j.(status := ReconciliationRequired, lease := None, tokenHash := None)
  }

  function Closed(j: Job, outcome: JobResult): Job {
    j.(status := Completed, lease := None, result := Some(outcome))
  }

  function ExtendLease(q: Queue, id: string, who: Caller, seconds: int, now: int): (Queue, Reply) {
    if !(30 <= seconds <= 3600) then (q, Refused(BadRequest))
    else
      var (q', r) := OwnedSection(q, id, who, now);
      Commit(q', r, j => Renewed(j, now + seconds))
  }

  function DeferPending(q: Queue, id: string, who: Caller, now: int): (Queue, Reply) {
    var (q', r) := OwnedSection(q, id, who, now);
    Commit(q', r, j => Deferred(j))
  }

  function RequireReconciliation(q: Queue, id: string, who: Caller, now: int): (Queue, Reply) {
    var (q', r) := OwnedSection(q, id, who, now);
    Commit(q', r, j => Flagged(j))
  }

  /** The result `complete` records for a verified terminal task. */
  function CompletionOf(t: NativeTask): JobResult {
    JobResult(if t.status.Succeeded? then "success" else "failed", t)
  }

  function Complete(q: Queue, id: string, who: Caller, t: NativeTask, now: int): (Queue, Reply) {
    var (q', r) := OwnedSection(q, id, who, now);
    Commit(q', r, j => Closed(j, CompletionOf(t)))
  }

  /** First half of `reconcile`: what must be verified is the attempt and generation seen here. */
  function ReconcileBegin(q: Queue, id: string, now: int): (Queue, Reply) {
    if !ValidJobId(id) then (q, Refused(BadRequest))
    else if id !in q.jobs then (q, Refused(NotFound))
    else
      var j := Expire(q.jobs[id], now);
      (if Lapsed(q.jobs[id], now) then Store(q, j) else q, if j.status.ReconciliationRequired? then Granted(j) else Refused(Conflict))
  }

  /** The result `reconcile` records spells success differently from `complete`. */
  function ReconciliationOf(t: NativeTask): JobResult {
    JobResult(if t.status.Succeeded? then "succeeded" else "failed", t)
  }

  function ReconcileCommit(q: Queue, seen: Job, t: NativeTask): (Queue, Reply) {
    if seen.id !in q.jobs then (q, Refused(NotFound))
    else
      var j := q.jobs[seen.id];
      if !j.status.ReconciliationRequired? || j.generation != seen.generation || j.attempt != seen.attempt
      then (q, Refused(Conflict))
      else
        var j' := Closed(j, ReconciliationOf(t));
        (Store(q, j'), Granted(j'))
  }

  // ---- publishing ----

  function NewJob(plan: string, task: string, node: string, adapter: string, attempt: nat, generation: nat): Job {
    Job(JobId(plan, task), plan, task, node, adapter, attempt, Queued, generation, None, None, None, None)
  }

  function Insert(order: seq<string>, id: string): seq<string> {
    if |order| == 0 || FileLess(id, order[0]) then [id] + order
    else [order[0]] + Insert(order[1..], id)
  }

  predicate Publishable(plan: string, task: string, node: string, adapter: string, attempt: int) {
    && Identifier(plan, 128) && Identifier(task, 128) && Identifier(node, 128)
    && adapter in ADAPTERS && attempt >= 0 && ValidJobId(JobId(plan, task))
  }

  predicate SameBinding(j: Job, plan: string, task: string, node: string, adapter: string) {
    j.node == node && j.adapter == adapter && j.plan == plan && j.task == task
  }

  function Publish(q: Queue, plan: string, task: string, node: string, adapter: string, attempt: int): (Queue, Reply) {
    if !Publishable(plan, task, node, adapter, attempt) then (q, Refused(BadRequest))
    else
      var id := JobId(plan, task);
      if id !in q.jobs then
        var j := NewJob(plan, task, node, adapter, attempt, 0);
        (Store(q, j).(order := Insert(q.order, id)), Granted(j))
      else
        var prior := q.jobs[id];
        if !SameBinding(prior, plan, task, node, adapter) then (q, Refused(Conflict))
        else if prior.attempt == attempt then (q, Granted(prior))
        else if !prior.status.Completed? || attempt != prior.attempt + 1 then (q, Refused(Conflict))
        else if (id, prior.attempt) in q.history then (q, Refused(Conflict))
        else
          var j := NewJob(plan, task, node, adapter, attempt, prior.generation);
          (Store(q, j).(history := q.history[(id, prior.attempt) := prior]), Granted(j))
  }

  /** A publication that dies after its first write: of the next attempt, the archive exists and the new record does not. */
  function PublishInterrupted(q: Queue, plan: string, task: string, node: string, adapter: string, attempt: int): Queue {
    if JobId(plan, task) in q.jobs then q.(history := Publish(q, plan, task, node, adapter, attempt).0.history) else q
  }

  // ---- claiming ----

  /** The rule the claim loop implements: nothing active on the node or in the plan, every
    * lower-numbered task of the plan completed successfully. */
  ghost predicate Eligible(jobs: map<string, Job>, node: string, id: string) {
    && id in jobs && jobs[id].node == node && jobs[id].status.Queued?
    && (forall k | k in jobs :: k != id && (jobs[k].node == node || jobs[k].plan == jobs[id].plan) ==> !Active(jobs[k]))
    && (forall k | k in jobs :: k != id && jobs[k].plan == jobs[id].plan && Less(jobs[k].task, jobs[id].task) ==> SucceededJob(jobs[k]))
  }

  ghost function FirstEligible(jobs: map<string, Job>, order: seq<string>, node: string): Option<string> {
    if |order| == 0 then None
    else if Eligible(jobs, node, order[0]) then Some(order[0])
    else FirstEligible(jobs, order[1..], node)
  }

  function ClaimedBy(j: Job, agent: string, deadline: int, token: nat): Job {
    j.(status := Claimed, claimedBy := Some(agent), lease := Some(deadline),
       generation := j.generation + 1, tokenHash := Some(Sha256(token)))
  }

  ghost function Claim(q: Queue, node: string, agent: string, seconds: int, enrolled: bool, token: nat, now: int): (Queue, Reply) {
    if !Identifier(node, 128) || !Identifier(agent, 128) || !(30 <= seconds <= 3600) then (q, Refused(BadRequest))
    else if !enrolled then (q, Refused(Forbidden))
    else
      var e := q.(jobs := ExpireAll(q.jobs, now));
      var pick := FirstEligible(e.jobs, e.order, node);
      if pick.None? || pick.value !in e.jobs then (e, Idle)
      else
        var j := ClaimedBy(e.jobs[pick.value], agent, now + seconds, token);
        (e.(jobs := e.jobs[pick.value := j]), Granted(j))
  }

  // ---- well-formed queues ----

  ghost predicate Listed(order: seq<string>, keys: set<string>) {
    && (forall i | 0 <= i < |order| :: order[i] in keys)
    && (forall k | k in keys :: k in order)
    && (forall i, j | 0 <= i < j < |order| :: FileLess(order[i], order[j]))
  }

  predicate WellNamed(j: Job) {
    j.id == JobId(j.plan, j.task) && ValidJobId(j.id)
  }

  ghost predicate WellFormed(q: Queue) {
    && Listed(q.order, q.jobs.Keys)
    && (forall id | id in q.jobs :: q.jobs[id].id == id && WellNamed(q.jobs[id]))
  }

  lemma {:induction false} FirstEligibleLeast(jobs: map<string, Job>, order: seq<string>, node: string, id: string)
    requires FirstEligible(jobs, order, node) == Some(id)
    requires forall i, j | 0 <= i < j < |order| :: FileLess(order[i], order[j])
    ensures id in order && Eligible(jobs, node, id)
    ensures forall k | k in order && k != id && Eligible(jobs, node, k) :: FileLess(id, k)
  {
    if Eligible(jobs, node, order[0]) {
      assert order[0] == id;
    } else {
      FirstEligibleLeast(jobs, order[1..], node, id);
      assert order == [order[0]] + order[1..];
    }
  }

  lemma {:induction false} FirstEligibleNone(jobs: map<string, Job>, order: seq<string>, node: string)
    requires FirstEligible(jobs, order, node).None?
    ensures forall k | k in order :: !Eligible(jobs, node, k)
  {
    if |order| > 0 {
      FirstEligibleNone(jobs, order[1..], node);
      assert order == [order[0]] + order[1..];
    }
  }

  /** The claim loop against its declarative rule: a job is handed out exactly when some job is
    * eligible, it is the eligible job with the least file name, and nothing else changes beyond expiries. */
  lemma ClaimRule(q: Queue, node: string, agent: string, seconds: int, token: nat, now: int)
    requires Listed(q.order, q.jobs.Keys) && forall id | id in q.jobs :: q.jobs[id].id == id
    requires Identifier(node, 128) && Identifier(agent, 128) && 30 <= seconds <= 3600
    ensures
      var (q', r) := Claim(q, node, agent, seconds, true, token, now);
      var e := ExpireAll(q.jobs, now);
      && q'.order == q.order && q'.history == q.history
      && (r.Granted? <==> exists id :: Eligible(e, node, id))
      && (!r.Granted? ==> r.Idle? && q'.jobs == e)
      && (r.Granted? ==>
            && Eligible(e, node, r.job.id)
            && var j := e[r.job.id];
            && r.job == j.(status := Claimed, claimedBy := Some(agent), lease := Some(now + seconds),
                           generation := j.generation + 1, tokenHash := Some(Sha256(token)))
            && q'.jobs == e[r.job.id := r.job]
            && forall k :: Eligible(e, node, k) && k != r.job.id ==> FileLess(r.job.id, k))
  {
    ClaimPicks(q, node, agent, seconds, token, now);
  }

  lemma ClaimPicks(q: Queue, node: string, agent: string, seconds: int, token: nat, now: int)
    requires Listed(q.order, q.jobs.Keys) && forall id | id in q.jobs :: q.jobs[id].id == id
    requires Identifier(node, 128) && Identifier(agent, 128) && 30 <= seconds <= 3600
    ensures
      var (q', r) := Claim(q, node, agent, seconds, true, token, now);
      var e := ExpireAll(q.jobs, now);
      && q'.order == q.order && q'.history == q.history
      && (r.Granted? <==> exists id :: Eligible(e, node, id))
      && (!r.Granted? ==> r.Idle? && q'.jobs == e)
      && (r.Granted? ==>
            && Eligible(e, node, r.job.id) && r.job == ClaimedBy(e[r.job.id], agent, now + seconds, token)
            && q'.jobs == e[r.job.id := r.job]
            && forall k :: Eligible(e, node, k) && k != r.job.id ==> FileLess(r.job.id, k))
  {
    var e := ExpireAll(q.jobs, now);
    var pick := FirstEligible(e, q.order, node);
    forall k | Eligible(e, node, k) ensures k in q.order {
    }
    if pick.None? {
      FirstEligibleNone(e, q.order, node);
    } else {
      FirstEligibleLeast(e, q.order, node, pick.value);
    }
  }
}
