/** The invariant of the agent protocol and its preservation by every step. */
module AgentSafety {
  import opened Text
  import opened AgentQueue
  import opened AgentProtocol

  // ---- the invariant ----

  predicate SameTask(a: Job, b: Job) {
    a.id == b.id && a.plan == b.plan && a.task == b.task && a.node == b.node && a.adapter == b.adapter
  }

  /** From the launch of its executor until a terminal outcome of the sealed task. */
  predicate InFlight(w: Worker) {
    w.executor.Started? || w.executor.Holding? || w.executor.Abandoned?
  }

  predicate Committed(w: Worker) {
    w.pc.Launch? || InFlight(w)
  }

  /** The worker's claim generation still holds the job. */
  predicate Mine(q: Queue, w: Worker) {
    && w.claim.id in q.jobs
    && q.jobs[w.claim.id].generation == w.claim.generation
    && Active(q.jobs[w.claim.id])
  }

  predicate PendingFor(native: map<Key, NativeTask>, j: Job) {
    KeyOf(j) in native && native[KeyOf(j)].retryCount == j.attempt && native[KeyOf(j)].status.Pending?
  }

  predicate TakenFor(native: map<Key, NativeTask>, j: Job) {
    && KeyOf(j) in native && native[KeyOf(j)].retryCount == j.attempt
    && (native[KeyOf(j)].status.Executing? || native[KeyOf(j)].status.Unknown?)
  }

  /** The attempt has a terminal outcome, or has been retried since. */
  predicate SettledFor(native: map<Key, NativeTask>, j: Job) {
    && KeyOf(j) in native
    && (native[KeyOf(j)].retryCount > j.attempt || (native[KeyOf(j)].retryCount == j.attempt && Terminal(native[KeyOf(j)].status)))
  }

  /** Program points between an observed pending task and the act that relies on it. */
  predicate SawPending(pc: Pc) {
    pc.AskNext? || pc.CheckExecutable? || pc.Renew? || pc.DeferCommit?
  }

  predicate ExecutorFits(w: Worker) {
    match w.pc
    case Manual | Fresh | AskNext | CheckExecutable | Renew | Launch => w.executor.NotStarted?
    case Wait => !w.executor.NotStarted?
    case Verify => ProcessGone(w.executor)
    case DeferBegin(_) | DeferQuery(_, _) | DeferCommit(_) => w.executor.NotStarted? || w.executor.Ended?
    case MustReconcile | CompleteBegin | CompleteQuery(_) => w.executor.NotStarted? || ProcessGone(w.executor)
    case CompleteCommit(_) => w.executor.NotStarted? || w.executor.Ended?
    case Gone => true
  }

  predicate ReportFits(native: map<Key, NativeTask>, w: Worker) {
    match w.pc
    case DeferQuery(_, seen) => SameTask(seen, w.claim) && seen.attempt == w.claim.attempt
    case CompleteQuery(seen) => SameTask(seen, w.claim) && seen.attempt == w.claim.attempt
    case CompleteCommit(report) => Describes(report, w.claim) && Terminal(report.status) && SettledFor(native, w.claim)
    case _ => true
  }

  predicate WorkerOk(q: Queue, native: map<Key, NativeTask>, w: Worker) {
    && w.claim.id in q.jobs
    && SameTask(q.jobs[w.claim.id], w.claim)
    && w.claim.generation <= q.jobs[w.claim.id].generation
    && w.claim.attempt <= q.jobs[w.claim.id].attempt
    && (Mine(q, w) ==> q.jobs[w.claim.id].attempt == w.claim.attempt)
    && (Committed(w) ==> Mine(q, w))
    && (w.pc.Launch? || w.executor.Started? ==> PendingFor(native, w.claim))
    && (w.executor.Holding? || w.executor.Abandoned? ==> TakenFor(native, w.claim))
    && (SawPending(w.pc) && Mine(q, w) ==> PendingFor(native, w.claim))
    && ExecutorFits(w)
    && ReportFits(native, w)
    && 30 <= w.seconds <= 3600
  }

  predicate OperatorOk(q: Queue, native: map<Key, NativeTask>, o: Operator) {
    && (o.OperatorGone? || (o.seen.id in q.jobs && SameTask(q.jobs[o.seen.id], o.seen)))
    && (o.OperatorCommit? ==> Describes(o.report, o.seen) && Terminal(o.report.status) && SettledFor(native, o.seen))
  }

  /** A stored token digest belongs to the worker that claimed the job's current generation, and the claim is in the name
    * of its agent. */
  predicate TokenOk(workers: seq<Worker>, j: Job) {
    j.tokenHash.Some? ==>
      var t := j.tokenHash.value.token;
      t < |workers| && workers[t].claim.id == j.id && workers[t].claim.generation == j.generation
      && j.claimedBy == Some(workers[t].agent)
  }

  predicate JobOk(workers: seq<Worker>, j: Job) {
    && WellNamed(j)
    && (j.status.Completed? ==> Sealed(j))
    && TokenOk(workers, j)
  }

  ghost predicate Exclusive(jobs: map<string, Job>) {
    forall a, b | a in jobs && b in jobs && a != b && Active(jobs[a]) && Active(jobs[b]) ::
      jobs[a].node != jobs[b].node && jobs[a].plan != jobs[b].plan
  }

  /** Later claims of one job carry larger generations, and no earlier attempts. */
  ghost predicate Ordered(workers: seq<Worker>) {
    forall i, k | 0 <= i < k < |workers| && workers[i].claim.id == workers[k].claim.id ::
      workers[i].claim.generation < workers[k].claim.generation && workers[i].claim.attempt <= workers[k].claim.attempt
  }

  predicate ArchiveOk(jobs: map<string, Job>, key: (string, nat), j: Job) {
    && key.0 in jobs && SameTask(jobs[key.0], j)
    && j.attempt == key.1 && (key.1 < jobs[key.0].attempt || jobs[key.0] == j)
    && j.status.Completed? && Sealed(j)
  }

  /** The archive of a job is a gap-free run of attempts that ends just before the current one, or with the current one
    * if the publication of the next has died. */
  ghost predicate HistoryOk(q: Queue) {
    && (forall key | key in q.history :: ArchiveOk(q.jobs, key, q.history[key]))
    && (forall id, n: nat, m: nat | (id, n) in q.history && n <= m && id in q.jobs && m < q.jobs[id].attempt :: (id, m) in q.history)
  }

  ghost predicate JobsOk(s: System) {
    forall id | id in s.queue.jobs :: s.queue.jobs[id].id == id && JobOk(s.workers, s.queue.jobs[id])
  }

  ghost predicate WorkersOk(s: System) {
    forall i | 0 <= i < |s.workers| :: WorkerOk(s.queue, s.native, s.workers[i])
  }

  ghost predicate OperatorsOk(s: System) {
    forall k | 0 <= k < |s.operators| :: OperatorOk(s.queue, s.native, s.operators[k])
  }

  ghost predicate NativeOk(s: System) {
    forall key | key in s.native :: s.native[key].plan == key.0 && s.native[key].task == key.1
  }

  ghost predicate Inv(s: System) {
    && JobsOk(s) && WorkersOk(s) && OperatorsOk(s) && NativeOk(s)
    && Exclusive(s.queue.jobs) && Ordered(s.workers) && HistoryOk(s.queue)
  }

  // ---- how one job may change ----

  /** The token and its agent stay together, or the token goes. */
  predicate SameClaim(j: Job, j': Job) {
    j'.tokenHash.None? || (j'.tokenHash == j.tokenHash && j'.claimedBy == j.claimedBy)
  }

  predicate Quiet(j: Job, j': Job) {
    && SameTask(j, j') && j'.attempt == j.attempt && j'.generation == j.generation
    && (Active(j') <==> Active(j)) && SameClaim(j, j')
    && (j'.status.Completed? <==> j.status.Completed?) && j'.result == j.result && (j.status.Completed? ==> j' == j)
  }

  /** An active job is put back or finished with a sealed outcome. */
  predicate Released(j: Job, j': Job) {
    && SameTask(j, j') && j'.attempt == j.attempt && j'.generation == j.generation
    && Active(j) && !Active(j') && SameClaim(j, j')
    && (j'.status.Completed? ==> Sealed(j'))
  }

  /** q' is q with one known job replaced. */
  predicate Replaces(q: Queue, q': Queue, j': Job) {
    j'.id in q.jobs && q' == Store(q, j')
  }

  lemma WorkerKept(q: Queue, q': Queue, native: map<Key, NativeTask>, w: Worker, j': Job)
    requires WorkerOk(q, native, w) && Replaces(q, q', j')
    requires Quiet(q.jobs[j'.id], j') || (Released(q.jobs[j'.id], j') && (w.claim.id == j'.id ==> !Committed(w)))
    ensures WorkerOk(q', native, w)
  {
  }

  lemma ExclusiveKept(q: Queue, q': Queue, j': Job)
    requires Exclusive(q.jobs) && Replaces(q, q', j') && (Quiet(q.jobs[j'.id], j') || Released(q.jobs[j'.id], j'))
    ensures Exclusive(q'.jobs)
  {
  }

  lemma HistoryKept(q: Queue, q': Queue, j': Job)
    requires HistoryOk(q) && Replaces(q, q', j') && SameTask(q.jobs[j'.id], j') && q.jobs[j'.id].attempt == j'.attempt
    requires q.jobs[j'.id].status.Completed? ==> j' == q.jobs[j'.id]
    ensures HistoryOk(q')
  {
  }

  lemma QueueWorkers(s: System, q': Queue, j': Job)
    requires WorkersOk(s) && Replaces(s.queue, q', j')
    requires Quiet(s.queue.jobs[j'.id], j') || Released(s.queue.jobs[j'.id], j')
    requires Released(s.queue.jobs[j'.id], j') ==> forall i | 0 <= i < |s.workers| && s.workers[i].claim.id == j'.id :: !Committed(s.workers[i])
    ensures WorkersOk(s.(queue := q'))
  {
    forall i | 0 <= i < |s.workers| ensures WorkerOk(q', s.native, s.workers[i]) {
      WorkerKept(s.queue, q', s.native, s.workers[i], j');
    }
  }

  /** A quiet change, or a release no committed worker depends on, keeps the invariant. */
  lemma QueueStep(s: System, q': Queue, j': Job)
    requires Inv(s) && Replaces(s.queue, q', j')
    requires Quiet(s.queue.jobs[j'.id], j') || Released(s.queue.jobs[j'.id], j')
    requires Released(s.queue.jobs[j'.id], j') ==> forall i | 0 <= i < |s.workers| && s.workers[i].claim.id == j'.id :: !Committed(s.workers[i])
    ensures Inv(s.(queue := q'))
  {
    QueueWorkers(s, q', j');
    ExclusiveKept(s.queue, q', j');
    HistoryKept(s.queue, q', j');
  }

  lemma JobsKept(s: System, i: nat, w: Worker)
    requires JobsOk(s) && i < |s.workers| && w.claim == s.workers[i].claim && w.agent == s.workers[i].agent
    ensures JobsOk(WithWorker(s, i, w))
  {
  }

  /** Moving one worker on is safe when its new state fits. */
  lemma WorkerStep(s: System, i: nat, w: Worker)
    requires Inv(s) && i < |s.workers| && w.claim == s.workers[i].claim && w.agent == s.workers[i].agent
    requires WorkerOk(s.queue, s.native, w)
    ensures Inv(WithWorker(s, i, w))
  {
    JobsKept(s, i, w);
  }

  // ---- calls that present a claim token ----

  function Owner(s: System, i: nat, input: Input): (Queue, Reply)
    requires i < |s.workers|
  {
    OwnedSection(s.queue, s.workers[i].claim.id, Presenter(s, i, input), s.now)
  }

  /** The job an owner call of worker i is about to change. */
  function OwnedJob(s: System, i: nat, input: Input): Job
    requires i < |s.workers|
  {
    var r := Owner(s, i, input).1;
    if r.Granted? then r.job else s.workers[i].claim
  }

  /** The job worker i claimed, as the queue has it now. */
  function JobOf(s: System, i: nat): Job
    requires i < |s.workers| && s.workers[i].claim.id in s.queue.jobs
  {
    s.queue.jobs[s.workers[i].claim.id]
  }

  lemma WorkerFacts(s: System, i: nat)
    requires Inv(s) && i < |s.workers|
    ensures WorkerOk(s.queue, s.native, s.workers[i]) && JobOk(s.workers, JobOf(s, i)) && JobOf(s, i).id == s.workers[i].claim.id
  {
  }

  /** A granted owner call presents the token of the job's current generation, before the deadline. */
  lemma OwnedFacts(s: System, i: nat, input: Input)
    requires i < |s.workers| && WorkerOk(s.queue, s.native, s.workers[i])
    requires JobOk(s.workers, JobOf(s, i)) && JobOf(s, i).id == s.workers[i].claim.id
    ensures
      var (q', r) := Owner(s, i, input);
      && (q' == s.queue || q' == Store(s.queue, Expire(JobOf(s, i), s.now)))
      && (r.Granted? ==>
            && q' == s.queue && r.job == JobOf(s, i) && Leased(r.job) && s.now < Deadline(r.job)
            && Mine(s.queue, s.workers[i]) && r.job.attempt == s.workers[i].claim.attempt)
  {
  }

  lemma OwnerKeeps(s: System, i: nat, input: Input)
    requires Inv(s) && i < |s.workers|
    ensures Inv(s.(queue := Owner(s, i, input).0))
  {
    WorkerFacts(s, i);
    OwnedFacts(s, i, input);
    var j' := Expire(JobOf(s, i), s.now);
    QueueStep(s, Store(s.queue, j'), j');
  }

  /** An owner call that leaves its job active keeps the invariant. */
  lemma QuietCallKeeps(s: System, i: nat, input: Input, j': Job)
    requires Inv(s) && i < |s.workers|
    requires Owner(s, i, input).1.Granted? ==> Quiet(Owner(s, i, input).1.job, j')
    ensures
      var (q', r) := Owner(s, i, input);
      Inv(s.(queue := if r.Granted? then Store(q', j') else q'))
  {
    OwnerKeeps(s, i, input);
    WorkerFacts(s, i);
    OwnedFacts(s, i, input);
    if Owner(s, i, input).1.Granted? {
      QueueStep(s, Store(s.queue, j'), j');
    }
  }

  /** No other worker is committed to a job whose generation worker i holds. */
  lemma OnlyCommitted(s: System, i: nat, k: nat)
    requires Inv(s) && i < |s.workers| && k < |s.workers| && i != k
    requires Mine(s.queue, s.workers[i]) && s.workers[k].claim.id == s.workers[i].claim.id
    ensures !Mine(s.queue, s.workers[k]) && !Committed(s.workers[k])
  {
    WorkerFacts(s, k);
  }

  /** An owner call that gives its job up is safe when the worker's executor no longer needs the job. */
  lemma ReleasingCallKeeps(s: System, i: nat, input: Input, j': Job)
    requires Inv(s) && i < |s.workers| && !Committed(s.workers[i])
    requires Owner(s, i, input).1.Granted? ==> Released(Owner(s, i, input).1.job, j')
    ensures
      var (q', r) := Owner(s, i, input);
      Inv(s.(queue := if r.Granted? then Store(q', j') else q'))
  {
    OwnerKeeps(s, i, input);
    WorkerFacts(s, i);
    OwnedFacts(s, i, input);
    if Owner(s, i, input).1.Granted? {
      forall k | 0 <= k < |s.workers| && s.workers[k].claim.id == j'.id ensures !Committed(s.workers[k]) {
        if k != i {
          OnlyCommitted(s, i, k);
        }
      }
      QueueStep(s, Store(s.queue, j'), j');
    }
  }

  // ---- a worker's own steps ----

  /** The job a renewing or reconciling call writes. */
  function QuietTarget(s: System, i: nat, input: Input): Job
    requires i < |s.workers|
  {
    var j := OwnedJob(s, i, input);
    if s.workers[i].pc.MustReconcile? then Flagged(j) else Renewed(j, s.now + s.workers[i].seconds)
  }

  /** The job a deferring or completing call writes. */
  function ReleaseTarget(s: System, i: nat, input: Input): Job
    requires i < |s.workers|
  {
    var j := OwnedJob(s, i, input);
    var pc := s.workers[i].pc;
    if pc.CompleteCommit? then Closed(j, CompletionOf(pc.report)) else Deferred(j)
  }

  predicate Releasing(w: Worker) {
    w.pc.DeferCommit? || w.pc.CompleteCommit?
  }

  /** Every queue call is an ownership check followed by at most one change to the worker's job. */
  lemma QueueCallShape(s: System, i: nat, input: Input)
    requires i < |s.workers|
    ensures
      var (q', r) := Owner(s, i, input);
      var next := QueueCall(s, i, input);
      && (next.1.Granted? ==> r.Granted?)
      && (Releasing(s.workers[i]) ==> next.0 == if r.Granted? then Store(q', ReleaseTarget(s, i, input)) else q')
      && (!Releasing(s.workers[i]) ==>
            || next.0 == s.queue || next.0 == q'
            || (r.Granted? && Quiet(r.job, QuietTarget(s, i, input)) && next.0 == Store(q', QuietTarget(s, i, input))))
  {
  }

  lemma ReleaseFits(s: System, i: nat, input: Input)
    requires i < |s.workers| && WorkerOk(s.queue, s.native, s.workers[i]) && Releasing(s.workers[i])
    requires JobOk(s.workers, JobOf(s, i)) && JobOf(s, i).id == s.workers[i].claim.id
    ensures !Committed(s.workers[i])
    ensures Owner(s, i, input).1.Granted? ==> Released(Owner(s, i, input).1.job, ReleaseTarget(s, i, input))
  {
    OwnedFacts(s, i, input);
  }

  lemma QueueCallKeeps(s: System, i: nat, input: Input)
    requires Inv(s) && i < |s.workers|
    ensures Inv(s.(queue := QueueCall(s, i, input).0))
  {
    QueueCallShape(s, i, input);
    if Releasing(s.workers[i]) {
      WorkerFacts(s, i);
      ReleaseFits(s, i, input);
      ReleasingCallKeeps(s, i, input, ReleaseTarget(s, i, input));
    } else if QueueCall(s, i, input).0 == Owner(s, i, input).0 {
      OwnerKeeps(s, i, input);
    } else if QueueCall(s, i, input).0 != s.queue {
      QuietCallKeeps(s, i, input, QuietTarget(s, i, input));
    }
  }

  /** What a granted reply or a native report tells worker w. */
  predicate ReplyFits(q: Queue, native: map<Key, NativeTask>, w: Worker, r: Reply, t: Option<NativeTask>) {
    && (r.Granted? ==> SameTask(r.job, w.claim) && r.job.attempt == w.claim.attempt)
    && (r.Granted? && (w.pc.Renew? || w.pc.DeferBegin? || w.pc.CompleteBegin?) ==> Mine(q, w))
    && (t.Some? ==> KeyOf(w.claim) in native && native[KeyOf(w.claim)] == t.value && Describes(t.value, w.claim))
  }

  lemma ReplyFacts(s: System, i: nat, input: Input)
    requires i < |s.workers| && WorkerOk(s.queue, s.native, s.workers[i])
    requires JobOk(s.workers, JobOf(s, i)) && JobOf(s, i).id == s.workers[i].claim.id
    ensures ReplyFits(QueueCall(s, i, input).0, s.native, s.workers[i], QueueCall(s, i, input).1, NativeCall(s, i, input))
  {
    OwnedFacts(s, i, input);
  }

  /** Program points at which a worker asks the sealed task. */
  predicate Asks(pc: Pc) {
    pc.Fresh? || pc.Verify? || pc.DeferQuery? || pc.CompleteQuery?
  }

  /** Program points up to the end of the executor, apart from the first question. */
  predicate Early(pc: Pc) {
    pc.Manual? || pc.AskNext? || pc.CheckExecutable? || pc.Renew? || pc.Launch? || pc.Wait?
  }

  lemma FollowEarlyFits(q: Queue, native: map<Key, NativeTask>, w: Worker, r: Reply, t: Option<NativeTask>, choice: bool)
    requires WorkerOk(q, native, w) && ReplyFits(q, native, w, r, t) && Early(w.pc)
    ensures WorkerOk(q, native, Follow(w, r, t, choice))
  {
  }

  lemma FollowLateFits(q: Queue, native: map<Key, NativeTask>, w: Worker, r: Reply, t: Option<NativeTask>, choice: bool)
    requires WorkerOk(q, native, w) && ReplyFits(q, native, w, r, t) && !Early(w.pc) && !Asks(w.pc)
    ensures WorkerOk(q, native, Follow(w, r, t, choice))
  {
  }

  lemma FollowAnswerFits(q: Queue, native: map<Key, NativeTask>, w: Worker, r: Reply, t: Option<NativeTask>, choice: bool)
    requires WorkerOk(q, native, w) && ReplyFits(q, native, w, r, t) && Asks(w.pc)
    ensures WorkerOk(q, native, Follow(w, r, t, choice))
  {
  }

  /** The worker's next program point fits. */
  lemma FollowFits(q: Queue, native: map<Key, NativeTask>, w: Worker, r: Reply, t: Option<NativeTask>, choice: bool)
    requires WorkerOk(q, native, w) && ReplyFits(q, native, w, r, t)
    ensures WorkerOk(q, native, Follow(w, r, t, choice))
  {
    if Early(w.pc) {
      FollowEarlyFits(q, native, w, r, t, choice);
    } else if Asks(w.pc) {
      FollowAnswerFits(q, native, w, r, t, choice);
    } else {
      FollowLateFits(q, native, w, r, t, choice);
    }
  }

  lemma AdvanceKeeps(s: System, i: nat, input: Input)
    requires Inv(s) && i < |s.workers|
    ensures Inv(Advance(s, i, input))
  {
    var (q', r) := QueueCall(s, i, input);
    var t := NativeCall(s, i, input);
    QueueCallKeeps(s, i, input);
    WorkerFacts(s, i);
    WorkerFacts(s.(queue := q'), i);
    ReplyFacts(s, i, input);
    FollowFits(q', s.native, s.workers[i], r, t, input.choice);
    WorkerStep(s.(queue := q'), i, Follow(s.workers[i], r, t, input.choice));
  }

  // ---- publishing ----

  lemma PublishWorker(q: Queue, q': Queue, native: map<Key, NativeTask>, w: Worker, j': Job)
    requires WorkerOk(q, native, w) && q'.jobs == q.jobs[j'.id := j'] && j'.status.Queued?
    requires j'.id in q.jobs ==> SameTask(q.jobs[j'.id], j') && q.jobs[j'.id].status.Completed? && j'.generation == q.jobs[j'.id].generation && j'.attempt == q.jobs[j'.id].attempt + 1
    ensures WorkerOk(q', native, w)
  {
  }

  lemma PublishHistory(q: Queue, j': Job)
    requires HistoryOk(q) && j'.id in q.jobs && SameTask(q.jobs[j'.id], j') && j'.attempt == q.jobs[j'.id].attempt + 1
    requires q.jobs[j'.id].status.Completed? && Sealed(q.jobs[j'.id]) && (j'.id, q.jobs[j'.id].attempt) !in q.history
    ensures HistoryOk(Store(q, j').(history := q.history[(j'.id, q.jobs[j'.id].attempt) := q.jobs[j'.id]]))
  {
    var j := q.jobs[j'.id];
    var q' := Store(q, j').(history := q.history[(j'.id, j.attempt) := j]);
    forall id, n: nat, m: nat | (id, n) in q'.history && n <= m && id in q'.jobs && m < q'.jobs[id].attempt
      ensures (id, m) in q'.history
    {
      if id != j'.id {
        assert (id, n) in q.history;
      } else if m < j.attempt {
        assert (id, n) in q.history;
      }
    }
    forall key | key in q'.history ensures ArchiveOk(q'.jobs, key, q'.history[key]) {
      if key != (j'.id, j.attempt) {
        assert ArchiveOk(q.jobs, key, q.history[key]);
      }
    }
  }

  lemma PublishJobs(s: System, q': Queue, j': Job)
    requires JobsOk(s) && q'.jobs == s.queue.jobs[j'.id := j'] && j'.status.Queued? && WellNamed(j') && j'.tokenHash.None?
    ensures JobsOk(s.(queue := q'))
  {
  }

  lemma PublishWorkers(s: System, q': Queue, j': Job)
    requires WorkersOk(s) && q'.jobs == s.queue.jobs[j'.id := j'] && j'.status.Queued?
    requires j'.id in s.queue.jobs ==>
               var j := s.queue.jobs[j'.id];
               SameTask(j, j') && j.status.Completed? && j'.generation == j.generation && j'.attempt == j.attempt + 1
    ensures WorkersOk(s.(queue := q'))
  {
    forall i | 0 <= i < |s.workers| ensures WorkerOk(q', s.native, s.workers[i]) {
      PublishWorker(s.queue, q', s.native, s.workers[i], j');
    }
  }

  /** What a publication that changes the queue writes: a first attempt, or the next one with its predecessor archived. */
  predicate PublishWrites(q: Queue, q': Queue, j': Job) {
    && q'.jobs == q.jobs[j'.id := j'] && WellNamed(j') && j'.status.Queued? && j'.tokenHash.None?
    && (j'.id !in q.jobs ==> q'.history == q.history)
    && (j'.id in q.jobs ==>
          var j := q.jobs[j'.id];
          && SameTask(j, j') && j.status.Completed? && j'.generation == j.generation && j'.attempt == j.attempt + 1
          && (j.id, j.attempt) !in q.history
          && q' == Store(q, j').(history := q.history[(j.id, j.attempt) := j]))
  }

  lemma PublishEffect(q: Queue, plan: string, task: string, node: string, adapter: string, attempt: int)
    requires forall id | id in q.jobs :: q.jobs[id].id == id
    ensures
      var (q', r) := Publish(q, plan, task, node, adapter, attempt);
      q' != q ==> r.Granted? && PublishWrites(q, q', r.job)
  {
  }

  lemma PublishedHistory(s: System, q': Queue, j': Job)
    requires JobsOk(s) && HistoryOk(s.queue) && PublishWrites(s.queue, q', j')
    ensures HistoryOk(q')
  {
    if j'.id in s.queue.jobs {
      assert JobOk(s.workers, s.queue.jobs[j'.id]);
      PublishHistory(s.queue, j');
    } else {
      NewJobHistory(s.queue, q', j');
    }
  }

  lemma PublishedExclusive(q: Queue, q': Queue, j': Job)
    requires Exclusive(q.jobs) && PublishWrites(q, q', j')
    ensures Exclusive(q'.jobs)
  {
  }

  lemma PublishedKeeps(s: System, q': Queue, j': Job)
    requires Inv(s) && PublishWrites(s.queue, q', j')
    ensures Inv(s.(queue := q'))
  {
    PublishJobs(s, q', j');
    PublishWorkers(s, q', j');
    PublishedHistory(s, q', j');
    PublishedExclusive(s.queue, q', j');
  }

  lemma PublishKeeps(s: System, plan: string, task: string, node: string, adapter: string, attempt: int)
    requires Inv(s)
    ensures Inv(s.(queue := Publish(s.queue, plan, task, node, adapter, attempt).0))
  {
    var (q', r) := Publish(s.queue, plan, task, node, adapter, attempt);
    PublishEffect(s.queue, plan, task, node, adapter, attempt);
    if q' != s.queue {
      PublishedKeeps(s, q', r.job);
    }
  }

  /** What a publication that dies writes, if anything: the archive of a completed job that had none. */
  predicate ArchiveWrites(q: Queue, q': Queue, id: string) {
    && id in q.jobs && q.jobs[id].status.Completed? && (id, q.jobs[id].attempt) !in q.history
    && q' == q.(history := q.history[(id, q.jobs[id].attempt) := q.jobs[id]])
  }

  lemma InterruptedEffect(q: Queue, plan: string, task: string, node: string, adapter: string, attempt: int)
    requires forall id | id in q.jobs :: q.jobs[id].id == id
    ensures var q' := PublishInterrupted(q, plan, task, node, adapter, attempt);
      q' == q || ArchiveWrites(q, q', JobId(plan, task))
  {
  }

  lemma ArchivedHistory(q: Queue, q': Queue, id: string)
    requires HistoryOk(q) && ArchiveWrites(q, q', id) && Sealed(q.jobs[id])
    ensures HistoryOk(q')
  {
    forall key | key in q'.history ensures ArchiveOk(q'.jobs, key, q'.history[key]) {
      if key != (id, q.jobs[id].attempt) { assert ArchiveOk(q.jobs, key, q.history[key]); }
    }
    forall x, n: nat, m: nat | (x, n) in q'.history && n <= m && x in q'.jobs && m < q'.jobs[x].attempt
      ensures (x, m) in q'.history
    {
      if (x, n) in q.history { assert (x, m) in q.history; }
    }
  }

  lemma ArchivedWorkers(s: System, q': Queue)
    requires WorkersOk(s) && q'.jobs == s.queue.jobs
    ensures WorkersOk(s.(queue := q'))
  {
    forall i | 0 <= i < |s.workers| ensures WorkerOk(q', s.native, s.workers[i]) {
      assert WorkerOk(s.queue, s.native, s.workers[i]);
    }
  }

  lemma InterruptedKeeps(s: System, plan: string, task: string, node: string, adapter: string, attempt: int)
    requires Inv(s)
    ensures Inv(s.(queue := PublishInterrupted(s.queue, plan, task, node, adapter, attempt)))
  {
    var q' := PublishInterrupted(s.queue, plan, task, node, adapter, attempt);
    var id := JobId(plan, task);
    InterruptedEffect(s.queue, plan, task, node, adapter, attempt);
    if q' != s.queue {
      assert JobOk(s.workers, s.queue.jobs[id]);
      ArchivedHistory(s.queue, q', id);
      ArchivedWorkers(s, q');
    }
  }

  lemma NewJobHistory(q: Queue, q': Queue, j': Job)
    requires HistoryOk(q) && j'.id !in q.jobs && q'.jobs == q.jobs[j'.id := j'] && q'.history == q.history
    ensures HistoryOk(q')
  {
    forall key | key in q'.history ensures ArchiveOk(q'.jobs, key, q'.history[key]) {
      assert ArchiveOk(q.jobs, key, q.history[key]);
    }
  }

  // ---- claiming ----

  lemma ExpireWorker(q: Queue, native: map<Key, NativeTask>, w: Worker, now: int)
    requires WorkerOk(q, native, w)
    ensures WorkerOk(q.(jobs := ExpireAll(q.jobs, now)), native, w)
  {
  }

  lemma ExpireHistory(q: Queue, now: int)
    requires HistoryOk(q)
    ensures HistoryOk(q.(jobs := ExpireAll(q.jobs, now)))
  {
    var q' := q.(jobs := ExpireAll(q.jobs, now));
    forall key | key in q'.history ensures ArchiveOk(q'.jobs, key, q'.history[key]) {
      assert ArchiveOk(q.jobs, key, q.history[key]);
    }
  }

  lemma ExpireJobs(s: System)
    requires JobsOk(s)
    ensures JobsOk(s.(queue := s.queue.(jobs := ExpireAll(s.queue.jobs, s.now))))
  {
  }

  lemma ExpireWorkers(s: System)
    requires WorkersOk(s)
    ensures WorkersOk(s.(queue := s.queue.(jobs := ExpireAll(s.queue.jobs, s.now))))
  {
    forall i | 0 <= i < |s.workers|
      ensures WorkerOk(s.queue.(jobs := ExpireAll(s.queue.jobs, s.now)), s.native, s.workers[i])
    {
      ExpireWorker(s.queue, s.native, s.workers[i], s.now);
    }
  }

  lemma ExpireOperators(s: System)
    requires OperatorsOk(s)
    ensures OperatorsOk(s.(queue := s.queue.(jobs := ExpireAll(s.queue.jobs, s.now))))
  {
  }

  lemma ExpireExclusive(jobs: map<string, Job>, now: int)
    requires Exclusive(jobs)
    ensures Exclusive(ExpireAll(jobs, now))
  {
  }

  lemma ExpireKeeps(s: System)
    requires Inv(s)
    ensures Inv(s.(queue := s.queue.(jobs := ExpireAll(s.queue.jobs, s.now))))
  {
    ExpireJobs(s);
    ExpireWorkers(s);
    ExpireOperators(s);
    ExpireExclusive(s.queue.jobs, s.now);
    ExpireHistory(s.queue, s.now);
  }

  lemma {:induction false} FirstEligibleSound(jobs: map<string, Job>, order: seq<string>, node: string)
    ensures FirstEligible(jobs, order, node).Some? ==> Eligible(jobs, node, FirstEligible(jobs, order, node).value)
    decreases |order|
  {
    if |order| > 0 && !Eligible(jobs, node, order[0]) {
      FirstEligibleSound(jobs, order[1..], node);
    }
  }

  lemma GrantWorker(q: Queue, q': Queue, native: map<Key, NativeTask>, w: Worker, j': Job)
    requires WorkerOk(q, native, w) && Replaces(q, q', j') && q.jobs[j'.id].status.Queued?
    requires SameTask(q.jobs[j'.id], j') && j'.generation == q.jobs[j'.id].generation + 1 && j'.attempt == q.jobs[j'.id].attempt
    ensures WorkerOk(q', native, w) && (w.claim.id == j'.id ==> w.claim.generation < j'.generation && w.claim.attempt <= j'.attempt)
  {
  }

  /** Existing tokens keep pointing at the same workers when one more is added. */
  lemma GrantJobs(s: System, w: Worker, j': Job)
    requires JobsOk(s) && Replaces(s.queue, Store(s.queue, j'), j') && w.claim == j' && WellNamed(j')
    requires j'.tokenHash == Some(Sha256(|s.workers|)) && j'.claimedBy == Some(w.agent) && !j'.status.Completed?
    ensures JobsOk(s.(queue := Store(s.queue, j'), workers := s.workers + [w]))
  {
  }

  lemma GrantWorkers(s: System, w: Worker, j': Job)
    requires WorkersOk(s) && Ordered(s.workers) && Replaces(s.queue, Store(s.queue, j'), j') && s.queue.jobs[j'.id].status.Queued?
    requires SameTask(s.queue.jobs[j'.id], j') && j'.generation == s.queue.jobs[j'.id].generation + 1 && j'.attempt == s.queue.jobs[j'.id].attempt
    requires w.claim == j' && WorkerOk(Store(s.queue, j'), s.native, w)
    ensures WorkersOk(s.(queue := Store(s.queue, j'), workers := s.workers + [w]))
    ensures Ordered(s.workers + [w])
  {
    forall i | 0 <= i < |s.workers|
      ensures WorkerOk(Store(s.queue, j'), s.native, s.workers[i])
      ensures s.workers[i].claim.id == j'.id ==> s.workers[i].claim.generation < j'.generation && s.workers[i].claim.attempt <= j'.attempt
    {
      GrantWorker(s.queue, Store(s.queue, j'), s.native, s.workers[i], j');
    }
  }

  lemma GrantExclusive(jobs: map<string, Job>, node: string, id: string, j': Job)
    requires Exclusive(jobs) && Eligible(jobs, node, id) && SameTask(jobs[id], j') && jobs[id].id == id
    ensures Exclusive(jobs[id := j'])
  {
  }

  lemma GrantOperators(s: System, w: Worker, j': Job)
    requires OperatorsOk(s) && j'.id in s.queue.jobs && SameTask(s.queue.jobs[j'.id], j')
    ensures OperatorsOk(s.(queue := Store(s.queue, j'), workers := s.workers + [w]))
  {
  }

  lemma GrantedWorker(q: Queue, native: map<Key, NativeTask>, w: Worker, agent: string, deadline: int, token: nat)
    requires w.claim.id in q.jobs && w.claim == ClaimedBy(q.jobs[w.claim.id], agent, deadline, token)
    requires (w.pc.Fresh? || w.pc.Manual?) && w.executor.NotStarted? && 30 <= w.seconds <= 3600
    ensures WorkerOk(Store(q, w.claim), native, w)
  {
  }

  lemma GrantKeeps(s: System, node: string, id: string, w: Worker, j': Job)
    requires Inv(s) && Eligible(s.queue.jobs, node, id)
    requires j' == ClaimedBy(s.queue.jobs[id], w.agent, s.now + w.seconds, |s.workers|) && w.claim == j'
    requires (w.pc.Fresh? || w.pc.Manual?) && w.executor.NotStarted? && 30 <= w.seconds <= 3600
    ensures Inv(s.(queue := Store(s.queue, j'), workers := s.workers + [w]))
  {
    assert JobOk(s.workers, s.queue.jobs[id]) && j'.id == id;
    GrantJobs(s, w, j');
    GrantedWorker(s.queue, s.native, w, w.agent, s.now + w.seconds, |s.workers|);
    GrantWorkers(s, w, j');
    GrantOperators(s, w, j');
    GrantExclusive(s.queue.jobs, node, id, j');
    HistoryKept(s.queue, Store(s.queue, j'), j');
  }

  /** A claim expires leases and then hands out at most one eligible job. */
  lemma ClaimEffect(q: Queue, node: string, agent: string, seconds: int, enrolled: bool, token: nat, now: int) returns (id: string)
    ensures
      var (q', r) := Claim(q, node, agent, seconds, enrolled, token, now);
      var e := q.(jobs := ExpireAll(q.jobs, now));
      && (!r.Granted? ==> q' == q || q' == e)
      && (r.Granted? ==>
            && Eligible(e.jobs, node, id) && r.job == ClaimedBy(e.jobs[id], agent, now + seconds, token) && 30 <= seconds <= 3600
            && q' == e.(jobs := e.jobs[id := r.job]))
  {
    var pick := FirstEligible(ExpireAll(q.jobs, now), q.order, node);
    FirstEligibleSound(ExpireAll(q.jobs, now), q.order, node);
    id := if pick.Some? then pick.value else "";
  }

  lemma ClaimKeeps(s: System, node: string, agent: string, seconds: int, enrolled: bool, manual: bool)
    requires Inv(s)
    ensures Inv(ClaimStep(s, node, agent, seconds, enrolled, manual))
  {
    var id := ClaimEffect(s.queue, node, agent, seconds, enrolled, |s.workers|, s.now);
    var r := Claim(s.queue, node, agent, seconds, enrolled, |s.workers|, s.now).1;
    var s1 := s.(queue := s.queue.(jobs := ExpireAll(s.queue.jobs, s.now)));
    ExpireKeeps(s);
    if r.Granted? {
      assert s1.queue.jobs[id].id == id;
      GrantKeeps(s1, node, id, Worker(r.job, agent, seconds, if manual then Manual else Fresh, NotStarted, false), r.job);
    }
  }

  // ---- the sealed plan store and the executors ----

  /** Equal plan and task mean the same job file. */
  lemma SameKeySameJob(s: System, i: nat, k: nat)
    requires Inv(s) && i < |s.workers| && k < |s.workers| && KeyOf(s.workers[i].claim) == KeyOf(s.workers[k].claim)
    ensures s.workers[i].claim.id == s.workers[k].claim.id
  {
    WorkerFacts(s, i);
    WorkerFacts(s, k);
  }

  /** While worker i is in flight, nobody else relies on its task being pending or taken. */
  lemma OthersUnconcerned(s: System, i: nat, k: nat)
    requires Inv(s) && i < |s.workers| && k < |s.workers| && i != k && InFlight(s.workers[i])
    requires KeyOf(s.workers[i].claim) == KeyOf(s.workers[k].claim)
    ensures !Committed(s.workers[k]) && !Mine(s.queue, s.workers[k])
  {
    SameKeySameJob(s, i, k);
    WorkerFacts(s, i);
    OnlyCommitted(s, i, k);
  }

  /** The settled outcome of an attempt survives every change the plan store makes. */
  predicate NativeMove(a: NativeTask, b: NativeTask) {
    && b == a.(status := b.status, retryCount := b.retryCount)
    && ((Terminal(a.status) && b.retryCount == a.retryCount + 1) || (!Terminal(a.status) && b.retryCount == a.retryCount))
  }

  lemma NativeMoveKeeps(q: Queue, native: map<Key, NativeTask>, key: Key, t: NativeTask, w: Worker)
    requires WorkerOk(q, native, w) && key in native && NativeMove(native[key], t)
    requires KeyOf(w.claim) == key ==> !Committed(w) && !Mine(q, w)
    ensures WorkerOk(q, native[key := t], w)
  {
  }

  lemma NativeOperator(q: Queue, native: map<Key, NativeTask>, key: Key, t: NativeTask, o: Operator)
    requires OperatorOk(q, native, o) && key in native && NativeMove(native[key], t)
    ensures OperatorOk(q, native[key := t], o)
  {
  }

  /** A change of one sealed task that fits the executor driving it keeps the invariant. */
  lemma NativeStep(s: System, key: Key, t: NativeTask, i: nat, w: Worker)
    requires Inv(s) && key in s.native && NativeMove(s.native[key], t)
    requires i < |s.workers| && KeyOf(s.workers[i].claim) == key && InFlight(s.workers[i])
    requires w == s.workers[i].(executor := w.executor) && WorkerOk(s.queue, s.native[key := t], w)
    ensures Inv(WithWorker(s.(native := s.native[key := t]), i, w))
  {
    var n' := s.native[key := t];
    var s' := WithWorker(s.(native := n'), i, w);
    forall k | 0 <= k < |s.workers| ensures WorkerOk(s.queue, n', s'.workers[k]) {
      if k != i {
        if KeyOf(s.workers[k].claim) == key {
          OthersUnconcerned(s, i, k);
        }
        NativeMoveKeeps(s.queue, s.native, key, t, s.workers[k]);
      }
    }
    forall k | 0 <= k < |s.operators| ensures OperatorOk(s.queue, n', s.operators[k]) {
      NativeOperator(s.queue, s.native, key, t, s.operators[k]);
    }
    JobsKept(s, i, w);
  }

  lemma ExecutorFitsTask(q: Queue, native: map<Key, NativeTask>, w: Worker, ok: bool)
    requires WorkerOk(q, native, w) && KeyOf(w.claim) in native
    ensures
      var key := KeyOf(w.claim);
      var t := native[key];
      && (w.executor.Started? ==> WorkerOk(q, native[key := t.(status := Executing)], w.(executor := Holding)))
      && (w.executor.Started? ==> WorkerOk(q, native, w.(executor := Ended)))
      && (w.executor.Holding? ==> WorkerOk(q, native[key := t.(status := if ok then Succeeded else Failed)], w.(executor := Ended)))
      && (w.executor.Holding? ==> WorkerOk(q, native, w.(executor := Abandoned)))
  {
  }

  lemma ExecutorClaimKeeps(s: System, i: nat)
    requires Inv(s)
    ensures Inv(Next(s, ExecutorClaim(i)))
  {
    if Next(s, ExecutorClaim(i)) != s {
      WorkerFacts(s, i);
      var w := s.workers[i];
      var key := KeyOf(w.claim);
      ExecutorFitsTask(s.queue, s.native, w, false);
      NativeStep(s, key, s.native[key].(status := Executing), i, w.(executor := Holding));
    }
  }

  lemma ExecutorFinishKeeps(s: System, i: nat, ok: bool)
    requires Inv(s)
    ensures Inv(Next(s, ExecutorFinish(i, ok)))
  {
    if Next(s, ExecutorFinish(i, ok)) != s {
      WorkerFacts(s, i);
      var w := s.workers[i];
      var key := KeyOf(w.claim);
      ExecutorFitsTask(s.queue, s.native, w, ok);
      NativeStep(s, key, s.native[key].(status := if ok then Succeeded else Failed), i, w.(executor := Ended));
    }
  }

  lemma ExecutorExitKeeps(s: System, i: nat)
    requires Inv(s)
    ensures Inv(Next(s, ExecutorExit(i)))
  {
    if Next(s, ExecutorExit(i)) != s {
      WorkerFacts(s, i);
      var w := s.workers[i];
      ExecutorFitsTask(s.queue, s.native, w, false);
      WorkerStep(s, i, w.(executor := if w.executor.Started? then Ended else Abandoned));
    }
  }

  lemma ExecutorKeeps(s: System, step: Step)
    requires Inv(s) && (step.ExecutorClaim? || step.ExecutorFinish? || step.ExecutorExit?)
    ensures Inv(Next(s, step))
  {
    match step
    case ExecutorClaim(i) => ExecutorClaimKeeps(s, i);
    case ExecutorFinish(i, ok) => ExecutorFinishKeeps(s, i, ok);
    case ExecutorExit(i) => ExecutorExitKeeps(s, i);
  }

  /** What the plan store may do on its own: add a task, lose track of a running one, retry a failed one. */
  predicate StoreMove(native: map<Key, NativeTask>, native': map<Key, NativeTask>, key: Key) {
    && key in native' && native' == native[key := native'[key]]
    && (key in native ==>
          || (native[key].status.Executing? && native'[key] == native[key].(status := Unknown))
          || (native[key].status.Failed? && NativeMove(native[key], native'[key])))
  }

  lemma StoreMoveWorker(q: Queue, native: map<Key, NativeTask>, native': map<Key, NativeTask>, key: Key, w: Worker)
    requires WorkerOk(q, native, w) && StoreMove(native, native', key)
    ensures WorkerOk(q, native', w)
  {
  }

  lemma StoreMoveOperator(q: Queue, native: map<Key, NativeTask>, native': map<Key, NativeTask>, key: Key, o: Operator)
    requires OperatorOk(q, native, o) && StoreMove(native, native', key)
    ensures OperatorOk(q, native', o)
  {
  }

  lemma StoreMoveWorkers(s: System, native': map<Key, NativeTask>, key: Key)
    requires WorkersOk(s) && StoreMove(s.native, native', key)
    ensures WorkersOk(s.(native := native'))
  {
    forall k | 0 <= k < |s.workers| ensures WorkerOk(s.queue, native', s.workers[k]) {
      StoreMoveWorker(s.queue, s.native, native', key, s.workers[k]);
    }
  }

  lemma StoreMoveOperators(s: System, native': map<Key, NativeTask>, key: Key)
    requires OperatorsOk(s) && StoreMove(s.native, native', key)
    ensures OperatorsOk(s.(native := native'))
  {
    forall k | 0 <= k < |s.operators| ensures OperatorOk(s.queue, native', s.operators[k]) {
      StoreMoveOperator(s.queue, s.native, native', key, s.operators[k]);
    }
  }

  lemma StoreMoveKeeps(s: System, native': map<Key, NativeTask>, key: Key)
    requires Inv(s) && StoreMove(s.native, native', key) && native'[key].plan == key.0 && native'[key].task == key.1
    ensures Inv(s.(native := native'))
  {
    StoreMoveWorkers(s, native', key);
    StoreMoveOperators(s, native', key);
  }

  lemma PlanStoreMoves(s: System, step: Step)
    requires NativeOk(s) && (step.Dispatch? || step.LoseTrack? || step.RetryTask?) && Next(s, step) != s
    ensures var key := if step.Dispatch? then (step.plan, step.task) else step.key;
      var n' := Next(s, step).native;
      Next(s, step) == s.(native := n') && StoreMove(s.native, n', key) && n'[key].plan == key.0 && n'[key].task == key.1
  {
  }

  lemma PlanStoreKeeps(s: System, step: Step)
    requires Inv(s) && (step.Dispatch? || step.LoseTrack? || step.RetryTask?)
    ensures Inv(Next(s, step))
  {
    if Next(s, step) != s {
      PlanStoreMoves(s, step);
      StoreMoveKeeps(s, Next(s, step).native, if step.Dispatch? then (step.plan, step.task) else step.key);
    }
  }

  // ---- operators ----

  lemma BeginReconcileKeeps(s: System, id: string)
    requires Inv(s)
    ensures Inv(Next(s, BeginReconcile(id)))
  {
    var (q', r) := ReconcileBegin(s.queue, id, s.now);
    if ValidJobId(id) && id in s.queue.jobs {
      var j' := Expire(s.queue.jobs[id], s.now);
      QueueStep(s, Store(s.queue, j'), j');
      assert Inv(s.(queue := q'));
      if r.Granted? {
        AddOperator(s.(queue := q'), OperatorQuery(r.job));
      }
    }
  }

  lemma AddOperator(s: System, o: Operator)
    requires Inv(s) && OperatorOk(s.queue, s.native, o)
    ensures Inv(s.(operators := s.operators + [o]))
  {
    var s' := s.(operators := s.operators + [o]);
    assert WorkersOk(s') && JobsOk(s');
  }

  /** An operator's commit releases a job nobody is committed to: its attempt is settled. */
  lemma OperatorRelease(s: System, k: nat)
    requires Inv(s) && k < |s.operators| && s.operators[k].OperatorCommit?
    ensures Inv(s.(queue := ReconcileCommit(s.queue, s.operators[k].seen, s.operators[k].report).0))
  {
    var o := s.operators[k];
    assert OperatorOk(s.queue, s.native, o);
    if ReconcileCommit(s.queue, o.seen, o.report).1.Granted? {
      var j := s.queue.jobs[o.seen.id];
      var j' := Closed(j, ReconciliationOf(o.report));
      assert JobOk(s.workers, j) && Describes(o.report, j');
      assert Sealed(j');
      forall i | 0 <= i < |s.workers| && s.workers[i].claim.id == j'.id ensures !Committed(s.workers[i]) {
        WorkerFacts(s, i);
      }
      QueueStep(s, Store(s.queue, j'), j');
    }
  }

  lemma OperatorMoves(s: System, k: nat, o: Operator)
    requires Inv(s) && k < |s.operators| && OperatorOk(s.queue, s.native, o)
    ensures Inv(s.(operators := s.operators[k := o]))
  {
    var s' := s.(operators := s.operators[k := o]);
    assert WorkersOk(s') && JobsOk(s');
  }

  lemma OperateKeeps(s: System, k: nat, input: Input)
    requires Inv(s) && k < |s.operators|
    ensures Inv(AdvanceOperator(s, k, input))
  {
    var o := s.operators[k];
    assert OperatorOk(s.queue, s.native, o);
    if o.OperatorCommit? {
      OperatorRelease(s, k);
      OperatorMoves(s.(queue := ReconcileCommit(s.queue, o.seen, o.report).0), k, OperatorGone);
    } else if o.OperatorQuery? {
      OperatorMoves(s, k, AdvanceOperator(s, k, input).operators[k]);
    }
  }

  // ---- every step, every run ----

  lemma TickKeeps(s: System, elapsed: nat)
    requires Inv(s)
    ensures Inv(s.(now := s.now + elapsed))
  {
  }

  lemma CrashKeeps(s: System, i: nat)
    requires Inv(s) && i < |s.workers|
    ensures Inv(WithWorker(s, i, s.workers[i].(pc := Gone)))
  {
    WorkerFacts(s, i);
    WorkerStep(s, i, s.workers[i].(pc := Gone));
  }

  lemma IssueKeeps(s: System, step: Step)
    requires Inv(s) && (step.PublishTask? || step.PublishDies? || step.ClaimJob?)
    ensures Inv(Next(s, step))
  {
    match step
    case PublishTask(plan, task, node, adapter, attempt) => PublishKeeps(s, plan, task, node, adapter, attempt);
    case PublishDies(plan, task, node, adapter, attempt) => InterruptedKeeps(s, plan, task, node, adapter, attempt);
    case ClaimJob(node, agent, seconds, enrolled, manual) => ClaimKeeps(s, node, agent, seconds, enrolled, manual);
  }

  lemma ActorKeeps(s: System, step: Step)
    requires Inv(s) && (step.Act? || step.Crash?)
    ensures Inv(Next(s, step))
  {
    match step
    case Act(i, input) => if i < |s.workers| { AdvanceKeeps(s, i, input); }
    case Crash(i) => if i < |s.workers| { CrashKeeps(s, i); }
  }

  lemma OperatorKeeps(s: System, step: Step)
    requires Inv(s) && (step.BeginReconcile? || step.Operate?)
    ensures Inv(Next(s, step))
  {
    match step
    case BeginReconcile(id) => BeginReconcileKeeps(s, id);
    case Operate(k, input) => if k < |s.operators| { OperateKeeps(s, k, input); }
  }

  lemma StepKeeps(s: System, step: Step)
    requires Inv(s)
    ensures Inv(Next(s, step))
  {
    if step.Tick? {
      TickKeeps(s, step.elapsed);
    } else if step.PublishTask? || step.PublishDies? || step.ClaimJob? {
      IssueKeeps(s, step);
    } else if step.Act? || step.Crash? {
      ActorKeeps(s, step);
    } else if step.BeginReconcile? || step.Operate? {
      OperatorKeeps(s, step);
    } else if step.ExecutorClaim? || step.ExecutorFinish? || step.ExecutorExit? {
      ExecutorKeeps(s, step);
    } else {
      PlanStoreKeeps(s, step);
    }
  }

  lemma {:induction false} RunKeeps(now: int, steps: seq<Step>)
    ensures Inv(Run(Initial(now), steps))
    decreases |steps|
  {
    if |steps| > 0 {
      RunKeeps(now, steps[..|steps| - 1]);
      StepKeeps(Run(Initial(now), steps[..|steps| - 1]), steps[|steps| - 1]);
    }
  }
}
