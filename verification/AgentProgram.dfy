/** How every branch of run_once ends while its calls are granted, and why a worker ever gives its job up. */
module AgentProgram {
  import opened Text
  import opened AgentQueue
  import opened AgentProtocol
  import opened AgentSafety
  import opened AgentTheorems
  import opened AgentProgress

  // ---- one worker with nobody else moving ----

  /** An act of worker i by an enrolled agent, with the native tool answering. */
  function Acts(i: nat, choice: bool): Step {
    Act(i, Input(true, true, choice))
  }

  lemma RunNothing(s: System)
    ensures Run(s, []) == s
  {
  }

  lemma {:induction false} RunAfter(s: System, step: Step, steps: seq<Step>)
    ensures Run(s, [step] + steps) == Run(Next(s, step), steps)
    decreases |steps|
  {
    if |steps| == 0 {
      assert [step] + steps == [step] && [step][..0] == [];
    } else {
      RunAfter(s, step, steps[..|steps| - 1]);
      assert ([step] + steps)[..|steps|] == [step] + steps[..|steps| - 1];
    }
  }

  /** Worker i holds its job: its agent may call with its token now. */
  ghost predicate Holds(s: System, i: nat) {
    && i < |s.workers| && s.workers[i].claim.id in s.queue.jobs
    && JobOf(s, i).id == s.workers[i].claim.id && WellNamed(JobOf(s, i)) && SameAttempt(s.workers[i].claim, JobOf(s, i))
    && Opens(i, JobOf(s, i), s.now) && JobOf(s, i).claimedBy == Some(s.workers[i].agent)
  }

  lemma LiveHolds(s: System, i: nat)
    requires Inv(s) && i < |s.workers| && Live(s, i)
    ensures Holds(s, i)
  {
    WorkerFacts(s, i);
  }

  lemma HolderCalls(s: System, i: nat, choice: bool)
    requires Holds(s, i)
    ensures Owner(s, i, Input(true, true, choice)) == (s.queue, Granted(JobOf(s, i)))
  {
  }

  /** The worker moves on, and nothing else. */
  function Moved(s: System, i: nat, pc: Pc): System
    requires i < |s.workers|
  {
    WithWorker(s, i, s.workers[i].(pc := pc))
  }

  lemma MovedHolds(s: System, i: nat, pc: Pc)
    requires Holds(s, i)
    ensures Holds(Moved(s, i, pc), i) && JobOf(Moved(s, i, pc), i) == JobOf(s, i)
    ensures forall pc' :: Moved(Moved(s, i, pc), i, pc') == Moved(s, i, pc')
  {
  }

  /** The sealed task of the job's plan and name, if it is for the job's adapter and attempt. */
  function ReportFor(native: map<Key, NativeTask>, j: Job): Option<NativeTask> {
    if (j.plan, j.task) in native
       && var t := native[(j.plan, j.task)];
          t.plan == j.plan && t.task == j.task && t.adapter == j.adapter && t.retryCount == j.attempt
    then Some(native[(j.plan, j.task)]) else None
  }

  function ReportOf(s: System, i: nat): Option<NativeTask>
    requires i < |s.workers|
  {
    ReportFor(s.native, s.workers[i].claim)
  }

  // ---- the three ways out ----

  /** The end of a run: the worker is gone, and its job is as it says. */
  predicate Left(s: System, i: nat, id: string) {
    i < |s.workers| && s.workers[i].pc.Gone? && id in s.queue.jobs
  }

  lemma CompletionActs(s: System, i: nat, t: NativeTask, c: bool)
    requires Holds(s, i) && ReportOf(s, i) == Some(t) && Terminal(t.status)
    ensures s.workers[i].pc == CompleteBegin ==> Next(s, Acts(i, c)) == Moved(s, i, CompleteQuery(JobOf(s, i)))
    ensures s.workers[i].pc == CompleteQuery(JobOf(s, i)) ==> Next(s, Acts(i, c)) == Moved(s, i, CompleteCommit(t))
  {
    HolderCalls(s, i, c);
  }

  lemma CommitsCompletion(s: System, i: nat, t: NativeTask, c: bool)
    requires Holds(s, i) && s.workers[i].pc == CompleteCommit(t)
    ensures var s' := Next(s, Acts(i, c)); Left(s', i, s.workers[i].claim.id) && CompletedBy(s'.queue, s.workers[i].claim.id, t)
  {
    HolderCalls(s, i, c);
  }

  /** From CompleteBegin three acts complete the job with the terminal report of its attempt. */
  lemma Completes(s: System, i: nat, t: NativeTask, c: bool)
    requires Holds(s, i) && s.workers[i].pc == CompleteBegin && ReportOf(s, i) == Some(t) && Terminal(t.status)
    ensures var s' := Run(s, [Acts(i, c), Acts(i, c), Acts(i, c)]);
      Left(s', i, s.workers[i].claim.id) && CompletedBy(s'.queue, s.workers[i].claim.id, t)
  {
    var a := Acts(i, c);
    CompletionActs(s, i, t, c);
    MovedHolds(s, i, CompleteQuery(JobOf(s, i)));
    var s1 := Next(s, a);
    CompletionActs(s1, i, t, c);
    MovedHolds(s, i, CompleteCommit(t));
    CommitsCompletion(Next(s1, a), i, t, c);
    RunActs(s, a, a, a);
  }

  lemma RunActs(s: System, a: Step, b: Step, c: Step)
    ensures Run(s, [a, b, c]) == Next(Next(Next(s, a), b), c)
  {
    RunThree(s, a, b, c);
    assert [a, b] + [c] == [a, b, c];
  }

  lemma DeferralActs(s: System, i: nat, t: NativeTask, guarded: bool, c: bool)
    requires Holds(s, i) && ReportOf(s, i) == Some(t) && t.status.Pending?
    ensures s.workers[i].pc == DeferBegin(guarded) ==> Next(s, Acts(i, c)) == Moved(s, i, DeferQuery(guarded, JobOf(s, i)))
    ensures s.workers[i].pc == DeferQuery(guarded, JobOf(s, i)) ==> Next(s, Acts(i, c)) == Moved(s, i, DeferCommit(guarded))
  {
    HolderCalls(s, i, c);
  }

  /** The job is queued at its attempt, under the generation it had, with nobody's claim on it. */
  ghost predicate Requeued(q: Queue, j: Job) {
    && j.id in q.jobs && SameAttempt(j, q.jobs[j.id]) && q.jobs[j.id].generation == j.generation
    && q.jobs[j.id].status.Queued? && ClosedToAll(q, j.id)
  }

  lemma CommitsDeferral(s: System, i: nat, guarded: bool, c: bool)
    requires Holds(s, i) && s.workers[i].pc == DeferCommit(guarded)
    ensures var s' := Next(s, Acts(i, c)); Left(s', i, s.workers[i].claim.id) && Requeued(s'.queue, JobOf(s, i))
  {
    HolderCalls(s, i, c);
  }

  /** From DeferBegin three acts queue the job again while its task is pending. */
  lemma Defers(s: System, i: nat, t: NativeTask, guarded: bool, c: bool)
    requires Holds(s, i) && s.workers[i].pc == DeferBegin(guarded) && ReportOf(s, i) == Some(t) && t.status.Pending?
    ensures var s' := Run(s, [Acts(i, c), Acts(i, c), Acts(i, c)]);
      Left(s', i, s.workers[i].claim.id) && Requeued(s'.queue, JobOf(s, i))
  {
    var a := Acts(i, c);
    DeferralActs(s, i, t, guarded, c);
    MovedHolds(s, i, DeferQuery(guarded, JobOf(s, i)));
    var s1 := Next(s, a);
    DeferralActs(s1, i, t, guarded, c);
    MovedHolds(s, i, DeferCommit(guarded));
    CommitsDeferral(Next(s1, a), i, guarded, c);
    RunActs(s, a, a, a);
  }

  /** The job awaits reconciliation, and nobody may work on it. */
  ghost predicate GivenUp(q: Queue, j: Job) {
    && j.id in q.jobs && SameAttempt(j, q.jobs[j.id]) && q.jobs[j.id].generation == j.generation
    && q.jobs[j.id].status.ReconciliationRequired? && ClosedToAll(q, j.id)
  }

  lemma Flags(s: System, i: nat, c: bool)
    requires Holds(s, i) && s.workers[i].pc == MustReconcile
    ensures var s' := Next(s, Acts(i, c)); Left(s', i, s.workers[i].claim.id) && GivenUp(s'.queue, JobOf(s, i))
  {
    HolderCalls(s, i, c);
  }

  // ---- after the executor ----

  /** At Verify a worker that still holds its job completes it if its task has ended, queues it again if the executor never
    * took the task, and gives it up otherwise. */
  lemma VerifiedOutcome(now: int, steps: seq<Step>, i: nat, c: bool)
    requires var s := Run(Initial(now), steps); i < |s.workers| && s.workers[i].pc.Verify? && Live(s, i)
    ensures
      var s := Run(Initial(now), steps);
      var id := s.workers[i].claim.id;
      var a := Acts(i, c);
      var after := Run(s, [a, a, a, a]);
      match ReportOf(s, i)
      case Some(t) =>
        if Terminal(t.status) then Left(after, i, id) && CompletedBy(after.queue, id, t)
        else if t.status.Pending? then Left(after, i, id) && Requeued(after.queue, JobOf(s, i))
        else Left(Run(s, [a, a]), i, id) && GivenUp(Run(s, [a, a]).queue, JobOf(s, i))
      case None => Left(Run(s, [a, a]), i, id) && GivenUp(Run(s, [a, a]).queue, JobOf(s, i))
  {
    RunKeeps(now, steps);
    var s := Run(Initial(now), steps);
    LiveHolds(s, i);
    FromVerify(s, i, c);
  }

  /** What an act at Verify leads to. */
  function VerifyTo(t: Option<NativeTask>): Pc {
    match t
    case Some(t) => if Terminal(t.status) then CompleteBegin else if t.status.Pending? then DeferBegin(true) else MustReconcile
    case None => MustReconcile
  }

  lemma VerifyActs(s: System, i: nat, c: bool)
    requires Holds(s, i) && s.workers[i].pc.Verify?
    ensures Next(s, Acts(i, c)) == Moved(s, i, VerifyTo(ReportOf(s, i)))
  {
  }

  lemma FromVerify(s: System, i: nat, c: bool)
    requires Holds(s, i) && s.workers[i].pc.Verify?
    ensures
      var id := s.workers[i].claim.id;
      var a := Acts(i, c);
      var after := Run(s, [a, a, a, a]);
      match ReportOf(s, i)
      case Some(t) =>
        if Terminal(t.status) then Left(after, i, id) && CompletedBy(after.queue, id, t)
        else if t.status.Pending? then Left(after, i, id) && Requeued(after.queue, JobOf(s, i))
        else Left(Run(s, [a, a]), i, id) && GivenUp(Run(s, [a, a]).queue, JobOf(s, i))
      case None => Left(Run(s, [a, a]), i, id) && GivenUp(Run(s, [a, a]).queue, JobOf(s, i))
  {
    var a := Acts(i, c);
    var s1 := Moved(s, i, VerifyTo(ReportOf(s, i)));
    VerifyActs(s, i, c);
    MovedHolds(s, i, VerifyTo(ReportOf(s, i)));
    RunAfter(s, a, [a, a, a]);
    assert [a] + [a, a, a] == [a, a, a, a] && [a] + [a] == [a, a];
    RunAfter(s, a, [a]);
    RunAfter(s1, a, []);
    assert [a] + [] == [a];
    match s1.workers[i].pc
    case CompleteBegin => Completes(s1, i, ReportOf(s, i).value, c);
    case DeferBegin(_) => Defers(s1, i, ReportOf(s, i).value, true, c);
    case _ => Flags(s1, i, c);
  }

  // ---- before the executor ----

  lemma FreshActs(s: System, i: nat, c: bool)
    requires Holds(s, i) && s.workers[i].pc.Fresh?
    ensures Next(s, Acts(i, c)) ==
      Moved(s, i, if ReportOf(s, i).Some? && ReportOf(s, i).value.status.Pending? then AskNext else MustReconcile)
  {
  }

  lemma ChoiceActs(s: System, i: nat, c: bool)
    requires Holds(s, i)
    ensures s.workers[i].pc.AskNext? ==> Next(s, Acts(i, c)) == Moved(s, i, if c then CheckExecutable else DeferBegin(true))
    ensures s.workers[i].pc.CheckExecutable? ==> Next(s, Acts(i, c)) == Moved(s, i, if c then Renew else DeferBegin(false))
    ensures s.workers[i].pc.Launch? && !c ==> Next(s, Acts(i, c)) == Moved(s, i, DeferBegin(false))
  {
  }

  /** A claimed job is given up at once if the sealed task of its attempt is missing, does not match, or is not pending. */
  lemma UnfitIsGivenUp(now: int, steps: seq<Step>, i: nat, c: bool)
    requires var s := Run(Initial(now), steps);
      i < |s.workers| && s.workers[i].pc.Fresh? && Live(s, i) && !(ReportOf(s, i).Some? && ReportOf(s, i).value.status.Pending?)
    ensures
      var s := Run(Initial(now), steps);
      var after := Run(s, [Acts(i, c), Acts(i, c)]);
      Left(after, i, s.workers[i].claim.id) && GivenUp(after.queue, JobOf(s, i))
  {
    RunKeeps(now, steps);
    var s := Run(Initial(now), steps);
    var a := Acts(i, c);
    LiveHolds(s, i);
    FreshActs(s, i, c);
    MovedHolds(s, i, MustReconcile);
    Flags(Moved(s, i, MustReconcile), i, c);
    RunTwo(s, a, a);
  }

  lemma RunTwo(s: System, a: Step, b: Step)
    ensures Run(s, [a, b]) == Next(Next(s, a), b)
  {
    Extend(s, [], a);
    Extend(s, [a], b);
    assert [] + [a] == [a] && [a] + [b] == [a, b];
  }

  /** A claimed job whose task is pending. */
  ghost predicate Ready(s: System, i: nat) {
    Holds(s, i) && s.workers[i].pc.Fresh? && ReportOf(s, i).Some? && ReportOf(s, i).value.status.Pending?
  }

  lemma DefersFrom(s: System, i: nat, guarded: bool, c: bool)
    requires Holds(s, i) && ReportOf(s, i).Some? && ReportOf(s, i).value.status.Pending?
    ensures var after := Run(Moved(s, i, DeferBegin(guarded)), [Acts(i, c), Acts(i, c), Acts(i, c)]);
      Left(after, i, s.workers[i].claim.id) && Requeued(after.queue, JobOf(s, i))
  {
    MovedHolds(s, i, DeferBegin(guarded));
    Defers(Moved(s, i, DeferBegin(guarded)), i, ReportOf(s, i).value, guarded, c);
  }

  lemma FromNotNext(s: System, i: nat, c: bool)
    requires Ready(s, i)
    ensures var a := Acts(i, c); var after := Run(s, [a, Acts(i, false)] + [a, a, a]);
      Left(after, i, s.workers[i].claim.id) && Requeued(after.queue, JobOf(s, i))
  {
    var a := Acts(i, c);
    FreshActs(s, i, c);
    MovedHolds(s, i, AskNext);
    ChoiceActs(Moved(s, i, AskNext), i, false);
    DefersFrom(s, i, true, c);
    RunPrefix(s, a, Acts(i, false), [a, a, a]);
  }

  lemma RunPrefix(s: System, a: Step, b: Step, rest: seq<Step>)
    ensures Run(s, [a, b] + rest) == Run(Next(Next(s, a), b), rest)
  {
    RunAfter(s, a, [b] + rest);
    RunAfter(Next(s, a), b, rest);
    assert [a] + ([b] + rest) == [a, b] + rest;
  }

  lemma FromNotExecutable(s: System, i: nat, c: bool)
    requires Ready(s, i)
    ensures var a := Acts(i, c); var after := Run(s, [a, Acts(i, true)] + ([Acts(i, false)] + [a, a, a]));
      Left(after, i, s.workers[i].claim.id) && Requeued(after.queue, JobOf(s, i))
  {
    var a := Acts(i, c);
    FreshActs(s, i, c);
    MovedHolds(s, i, AskNext);
    ChoiceActs(Moved(s, i, AskNext), i, true);
    MovedHolds(s, i, CheckExecutable);
    ChoiceActs(Moved(s, i, CheckExecutable), i, false);
    DefersFrom(s, i, false, c);
    RunPrefix(s, a, Acts(i, true), [Acts(i, false)] + [a, a, a]);
    RunAfter(Moved(s, i, CheckExecutable), Acts(i, false), [a, a, a]);
  }

  /** A claimed job with a pending task is queued again if the plan has another task next, or if the executor is not
    * executable. */
  lemma UnreadyIsRequeued(now: int, steps: seq<Step>, i: nat, c: bool)
    requires var s := Run(Initial(now), steps);
      i < |s.workers| && s.workers[i].pc.Fresh? && Live(s, i) && ReportOf(s, i).Some? && ReportOf(s, i).value.status.Pending?
    ensures
      var s := Run(Initial(now), steps);
      var a := Acts(i, c);
      var other := Run(s, [a, Acts(i, false)] + [a, a, a]);
      var unfit := Run(s, [a, Acts(i, true)] + ([Acts(i, false)] + [a, a, a]));
      && Left(other, i, s.workers[i].claim.id) && Requeued(other.queue, JobOf(s, i))
      && Left(unfit, i, s.workers[i].claim.id) && Requeued(unfit.queue, JobOf(s, i))
  {
    RunKeeps(now, steps);
    var s := Run(Initial(now), steps);
    LiveHolds(s, i);
    FromNotNext(s, i, c);
    FromNotExecutable(s, i, c);
  }

  // ---- the launch ----

  /** The worker at its launch, its lease renewed. */
  function AtLaunch(s: System, i: nat): System
    requires i < |s.workers| && s.workers[i].claim.id in s.queue.jobs
  {
    Moved(s.(queue := Store(s.queue, Renewed(JobOf(s, i), s.now + s.workers[i].seconds))), i, Launch)
  }

  lemma RenewActs(s: System, i: nat, c: bool)
    requires Holds(s, i) && s.workers[i].pc.Renew? && 30 <= s.workers[i].seconds <= 3600
    ensures Next(s, Acts(i, c)) == AtLaunch(s, i) && Holds(AtLaunch(s, i), i)
    ensures SameAttempt(JobOf(s, i), JobOf(AtLaunch(s, i), i)) && JobOf(AtLaunch(s, i), i).generation == JobOf(s, i).generation
  {
    HolderCalls(s, i, c);
  }

  /** Four granted acts bring a fresh worker to its launch. */
  lemma ToLaunch(s: System, i: nat, c: bool)
    requires Ready(s, i) && 30 <= s.workers[i].seconds <= 3600
    ensures var s' := Run(s, [Acts(i, c), Acts(i, true)] + [Acts(i, true), Acts(i, c)]);
      s' == AtLaunch(Moved(s, i, Renew), i) && Holds(s', i)
      && SameAttempt(JobOf(s, i), JobOf(s', i)) && JobOf(s', i).generation == JobOf(s, i).generation
  {
    FreshActs(s, i, c);
    MovedHolds(s, i, AskNext);
    ChoiceActs(Moved(s, i, AskNext), i, true);
    MovedHolds(s, i, CheckExecutable);
    ChoiceActs(Moved(s, i, CheckExecutable), i, true);
    MovedHolds(s, i, Renew);
    RenewActs(Moved(s, i, Renew), i, c);
    RunPrefix(s, Acts(i, c), Acts(i, true), [Acts(i, true), Acts(i, c)]);
    RunTwo(Moved(s, i, CheckExecutable), Acts(i, true), Acts(i, c));
  }

  /** The executor has run: it took the sealed task of worker i and finished it. */
  function Executed(s: System, i: nat, ok: bool): System
    requires i < |s.workers| && KeyOf(s.workers[i].claim) in s.native
  {
    var key := KeyOf(s.workers[i].claim);
    var t := s.native[key].(status := if ok then Succeeded else Failed);
    WithWorker(s.(native := s.native[key := t]), i, s.workers[i].(pc := Verify, executor := Ended))
  }

  lemma ExecutorRuns(s: System, i: nat, ok: bool, c: bool)
    requires Holds(s, i) && s.workers[i].pc.Launch? && !s.workers[i].heartbeatLost
    requires ReportOf(s, i).Some? && ReportOf(s, i).value.status.Pending?
    ensures Run(s, [Acts(i, true), ExecutorClaim(i)] + [ExecutorFinish(i, ok), Acts(i, c)]) == Executed(s, i, ok)
  {
    var key := KeyOf(s.workers[i].claim);
    var s1 := Next(s, Acts(i, true));
    Launches(s, i);
    RunPrefix(s, Acts(i, true), ExecutorClaim(i), [ExecutorFinish(i, ok), Acts(i, c)]);
    var s2 := Next(s1, ExecutorClaim(i));
    TakesTask(s1, i);
    RunTwo(s2, ExecutorFinish(i, ok), Acts(i, c));
    FinishesTask(s2, i, ok);
    var s3 := Next(s2, ExecutorFinish(i, ok));
    LooksAgain(s3, i, c);
    Overwritten(s.native, key, s.native[key].(status := Executing), s.native[key].(status := if ok then Succeeded else Failed));
  }

  lemma Overwritten(native: map<Key, NativeTask>, key: Key, a: NativeTask, b: NativeTask)
    ensures native[key := a][key := b] == native[key := b]
  {
  }

  lemma Launches(s: System, i: nat)
    requires i < |s.workers| && s.workers[i].pc.Launch?
    ensures Next(s, Acts(i, true)) == WithWorker(s, i, s.workers[i].(pc := Wait, executor := Started))
  {
  }

  lemma TakesTask(s: System, i: nat)
    requires i < |s.workers| && s.workers[i].executor.Started? && KeyOf(s.workers[i].claim) in s.native
    requires s.native[KeyOf(s.workers[i].claim)].status.Pending?
    ensures var key := KeyOf(s.workers[i].claim);
      Next(s, ExecutorClaim(i)) ==
        WithWorker(s.(native := s.native[key := s.native[key].(status := Executing)]), i, s.workers[i].(executor := Holding))
  {
  }

  lemma FinishesTask(s: System, i: nat, ok: bool)
    requires i < |s.workers| && s.workers[i].executor.Holding? && KeyOf(s.workers[i].claim) in s.native
    requires s.native[KeyOf(s.workers[i].claim)].status.Executing?
    ensures var key := KeyOf(s.workers[i].claim);
      Next(s, ExecutorFinish(i, ok)) ==
        WithWorker(s.(native := s.native[key := s.native[key].(status := if ok then Succeeded else Failed)]), i, s.workers[i].(executor := Ended))
  {
  }

  lemma LooksAgain(s: System, i: nat, c: bool)
    requires i < |s.workers| && s.workers[i].pc.Wait? && s.workers[i].executor.Ended? && !s.workers[i].heartbeatLost
    ensures Next(s, Acts(i, c)) == Moved(s, i, Verify)
  {
  }

  lemma {:induction false} RunConcat(s: System, a: seq<Step>, b: seq<Step>)
    ensures Run(s, a + b) == Run(Run(s, a), b)
    decreases |b|
  {
    if |b| == 0 {
      assert a + b == a;
    } else {
      RunConcat(s, a, b[..|b| - 1]);
      assert (a + b)[..|a + b| - 1] == a + b[..|b| - 1];
    }
  }

  lemma FromFailedLaunch(s: System, i: nat, c: bool)
    requires Holds(s, i) && s.workers[i].pc.Launch? && ReportOf(s, i).Some? && ReportOf(s, i).value.status.Pending?
    ensures var a := Acts(i, c); var after := Run(s, [Acts(i, false)] + [a, a, a]);
      Left(after, i, s.workers[i].claim.id) && Requeued(after.queue, JobOf(s, i))
  {
    ChoiceActs(s, i, false);
    DefersFrom(s, i, false, c);
    RunAfter(s, Acts(i, false), [Acts(i, c), Acts(i, c), Acts(i, c)]);
  }

  lemma FromLaunch(s: System, i: nat, ok: bool, c: bool)
    requires Holds(s, i) && s.workers[i].pc.Launch? && !s.workers[i].heartbeatLost
    requires ReportOf(s, i).Some? && ReportOf(s, i).value.status.Pending?
    ensures var a := Acts(i, c);
      var after := Run(s, ([Acts(i, true), ExecutorClaim(i)] + [ExecutorFinish(i, ok), a]) + [a, a, a, a]);
      && Left(after, i, s.workers[i].claim.id)
      && CompletedBy(after.queue, s.workers[i].claim.id, ReportOf(s, i).value.(status := if ok then Succeeded else Failed))
  {
    var a := Acts(i, c);
    ExecutorRuns(s, i, ok, c);
    RunConcat(s, [Acts(i, true), ExecutorClaim(i)] + [ExecutorFinish(i, ok), a], [a, a, a, a]);
    var s1 := Executed(s, i, ok);
    assert Holds(s1, i) && ReportOf(s1, i) == Some(ReportOf(s, i).value.(status := if ok then Succeeded else Failed));
    FromVerify(s1, i, c);
  }

  /** A claimed job with a pending task that is next and has an executor: if the executor cannot be started, the job is
    * queued again; if it takes the task and ends it, the job is completed with that end, and succeeded exactly if the
    * task did. */
  lemma LaunchOutcome(now: int, steps: seq<Step>, i: nat, ok: bool, c: bool)
    requires var s := Run(Initial(now), steps);
      i < |s.workers| && s.workers[i].pc.Fresh? && Live(s, i) && ReportOf(s, i).Some? && ReportOf(s, i).value.status.Pending?
    ensures
      var s := Run(Initial(now), steps);
      var id := s.workers[i].claim.id;
      var a := Acts(i, c);
      var start := [a, Acts(i, true)] + [Acts(i, true), a];
      var failed := Run(s, start + ([Acts(i, false)] + [a, a, a]));
      var done := Run(s, start + (([Acts(i, true), ExecutorClaim(i)] + [ExecutorFinish(i, ok), a]) + [a, a, a, a]));
      && Left(failed, i, id) && Requeued(failed.queue, JobOf(s, i))
      && Left(done, i, id) && CompletedBy(done.queue, id, ReportOf(s, i).value.(status := if ok then Succeeded else Failed))
  {
    RunKeeps(now, steps);
    var s := Run(Initial(now), steps);
    var a := Acts(i, c);
    var start := [a, Acts(i, true)] + [Acts(i, true), a];
    LiveHolds(s, i);
    WorkerFacts(s, i);
    LostWaits(now, steps, i);
    ToLaunch(s, i, c);
    var s1 := AtLaunch(Moved(s, i, Renew), i);
    FromFailedLaunch(s1, i, c);
    FromLaunch(s1, i, ok, c);
    RunConcat(s, start, [Acts(i, false)] + [a, a, a]);
    RunConcat(s, start, ([Acts(i, true), ExecutorClaim(i)] + [ExecutorFinish(i, ok), a]) + [a, a, a, a]);
  }

  // ---- lost heartbeats ----

  /** What a step makes of worker i: nothing but its executor moves, it dies, or it acts. */
  lemma WorkerMoves(s: System, step: Step, i: nat)
    requires i < |Next(s, step).workers|
    ensures var s' := Next(s, step);
      if i >= |s.workers| then (s'.workers[i].pc.Fresh? || s'.workers[i].pc.Manual?) && !s'.workers[i].heartbeatLost
      else if step.Act? && step.worker == i then
        s'.workers[i] == Follow(s.workers[i], QueueCall(s, i, step.input).1, NativeCall(s, i, step.input), step.input.choice)
      else s'.workers[i] == s.workers[i].(pc := s'.workers[i].pc, executor := s'.workers[i].executor)
           && (s'.workers[i].pc == s.workers[i].pc || s'.workers[i].pc.Gone?)
  {
  }

  /** A worker that has lost a heartbeat waits for its executor, and then leaves. */
  predicate LostFits(w: Worker) {
    w.heartbeatLost ==> w.pc.Wait? || w.pc.Gone?
  }

  lemma {:induction false} LostWaits(now: int, steps: seq<Step>, i: nat)
    requires i < |Run(Initial(now), steps).workers|
    ensures LostFits(Run(Initial(now), steps).workers[i])
    decreases |steps|
  {
    if |steps| > 0 {
      var before, step := Run(Initial(now), steps[..|steps| - 1]), steps[|steps| - 1];
      WorkerMoves(before, step, i);
      if i < |before.workers| {
        LostWaits(now, steps[..|steps| - 1], i);
        LostFollows(before.workers[i]);
      }
    }
  }

  lemma LostFollows(w: Worker)
    requires LostFits(w)
    ensures forall r: Reply, t: Option<NativeTask>, c: bool :: LostFits(Follow(w, r, t, c))
  {
  }

  /** A worker whose renewal is refused never launches, and if it has launched, calls the queue no more: it waits for its
    * executor and leaves the job to its lease. */
  lemma RefusedRenewal(s: System, i: nat, input: Input)
    requires Inv(s) && i < |s.workers|
    ensures var s' := Next(s, Act(i, input)); var w, w' := s.workers[i], s'.workers[i];
      && (w.pc.Renew? && !Live(s, i) ==> w'.pc.Gone? && w'.executor.NotStarted?)
      && (w.pc.Wait? && !ProcessGone(w.executor) && !w.heartbeatLost && !Live(s, i) ==> w' == w.(heartbeatLost := true))
      && (w.pc.Wait? && w.heartbeatLost ==>
            s'.queue == s.queue && w' == (if ProcessGone(w.executor) then w.(pc := Gone) else w))
  {
    WorkerFacts(s, i);
    if !Live(s, i) { DeadIsRefused(s, i, input); }
  }

  /** A live worker that waits for its executor, or a pull client that renews, keeps its job open to itself for its lease
    * from now on, and goes on as it was. */
  lemma HeartbeatRenews(now: int, steps: seq<Step>, i: nat)
    requires var s := Run(Initial(now), steps);
      && i < |s.workers| && Live(s, i)
      && var w := s.workers[i]; w.pc.Manual? || (w.pc.Wait? && !ProcessGone(w.executor) && !w.heartbeatLost)
    ensures
      var s := Run(Initial(now), steps);
      var s' := Next(s, Acts(i, true));
      var w := s.workers[i];
      && s'.workers == s.workers && w.claim.id in s'.queue.jobs
      && OpenTo(s'.queue, w.claim.id, Caller(w.agent, true, Some(i)), s.now + w.seconds)
  {
    RunKeeps(now, steps);
    var s := Run(Initial(now), steps);
    LiveHolds(s, i);
    WorkerFacts(s, i);
    RenewsJob(s, i);
    GoesOn(s, i);
  }

  lemma GoesOn(s: System, i: nat)
    requires Holds(s, i) && 30 <= s.workers[i].seconds <= 3600
    requires var w := s.workers[i]; w.pc.Manual? || (w.pc.Wait? && !ProcessGone(w.executor) && !w.heartbeatLost)
    ensures Next(s, Acts(i, true)) == s.(queue := Store(s.queue, Renewed(JobOf(s, i), s.now + s.workers[i].seconds)))
  {
    HolderCalls(s, i, true);
    assert s.workers[i := s.workers[i]] == s.workers;
  }

  lemma RenewsJob(s: System, i: nat)
    requires Holds(s, i) && 30 <= s.workers[i].seconds <= 3600
    ensures var q := Store(s.queue, Renewed(JobOf(s, i), s.now + s.workers[i].seconds));
      OpenTo(q, s.workers[i].claim.id, Caller(s.workers[i].agent, true, Some(i)), s.now + s.workers[i].seconds)
  {
  }

  lemma DeadIsRefused(s: System, i: nat, input: Input)
    requires Inv(s) && i < |s.workers| && !Live(s, i)
    ensures !Owner(s, i, input).1.Granted?
  {
    WorkerFacts(s, i);
  }

  // ---- why a job is given up ----

  /** The act of worker i leads to reconciliation: the sealed task was missing, did not match, was not pending before the
    * launch or has not ended after it, or a guarded deferral was refused. */
  ghost predicate Reason(s: System, i: nat, input: Input)
    requires i < |s.workers|
  {
    var w := s.workers[i];
    var t := if input.available then ReportFor(s.native, w.claim) else None;
    match w.pc
    case Fresh => t.None? || !t.value.status.Pending?
    case Verify => t.None? || !(t.value.status.Pending? || t.value.status.Succeeded? || t.value.status.Failed?)
    case DeferBegin(guarded) => guarded && !MayCall(s.queue, w.claim.id, Presenter(s, i, input), s.now)
    case DeferQuery(guarded, seen) =>
      var u := if input.available then ReportFor(s.native, seen) else None;
      guarded && (u.None? || !u.value.status.Pending?)
    case DeferCommit(guarded) => guarded && !MayCall(s.queue, w.claim.id, Presenter(s, i, input), s.now)
    case _ => false
  }

  /** An act leads there exactly for such a reason. */
  lemma ReasonIsExact(s: System, i: nat, input: Input)
    requires i < |s.workers|
    ensures Next(s, Act(i, input)).workers[i].pc.MustReconcile? <==> Reason(s, i, input)
  {
  }

  /** A worker that must reconcile was led there by an earlier act of its own, for a reason. */
  lemma {:induction false} ReconciliationHasReason(now: int, steps: seq<Step>, i: nat) returns (k: nat)
    requires i < |Run(Initial(now), steps).workers| && Run(Initial(now), steps).workers[i].pc.MustReconcile?
    ensures k < |steps| && steps[k].Act? && steps[k].worker == i
    ensures i < |Run(Initial(now), steps[..k]).workers| && Reason(Run(Initial(now), steps[..k]), i, steps[k].input)
    decreases |steps|
  {
    var n := |steps| - 1;
    var before := Run(Initial(now), steps[..n]);
    WorkerMoves(before, steps[n], i);
    if steps[n].Act? && steps[n].worker == i {
      k := n;
      ReasonIsExact(before, i, steps[n].input);
    } else {
      k := ReconciliationHasReason(now, steps[..n], i);
      assert steps[..n][..k] == steps[..k];
    }
  }

  /** A worker gives its job up only there: if its act puts a job whose lease still runs up for reconciliation, there was a
    * reason for it. */
  lemma GivenUpForReason(now: int, steps: seq<Step>, i: nat, input: Input) returns (k: nat)
    requires var s := Run(Initial(now), steps); i < |s.workers| && Leased(HeldJob(s, i)) && s.now < Deadline(HeldJob(s, i))
    requires var s' := Next(Run(Initial(now), steps), Act(i, input)); HeldJob(s', i).status.ReconciliationRequired?
    ensures k < |steps| && steps[k].Act? && steps[k].worker == i
    ensures i < |Run(Initial(now), steps[..k]).workers| && Reason(Run(Initial(now), steps[..k]), i, steps[k].input)
  {
    RunKeeps(now, steps);
    var s := Run(Initial(now), steps);
    WorkerFacts(s, i);
    OnlyThere(s, i, input);
    k := ReconciliationHasReason(now, steps, i);
  }

  /** The job worker i claimed, or its claim if the queue does not have it. */
  function HeldJob(s: System, i: nat): Job
    requires i < |s.workers|
  {
    if s.workers[i].claim.id in s.queue.jobs then JobOf(s, i) else s.workers[i].claim
  }

  lemma OnlyThere(s: System, i: nat, input: Input)
    requires i < |s.workers| && s.workers[i].claim.id in s.queue.jobs && JobOf(s, i).id == s.workers[i].claim.id
    requires Leased(JobOf(s, i)) && s.now < Deadline(JobOf(s, i))
    requires var s' := Next(s, Act(i, input)); i < |s'.workers| && HeldJob(s', i).status.ReconciliationRequired?
    ensures s.workers[i].pc.MustReconcile?
  {
    AdvanceFrame(s, i, input);
    if !s.workers[i].pc.MustReconcile? { CallsOtherwise(s, i, input); }
  }

  lemma CallsOtherwise(s: System, i: nat, input: Input)
    requires i < |s.workers| && s.workers[i].claim.id in s.queue.jobs && JobOf(s, i).id == s.workers[i].claim.id
    requires Leased(JobOf(s, i)) && s.now < Deadline(JobOf(s, i)) && !s.workers[i].pc.MustReconcile?
    ensures var q := QueueCall(s, i, input).0;
      s.workers[i].claim.id in q.jobs && !q.jobs[s.workers[i].claim.id].status.ReconciliationRequired?
  {
  }

  // ---- claims and operators ----

  /** A granted claim adds a fresh or manual worker that holds its job. */
  lemma NewWorkerHolds(now: int, steps: seq<Step>, node: string, agent: string, seconds: int, enrolled: bool, manual: bool)
    requires var s := Run(Initial(now), steps); Claim(s.queue, node, agent, seconds, enrolled, |s.workers|, s.now).1.Granted?
    ensures
      var s := Run(Initial(now), steps);
      var s' := Next(s, ClaimJob(node, agent, seconds, enrolled, manual));
      var i := |s.workers|;
      && |s'.workers| == i + 1 && s'.workers[i].agent == agent && s'.workers[i].claim.node == node
      && s'.workers[i].pc == (if manual then Manual else Fresh) && Live(s', i) && Holds(s', i)
  {
    RunKeeps(now, steps);
    var s := Run(Initial(now), steps);
    var step := ClaimJob(node, agent, seconds, enrolled, manual);
    StepKeeps(s, step);
    var id := ClaimEffect(s.queue, node, agent, seconds, enrolled, |s.workers|, s.now);
    LiveHolds(Next(s, step), |s.workers|);
  }

  /** A pull client completes its job with the terminal report of its attempt. */
  lemma ManualOutcome(now: int, steps: seq<Step>, i: nat, c: bool)
    requires var s := Run(Initial(now), steps);
      i < |s.workers| && s.workers[i].pc.Manual? && Live(s, i) && ReportOf(s, i).Some? && Terminal(ReportOf(s, i).value.status)
    ensures
      var s := Run(Initial(now), steps);
      var a := Acts(i, c);
      var after := Run(s, [Acts(i, false)] + [a, a, a]);
      && Left(after, i, s.workers[i].claim.id) && CompletedBy(after.queue, s.workers[i].claim.id, ReportOf(s, i).value)
  {
    RunKeeps(now, steps);
    var s := Run(Initial(now), steps);
    LiveHolds(s, i);
    assert Next(s, Acts(i, false)) == Moved(s, i, CompleteBegin);
    MovedHolds(s, i, CompleteBegin);
    Completes(Moved(s, i, CompleteBegin), i, ReportOf(s, i).value, c);
    RunAfter(s, Acts(i, false), [Acts(i, c), Acts(i, c), Acts(i, c)]);
  }

  /** An operator closes a job that awaits reconciliation, or whose lease has lapsed, with the terminal report of its
    * attempt. */
  lemma OperatorOutcome(now: int, steps: seq<Step>, id: string, input: Input)
    requires var s := Run(Initial(now), steps);
      && id in s.queue.jobs && (s.queue.jobs[id].status.ReconciliationRequired? || Lapsed(s.queue.jobs[id], s.now))
      && input.available && ReportFor(s.native, s.queue.jobs[id]).Some? && Terminal(ReportFor(s.native, s.queue.jobs[id]).value.status)
    ensures
      var s := Run(Initial(now), steps);
      var k := |s.operators|;
      var after := Run(s, [BeginReconcile(id), Operate(k, input), Operate(k, input)]);
      CompletedBy(after.queue, id, ReportFor(s.native, s.queue.jobs[id]).value) && SameAttempt(s.queue.jobs[id], after.queue.jobs[id])
  {
    RunKeeps(now, steps);
    var s := Run(Initial(now), steps);
    assert JobOk(s.workers, s.queue.jobs[id]);
    RunActs(s, BeginReconcile(id), Operate(|s.operators|, input), Operate(|s.operators|, input));
    OperatorBegins(s, id);
    var s1 := Next(s, BeginReconcile(id));
    OperatorActs(s1, |s.operators|, input);
  }

  lemma OperatorBegins(s: System, id: string)
    requires id in s.queue.jobs && s.queue.jobs[id].id == id && ValidJobId(id)
    requires s.queue.jobs[id].status.ReconciliationRequired? || Lapsed(s.queue.jobs[id], s.now)
    ensures
      var s1 := Next(s, BeginReconcile(id));
      var j := s.queue.jobs[id].(status := ReconciliationRequired);
      && s1.operators == s.operators + [OperatorQuery(j)] && s1.native == s.native
      && id in s1.queue.jobs && s1.queue.jobs[id] == j
  {
  }

  lemma OperatorActs(s: System, k: nat, input: Input)
    requires k < |s.operators| && s.operators[k].OperatorQuery? && input.available
    requires var j := s.operators[k].seen;
      && j.id in s.queue.jobs && s.queue.jobs[j.id] == j && j.status.ReconciliationRequired?
      && ReportFor(s.native, j).Some? && Terminal(ReportFor(s.native, j).value.status)
    ensures
      var j := s.operators[k].seen;
      var after := Next(Next(s, Operate(k, input)), Operate(k, input));
      CompletedBy(after.queue, j.id, ReportFor(s.native, j).value) && SameAttempt(j, after.queue.jobs[j.id])
  {
    var j := s.operators[k].seen;
    var t := ReportFor(s.native, j).value;
    assert Next(s, Operate(k, input)) == s.(operators := s.operators[k := OperatorCommit(j, t)]);
  }
}
