/** Whole runs of the registry: one unresolved run per key, no resolution of a launch without its end, and where the
  * conditions of both come from. */
module RunTheorems {
  import opened Text
  import opened RunRegistry
  import opened RunSafety

  // ---- one unresolved run per key ----

  /** At most one persisted run per key is ever unresolved, through any succession of controllers. */
  lemma {:induction false} OneUnresolvedRunPerKey(steps: seq<Step>, a: nat, b: nat)
    requires Orderly(Initial(), steps)
    requires var d := Execute(Initial(), steps).disk;
      a in d && b in d && d[a].key == d[b].key && Unresolved(d[a].status) && Unresolved(d[b].status)
    ensures a == b
  {
    RunsKeep(steps);
    assert Sole(Execute(Initial(), steps), a, b);
  }

  /** A run starts only once every earlier run of its key is durably resolved and, if it was launched, at its end. */
  lemma StartsAfterResolution(steps: seq<Step>, id: nat, key: string, write: Write, earlier: nat)
    requires Orderly(Initial(), steps)
    requires var s := Execute(Initial(), steps); id !in s.disk && id in Next(s, Start(id, key, write)).disk
    requires var d := Execute(Initial(), steps).disk; earlier in d && d[earlier].key == key
    ensures var s := Execute(Initial(), steps);
      && !Unresolved(s.disk[earlier].status)
      && (RemoteOf(s, earlier).launched ==> Accepted(RemoteOf(s, earlier)))
  {
    RunsKeep(steps);
    assert OnDisk(Execute(Initial(), steps), earlier);
  }

  // ---- the ends of launches ----

  /** A run that crossed the launch boundary is resolved, in memory or on disk, only once an exit file and a terminal
    * sealed task exist and agree, and as succeeded only on exit code 0 and a succeeded task. The end is verified
    * exactly if the exit file holds a number. */
  lemma {:induction false} LaunchedRunsAreVerified(steps: seq<Step>, id: nat)
    requires Orderly(Initial(), steps) && RemoteOf(Execute(Initial(), steps), id).launched
    ensures var s := Execute(Initial(), steps); var r := RemoteOf(s, id);
      && id in s.disk && s.disk[id].detached
      && (!Unresolved(s.disk[id].status) || (id in s.runs && !Unresolved(s.runs[id].run.status)) ==>
           Accepted(r) && (Verified(r) <==> r.rc.value.Code?))
      && (s.disk[id].status.Succeeded? || (id in s.runs && s.runs[id].run.status.Succeeded?) ==>
           r.rc == Some(Code(0)) && r.sealed == Some(true))
  {
    RunsKeep(steps);
    var s := Execute(Initial(), steps);
    assert OnDisk(s, id) && Launched(s, id) && InMemory(s, id);
  }

  /** A reconciliation resolves a launched run only on a verified end, whatever its exit file held. */
  lemma ReconciledRunsAreVerified(steps: seq<Step>, id: nat, outcome: Status, write: Write)
    requires Orderly(Initial(), steps)
    requires var s := Execute(Initial(), steps);
      && RemoteOf(s, id).launched && id in s.disk && Unresolved(s.disk[id].status)
      && id in Commit(s, id, outcome, write).disk && !Unresolved(Commit(s, id, outcome, write).disk[id].status)
    ensures Verified(RemoteOf(Execute(Initial(), steps), id))
  {
    RunsKeep(steps);
    assert InMemory(Execute(Initial(), steps), id);
  }

  // ---- runs, step by step ----

  lemma Extend(s: Registry, steps: seq<Step>, step: Step)
    ensures Execute(s, steps + [step]) == Next(Execute(s, steps), step)
  {
    assert (steps + [step])[..|steps|] == steps;
  }

  lemma {:induction false} ExecuteConcat(s: Registry, a: seq<Step>, b: seq<Step>)
    ensures Execute(s, a + b) == Execute(Execute(s, a), b)
    decreases |b|
  {
    if |b| == 0 {
      assert a + b == a;
    } else {
      ExecuteConcat(s, a, b[..|b| - 1]);
      assert (a + b)[..|a + b| - 1] == a + b[..|b| - 1];
    }
  }

  lemma ExecuteTwo(s: Registry, a: Step, b: Step)
    ensures Execute(s, [a, b]) == Next(Next(s, a), b)
  {
    Extend(s, [], a);
    Extend(s, [a], b);
    assert [] + [a] == [a] && [a] + [b] == [a, b];
  }

  /** No last write of a thread fails. */
  predicate Tame(steps: seq<Step>) {
    forall k | 0 <= k < |steps| :: steps[k].Finish? ==> steps[k].write.Ok?
  }

  lemma {:induction false} TameIsOrderly(s: Registry, steps: seq<Step>)
    requires Tame(steps)
    ensures Orderly(s, steps)
    decreases |steps|
  {
    if |steps| > 0 { TameIsOrderly(s, steps[..|steps| - 1]); }
  }

  // ---- the condition is needed ----

  /** Two unresolved persisted runs of one key. */
  predicate Broken(s: Registry, a: nat, b: nat) {
    a != b && a in s.disk && b in s.disk && s.disk[a].key == s.disk[b].key
    && Unresolved(s.disk[a].status) && Unresolved(s.disk[b].status)
  }

  /** The run is unknown in memory, and reconciliation may write it back as such. */
  predicate Writable(s: Registry, id: nat) {
    && s.lock.None? && id in s.runs && id in s.disk && s.runs[id].run.key == s.disk[id].key
    && (s.runs[id].run.status.Unknown? || s.runs[id].run.status.Reconciling?) && s.runs[id].run.detached
  }

  function WriteBack(id: nat): seq<Step> {
    [BeginReconcile(id, false), CommitReconcile(id, Unknown, Ok)]
  }

  lemma BegunAndCommitted(s: Registry, id: nat)
    requires Writable(s, id)
    ensures Next(s, BeginReconcile(id, false)) == s.(lock := Some(id))
    ensures Commit(s.(lock := Some(id)), id, Unknown, Ok) == CommitRun(s.(lock := Some(id)), id, Unknown, Ok)
  {
  }

  lemma {:induction false} WrittenBack(s: Registry, id: nat)
    requires Writable(s, id)
    ensures var r := s.runs[id].run.(status := Unknown);
      Execute(s, WriteBack(id)) == s.(disk := s.disk[id := r], runs := s.runs[id := s.runs[id].(run := r)])
  {
    BegunAndCommitted(s, id);
    ExecuteTwo(s, BeginReconcile(id, false), CommitReconcile(id, Unknown, Ok));
  }

  lemma {:induction false} BesideUnresolved(s: Registry, id: nat, y: nat)
    requires Writable(s, id) && y != id && y in s.disk && s.disk[y].key == s.disk[id].key && Unresolved(s.disk[y].status)
    ensures Broken(Execute(s, WriteBack(id)), id, y)
  {
    WrittenBack(s, id);
  }

  lemma {:induction false} BesideWritable(s: Registry, id: nat, y: nat)
    requires Writable(s, id) && Writable(s, y) && y != id && s.disk[y].key == s.disk[id].key
    ensures Broken(Execute(s, WriteBack(y) + WriteBack(id)), id, y)
  {
    ExecuteConcat(s, WriteBack(y), WriteBack(id));
    WrittenBack(s, y);
    BesideUnresolved(Execute(s, WriteBack(y)), id, y);
  }

  lemma {:induction false} BesideNew(s: Registry, id: nat, next: nat)
    requires Writable(s, id) && !Busy(s, s.disk[id].key) && next !in s.disk && next !in s.runs && next !in s.remote
    ensures Broken(Execute(s, [Start(next, s.disk[id].key, Ok)] + WriteBack(id)), id, next)
  {
    var start := Start(next, s.disk[id].key, Ok);
    ExecuteConcat(s, [start], WriteBack(id));
    Extend(s, [], start);
    assert [] + [start] == [start];
    BesideUnresolved(Next(s, start), id, next);
  }

  /** The run whose thread fails its last write after its key was freed, with nobody reconciling. */
  function AfterFailure(s: Registry, id: nat, write: Write): Registry
    requires id in s.runs
  {
    FinishRun(s, id, write).(lock := None)
  }

  lemma FailedIsWritable(s: Registry, id: nat, write: Write)
    requires Inv(s) && At(s, id, Ending) && !write.Ok? && !Active(s, id, s.runs[id].run.key)
    ensures Writable(AfterFailure(s, id, write), id) && !Unresolved(AfterFailure(s, id, write).disk[id].status)
    ensures AfterFailure(s, id, write).disk[id].key == s.runs[id].run.key
  {
    assert InMemory(s, id);
  }

  /** Another run with a claim: unresolved on disk, or writable. */
  lemma ClaimBreaks(s: Registry, id: nat, write: Write, y: nat) returns (steps: seq<Step>)
    requires Inv(s) && At(s, id, Ending) && !write.Ok? && !Active(s, id, s.runs[id].run.key)
    requires y != id && y in s.disk && s.disk[y].key == s.runs[id].run.key && Claims(s, y)
    ensures Tame(steps) && Broken(Execute(AfterFailure(s, id, write), steps), id, y)
  {
    assert InMemory(s, id) && InMemory(s, y);
    FailedIsWritable(s, id, write);
    if Unresolved(s.disk[y].status) {
      steps := WriteBack(id);
      BesideUnresolved(AfterFailure(s, id, write), id, y);
    } else {
      steps := WriteBack(y) + WriteBack(id);
      BesideWritable(AfterFailure(s, id, write), id, y);
    }
  }

  /** The key is free, and nobody has a claim. */
  lemma FreeKeyBreaks(s: Registry, id: nat, write: Write, next: nat) returns (steps: seq<Step>)
    requires Inv(s) && At(s, id, Ending) && !write.Ok? && s.runs[id].run.key !in s.activeKeys
    requires forall y: nat | y != id && y in s.disk && s.disk[y].key == s.runs[id].run.key :: !Claims(s, y)
    requires next !in s.disk && next !in s.runs && next !in s.remote
    ensures Tame(steps) && Broken(Execute(AfterFailure(s, id, write), steps), id, next)
  {
    FailedIsWritable(s, id, write);
    steps := [Start(next, s.runs[id].run.key, Ok)] + WriteBack(id);
    BesideNew(AfterFailure(s, id, write), id, next);
  }

  /** The active run of the key is resolved and its thread has yet to end: it will free the key. */
  predicate AboutToFree(s: Registry, x: nat, key: string) {
    && Active(s, x, key) && x in s.runs && x in s.disk && s.runs[x].run.key == key && s.disk[x].key == key
    && !Unresolved(s.disk[x].status) && !Unresolved(s.runs[x].run.status)
    && (s.runs[x].thread.Ending? || s.runs[x].thread.Closing?)
  }

  function Freeing(s: Registry, x: nat): seq<Step>
    requires x in s.runs
  {
    if s.runs[x].thread.Ending? then [Finish(x, Ok), Close(x)] else [Close(x)]
  }

  lemma ClosedFrees(s: Registry, x: nat, key: string)
    requires Active(s, x, key) && At(s, x, Closing) && s.runs[x].run.key == key && !Unresolved(s.runs[x].run.status)
    ensures Next(s, Close(x)) == s.(runs := s.runs[x := Record(s.runs[x].run, NoThread)], activeKeys := s.activeKeys - {key})
  {
  }

  lemma FinishedWell(s: Registry, x: nat)
    requires At(s, x, Ending)
    ensures Next(s, Finish(x, Ok)) == s.(disk := s.disk[x := s.runs[x].run], runs := s.runs[x := Record(s.runs[x].run, Closing)])
  {
  }

  /** Nothing but run x and the key has changed, and the key is free. */
  predicate KeyFreed(s: Registry, s': Registry, x: nat, key: string) {
    && x in s.disk && x in s.runs
    && s'.activeKeys == s.activeKeys - {key} && s'.lock == s.lock && s'.remote == s.remote
    && (s'.disk == s.disk || s'.disk == s.disk[x := s.runs[x].run]) && s'.runs == s.runs[x := Record(s.runs[x].run, NoThread)]
  }

  lemma Freed(s: Registry, x: nat, key: string)
    requires AboutToFree(s, x, key)
    ensures KeyFreed(s, Execute(s, Freeing(s, x)), x, key)
  {
    if s.runs[x].thread.Ending? {
      ExecuteTwo(s, Finish(x, Ok), Close(x));
      FinishedWell(s, x);
      ClosedFrees(Next(s, Finish(x, Ok)), x, key);
    } else {
      Extend(s, [], Close(x));
      assert [] + [Close(x)] == [Close(x)];
      ClosedFrees(s, x, key);
    }
  }

  lemma FreeingBreaks(s: Registry, id: nat, write: Write, x: nat, next: nat) returns (steps: seq<Step>)
    requires Inv(s) && At(s, id, Ending) && !write.Ok? && x != id && AboutToFree(s, x, s.runs[id].run.key)
    requires forall y: nat | y != id && y in s.disk && s.disk[y].key == s.runs[id].run.key :: !Claims(s, y)
    requires next !in s.disk && next !in s.runs && next !in s.remote
    ensures Tame(steps) && Broken(Execute(AfterFailure(s, id, write), steps), id, next)
  {
    var key := s.runs[id].run.key;
    var s1 := AfterFailure(s, id, write);
    FailedIsWritable(s, id, write);
    assert AboutToFree(s1, x, key);
    Freed(s1, x, key);
    var s2 := Execute(s1, Freeing(s1, x));
    steps := Freeing(s1, x) + ([Start(next, key, Ok)] + WriteBack(id));
    ExecuteConcat(s1, Freeing(s1, x), [Start(next, key, Ok)] + WriteBack(id));
    BesideNew(s2, id, next);
  }

  /** Why the condition is needed, and that it is exact: wherever an orderly run has come to a last write that may fail
    * without being benign, its failure has a tame continuation to two unresolved runs of one key. */
  lemma ConditionIsNeeded(before: seq<Step>, id: nat, write: Write, next: nat) returns (steps: seq<Step>, other: nat)
    requires Orderly(Initial(), before) && !Benign(Execute(Initial(), before), Finish(id, write))
    requires var s := Execute(Initial(), before); next !in s.disk && next !in s.runs && next !in s.remote
    ensures Tame(steps) && Broken(Execute(Next(Execute(Initial(), before), Finish(id, write)), steps), id, other)
  {
    RunsKeep(before);
    var s := Execute(Initial(), before);
    var rest: seq<Step>;
    rest, other := FailureBreaks(s, id, write, next);
    steps := [AbortReconcile] + rest;
    FailureContinues(s, id, write, rest);
  }

  lemma FailureContinues(s: Registry, id: nat, write: Write, rest: seq<Step>)
    requires At(s, id, Ending)
    ensures Execute(Next(s, Finish(id, write)), [AbortReconcile] + rest) == Execute(AfterFailure(s, id, write), rest)
  {
    ExecuteAfter(Next(s, Finish(id, write)), AbortReconcile, rest);
    AbortedFailure(s, id, write);
  }

  lemma AbortedFailure(s: Registry, id: nat, write: Write)
    requires At(s, id, Ending)
    ensures Next(Next(s, Finish(id, write)), AbortReconcile) == AfterFailure(s, id, write)
  {
  }

  lemma ExecuteAfter(s: Registry, step: Step, rest: seq<Step>)
    ensures Execute(s, [step] + rest) == Execute(Next(s, step), rest)
  {
    ExecuteConcat(s, [step], rest);
    Extend(s, [], step);
    assert [] + [step] == [step];
  }

  lemma FailureBreaks(s: Registry, id: nat, write: Write, next: nat) returns (steps: seq<Step>, other: nat)
    requires Inv(s) && !Benign(s, Finish(id, write)) && next !in s.disk && next !in s.runs && next !in s.remote
    ensures id in s.runs && Tame(steps) && Broken(Execute(AfterFailure(s, id, write), steps), id, other)
  {
    var key := s.runs[id].run.key;
    if y: nat :| y != id && y in s.disk && s.disk[y].key == key && Claims(s, y) {
      steps := ClaimBreaks(s, id, write, y);
      other := y;
    } else if key !in s.activeKeys {
      steps := FreeKeyBreaks(s, id, write, next);
      other := next;
    } else {
      var x := s.activeKeys[key];
      assert Keyed(s, key) && InMemory(s, x);
      steps := FreeingBreaks(s, id, write, x, next);
      other := next;
    }
  }

  // ---- runs that reach the edge ----

  /** A launched run of key k whose remote side has come to the given end. */
  function Ended(line: CodeLine, success: bool): Registry {
    var r := Run("k", Running, 0, true, false);
    Registry(map[0 := r], map[0 := Record(r, Working)], map["k" := 0], None, 0, map[0 := Remote(true, Some(line), Some(success))])
  }

  function ToTheEnd(line: CodeLine, success: bool): seq<Step> {
    [Start(0, "k", Ok), Boot(0, Ok), Launch(0, Ok)] + [Exit(0, line), Seal(0, success)]
  }

  lemma ExecuteThree(s: Registry, a: Step, b: Step, c: Step)
    ensures Execute(s, [a, b, c]) == Next(Next(Next(s, a), b), c)
  {
    ExecuteTwo(s, a, b);
    Extend(s, [a, b], c);
    assert [a, b] + [c] == [a, b, c];
  }

  lemma FirstLaunch()
    ensures var r := Run("k", Running, 0, true, false);
      Execute(Initial(), [Start(0, "k", Ok), Boot(0, Ok), Launch(0, Ok)]) ==
      Registry(map[0 := r], map[0 := Record(r, Working)], map["k" := 0], None, 0, map[0 := Remote(true, None, None)])
  {
    ExecuteThree(Initial(), Start(0, "k", Ok), Boot(0, Ok), Launch(0, Ok));
    var q := Run("k", Queued, 0, false, false);
    var b := Run("k", Running, 0, false, false);
    assert !Busy(Initial(), "k");
    var s1 := Registry(map[0 := q], map[0 := Record(q, Starting)], map["k" := 0], None, 0, map[]);
    var s2 := Registry(map[0 := b], map[0 := Record(b, Working)], map["k" := 0], None, 0, map[]);
    assert Next(Initial(), Start(0, "k", Ok)) == s1;
    assert Next(s1, Boot(0, Ok)) == s2;
  }

  /** A registry whose only run 0, of key k, is launched with the given remote side. */
  function Launched0(remote: Remote): Registry {
    var r := Run("k", Running, 0, true, false);
    Registry(map[0 := r], map[0 := Record(r, Working)], map["k" := 0], None, 0, map[0 := remote])
  }

  lemma RemoteEnds(line: CodeLine, success: bool)
    ensures Next(Launched0(Remote(true, None, None)), Exit(0, line)) == Launched0(Remote(true, Some(line), None))
    ensures Next(Launched0(Remote(true, Some(line), None)), Seal(0, success)) == Ended(line, success)
  {
  }

  lemma EndIsReached(line: CodeLine, success: bool)
    ensures Execute(Initial(), ToTheEnd(line, success)) == Ended(line, success)
  {
    FirstLaunch();
    RemoteEnds(line, success);
    ExecuteConcat(Initial(), [Start(0, "k", Ok), Boot(0, Ok), Launch(0, Ok)], [Exit(0, line), Seal(0, success)]);
    ExecuteTwo(Launched0(Remote(true, None, None)), Exit(0, line), Seal(0, success));
  }

  lemma TheEndIsTame(line: CodeLine, success: bool, tail: seq<Step>)
    requires Tame(tail)
    ensures Tame(ToTheEnd(line, success) + tail)
  {
  }

  /** From the empty registry: a thread loses sight of its launch, a reconciliation resolves the run on its verified end
    * and frees the key, and the thread's last write is then not benign. */
  lemma OvertakenIsReached()
    ensures var steps := ToTheEnd(Code(0), true) + [Raise(0), BeginReconcile(0, false), CommitReconcile(0, Succeeded, Ok)];
      Orderly(Initial(), steps) && !Benign(Execute(Initial(), steps), Finish(0, Lost))
  {
    var tail := [Raise(0), BeginReconcile(0, false), CommitReconcile(0, Succeeded, Ok)];
    EndIsReached(Code(0), true);
    TheEndIsTame(Code(0), true, tail);
    TameIsOrderly(Initial(), ToTheEnd(Code(0), true) + tail);
    ExecuteConcat(Initial(), ToTheEnd(Code(0), true), tail);
    ExecuteThree(Ended(Code(0), true), Raise(0), BeginReconcile(0, false), CommitReconcile(0, Succeeded, Ok));
    LostSight();
  }

  lemma RaisedUnseen()
    ensures Next(Ended(Code(0), true), Raise(0)) ==
      Ended(Code(0), true).(runs := map[0 := Record(Run("k", Unknown, 0, true, false), Ending)])
  {
  }

  lemma LostSight()
    ensures var s := Next(Next(Next(Ended(Code(0), true), Raise(0)), BeginReconcile(0, false)), CommitReconcile(0, Succeeded, Ok));
      !Benign(s, Finish(0, Lost))
  {
    RaisedUnseen();
    var s1 := Next(Ended(Code(0), true), Raise(0));
    assert Next(s1, BeginReconcile(0, false)) == s1.(lock := Some(0));
    OvertakenEnd(s1.(lock := Some(0)));
  }

  lemma OvertakenEnd(s: Registry)
    requires At(s, 0, Ending) && s.runs[0].run.detached && s.runs[0].run.key == "k" && s.activeKeys == map["k" := 0] && s.lock == Some(0)
    requires InspectionMay(RemoteOf(s, 0), Succeeded)
    ensures !Benign(Commit(s, 0, Succeeded, Ok), Finish(0, Lost))
  {
  }

  /** From the empty registry: an exit file without a number and a failed sealed task resolve a launched run as failed,
    * although no exit code was ever read. */
  lemma UnreadableIsResolved(line: CodeLine)
    requires !line.Code?
    ensures var steps := ToTheEnd(line, false) + [Observe(0, Ok), Raise(0), Finish(0, Ok)];
      var s := Execute(Initial(), steps);
      && Orderly(Initial(), steps) && 0 in s.disk && RemoteOf(s, 0).launched
      && s.disk[0].status == Failed && !Verified(RemoteOf(s, 0))
  {
    var tail := [Observe(0, Ok), Raise(0), Finish(0, Ok)];
    EndIsReached(line, false);
    TheEndIsTame(line, false, tail);
    TameIsOrderly(Initial(), ToTheEnd(line, false) + tail);
    ExecuteConcat(Initial(), ToTheEnd(line, false), tail);
    ExecuteThree(Ended(line, false), Observe(0, Ok), Raise(0), Finish(0, Ok));
    UnreadableEnd(line);
  }

  /** The watcher takes the exit file for exit code 1 and goes on to raise. */
  lemma UnreadableObserved(line: CodeLine)
    requires !line.Code?
    ensures var r := Run("k", Running, 0, true, true);
      Next(Ended(line, false), Observe(0, Ok)) == Ended(line, false).(disk := map[0 := r], runs := map[0 := Record(r, Working)])
  {
  }

  lemma UnreadableEnd(line: CodeLine)
    requires !line.Code?
    ensures var s := Next(Next(Next(Ended(line, false), Observe(0, Ok)), Raise(0)), Finish(0, Ok));
      s.remote == Ended(line, false).remote && 0 in s.disk && s.disk[0].status == Failed
  {
    UnreadableObserved(line);
    var s1 := Next(Ended(line, false), Observe(0, Ok));
    assert Next(s1, Raise(0)) == s1.(runs := map[0 := Record(Run("k", Failed, 0, true, true), Ending)]);
  }
}
