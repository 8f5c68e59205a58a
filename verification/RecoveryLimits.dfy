/** Runs in which the guarantees of recovery preparation end, each from the empty world or from any world at the edge
  * of the condition it shows to be needed. */
module RecoveryLimits {
  import opened Text
  import opened RecoveryPrep
  import opened RecoverySafety
  import opened RecoveryTheorems
  import opened RecoveryLife
  import opened RecoveryStranding

  /** Who approves and authorizes a request. */
  datatype People = People(approver: string, authorizer: string)

  predicate Separate(b: Binding, who: People) {
    who.approver != b.requester && who.authorizer != b.requester && who.authorizer != who.approver
  }

  /** The window of the request is well formed and open. */
  predicate InWindow(b: Binding, now: int) {
    b.windowStart < b.windowEnd && b.windowEnd - b.windowStart <= 86400 && WindowOpen(b, now)
  }

  /** A new request is created, approved and authorized while its window is open. */
  function Prepared(id: string, b: Binding, who: People): seq<Step> {
    [Create(id, b), Approve(id, who.approver), Authorize(id, who.authorizer)]
  }

  function Authorization(b: Binding, who: People): Request {
    Request(b, b, true, Authorized, Some(who.approver), Some(who.authorizer), None, None, None, None, false)
  }

  lemma {:induction false} Preparation(w: World, id: string, b: Binding, who: People)
    requires id !in w.requests && TargetOf(b) in w.hosts && InWindow(b, w.now) && Separate(b, who)
    ensures Run(w, Prepared(id, b, who)) == SetRequest(w, id, Authorization(b, who)) && Lossless(Prepared(id, b, who))
  {
    var x, y, z := Create(id, b), Approve(id, who.approver), Authorize(id, who.authorizer);
    var r := Request(b, b, true, AwaitingApproval, None, None, None, None, None, None, false);
    var w1 := SetRequest(w, id, r);
    var w2 := SetRequest(w1, id, r.(state := Approved, approver := Some(who.approver)));
    RunThree(w, x, y, z);
    assert Next(w, x) == w1 && Next(w1, y) == w2;
    assert w2.requests[id := Authorization(b, who)] == w.requests[id := Authorization(b, who)];
  }

  // ---- a late lock ----

  /** Two executions of one request are admitted; the first is blocked before it has made the backup root, and the
    * second then runs the blocked request. */
  lemma BlockedRequestRestarts(hosts: map<Target, Host>, now: int, id: string, b: Binding, who: People)
    requires TargetOf(b) in hosts && PreflightPasses(Authorization(b, who), hosts[TargetOf(b)])
    requires InWindow(b, now) && Separate(b, who)
    ensures var h := hosts[TargetOf(b)]; var a := who.authorizer;
      var w0 := Run(Initial(hosts, now), Prepared(id, b, who));
      var first := Run(w0, [Execute(id, a), Execute(id, a), Go(0, true, h, false), Go(0, true, h, false), Go(0, false, h, false), Go(0, true, h, false), Go(0, true, h, false)]);
      var second := Run(first, [Go(1, true, h, false), Go(1, true, h, false)]);
      && id in first.requests && first.requests[id].state.Blocked? && LocksLate(first, Go(1, true, h, false))
      && id in second.requests && second.requests[id].state.Running?
  {
    Preparation(Initial(hosts, now), id, b, who);
    var t := TargetOf(b);
    var h := hosts[t];
    var a := who.authorizer;
    var r := Authorization(b, who);
    var p := Process(id, a, now, Admitted, true, h);
    var go := Go(0, true, h, false);
    var w0 := World(map[id := r], map[], hosts, [], now);
    assert Run(Initial(hosts, now), Prepared(id, b, who)) == w0;
    var w3 := World(map[id := r], map[t := 0], hosts, [p.(pc := Preflight), p], now);
    var w7 := World(map[id := Started(p, r, h, now).(state := Blocked)], map[], hosts, [p.(pc := Gone), p], now);
    TwoAdmitted(w0, id, b, who, p);
    FirstBlocks(w3, id, b, who, p);
    RunSeven(w0, Execute(id, a), Execute(id, a), go, go, Go(0, false, h, false), go, go);
    LateSecond(w7, t);
  }

  lemma TwoAdmitted(w0: World, id: string, b: Binding, who: People, p: Process)
    requires w0 == World(map[id := Authorization(b, who)], map[], w0.hosts, [], w0.now) && TargetOf(b) in w0.hosts
    requires p == Process(id, who.authorizer, w0.now, Admitted, true, w0.hosts[TargetOf(b)]) && WindowOpen(b, w0.now)
    ensures Next(Next(Next(w0, Execute(id, p.actor)), Execute(id, p.actor)), Go(0, true, w0.hosts[TargetOf(b)], false))
      == World(w0.requests, map[TargetOf(b) := 0], w0.hosts, [p.(pc := Preflight), p], w0.now)
  {
    assert Next(w0, Execute(id, p.actor)) == w0.(processes := [p]);
    assert Next(w0.(processes := [p]), Execute(id, p.actor)) == w0.(processes := [p, p]);
  }

  lemma FirstBlocks(w3: World, id: string, b: Binding, who: People, p: Process)
    requires w3 == World(map[id := Authorization(b, who)], map[TargetOf(b) := 0], w3.hosts, [p.(pc := Preflight), p], w3.now)
    requires TargetOf(b) in w3.hosts && PreflightPasses(Authorization(b, who), w3.hosts[TargetOf(b)])
    requires p.request == id && p.alive && p.start == w3.hosts[TargetOf(b)]
    ensures var h := w3.hosts[TargetOf(b)]; var go := Go(0, true, h, false);
      Next(Next(Next(Next(w3, go), Go(0, false, h, false)), go), go)
      == World(map[id := Started(p, Authorization(b, who), h, w3.now).(state := Blocked)], map[], w3.hosts, [p.(pc := Gone), p], w3.now)
  {
    var t := TargetOf(b);
    var h := w3.hosts[t];
    var go := Go(0, true, h, false);
    var started := Started(p, Authorization(b, who), h, w3.now);
    assert w3.hosts[t := h] == w3.hosts;
    var w4 := World(map[id := started], map[t := 0], w3.hosts, [p.(pc := At(MakeRoot)), p], w3.now);
    var w5 := World(map[id := started], map[t := 0], w3.hosts, [p.(pc := Blocking), p], w3.now);
    assert Next(w3, go) == w4;
    assert Next(w4, Go(0, false, h, false)) == w5;
    BlockingEnds(w5, id, t, p, p, started);
  }

  lemma BlockingEnds(w5: World, id: string, t: Target, q: Process, p: Process, started: Request)
    requires w5 == World(map[id := started], map[t := 0], w5.hosts, [q.(pc := Blocking), p], w5.now)
    requires t in w5.hosts && TargetOf(started.binding) == t && q.request == id && q.alive && started.sealed
    ensures var go := Go(0, true, w5.hosts[t], false);
      Next(Next(w5, go), go) == World(map[id := started.(state := Blocked)], map[], w5.hosts, [q.(pc := Gone), p], w5.now)
  {
    var go := Go(0, true, w5.hosts[t], false);
    assert w5.hosts[t := w5.hosts[t]] == w5.hosts;
    var w6 := World(map[id := started.(state := Blocked)], map[t := 0], w5.hosts, [q.(pc := Unlock(false)), p], w5.now);
    assert Next(w5, go) == w6;
  }

  lemma RunSeven(w: World, a: Step, b: Step, c: Step, d: Step, e: Step, f: Step, g: Step)
    ensures Run(w, [a, b, c, d, e, f, g]) == Next(Next(Next(Next(Next(Next(Next(w, a), b), c), d), e), f), g)
  {
    Extend(w, [], a);
    Extend(w, [a], b);
    Extend(w, [a, b], c);
    Extend(w, [a, b, c], d);
    Extend(w, [a, b, c, d], e);
    Extend(w, [a, b, c, d, e], f);
    Extend(w, [a, b, c, d, e, f], g);
    assert [] + [a] == [a] && [a] + [b] == [a, b] && [a, b] + [c] == [a, b, c] && [a, b, c] + [d] == [a, b, c, d];
    assert [a, b, c, d] + [e] == [a, b, c, d, e] && [a, b, c, d, e] + [f] == [a, b, c, d, e, f];
    assert [a, b, c, d, e, f] + [g] == [a, b, c, d, e, f, g];
  }

  lemma LateSecond(w: World, t: Target)
    requires |w.processes| == 2 && Runs(w, 1) && w.processes[1].pc.Admitted? && TargetAt(w, 1) == t && t !in w.locks
    requires PreflightPasses(w.requests[w.processes[1].request], w.hosts[t])
    ensures var go := Go(1, true, w.hosts[t], false); var second := Run(w, [go, go]);
      w.processes[1].request in second.requests && second.requests[w.processes[1].request].state.Running?
  {
    var go := Go(1, true, w.hosts[t], false);
    Extend(w, [], go);
    Extend(w, [go], go);
    assert [] + [go] == [go] && [go] + [go] == [go, go];
    var w1 := Next(w, go);
    assert Runs(w1, 1) && w1.requests == w.requests && w1.hosts == w.hosts;
  }

  // ---- a lost record ----

  /** The trap of process i gives up the lock: the record stays as it was, the process leaves. */
  lemma AbandonedWorld(w: World, i: nat, torn: bool, h: Host)
    requires Inv(w) && Abandons(w, LoseRecord(i, torn))
    ensures Next(Next(w, LoseRecord(i, torn)), Go(i, true, h, false)) ==
      w.(processes := w.processes[i := w.processes[i].(pc := Gone)], locks := w.locks - {TargetAt(w, i)})
  {
    var p := w.processes[i];
    var t := TargetAt(w, i);
    var w1 := Next(w, LoseRecord(i, torn));
    assert w.requests[p.request := w.requests[p.request]] == w.requests && w.hosts[t := w.hosts[t]] == w.hosts;
    assert w1 == w.(processes := w.processes[i := p.(pc := Unlock(false))]);
    assert w1.processes[i := p.(pc := Gone)] == w.processes[i := p.(pc := Gone)];
  }

  /** From w, a reconciliation of the running request begins, an execution of the other one is admitted and takes the lock,
    * and both are then alive on one target. */
  predicate TheyMeet(w: World, id: string, other: string, actor: string, h: Host) {
    && id in w.requests && w.requests[id].authorizer.Some?
    && var n := |w.processes|;
    var w' := Next(Next(Next(w, Reconcile(id, w.requests[id].authorizer.value)), Execute(other, actor)), Go(n + 1, true, h, false));
    Holder(w', n) && Holder(w', n + 1) && Known(w', n) && Known(w', n + 1) && TargetAt(w', n) == TargetAt(w', n + 1)
  }

  lemma TwoHolders(w: World, id: string, other: string, b: Binding, who: People, h: Host)
    requires id in w.requests && other in w.requests && other != id && w.requests[other] == Authorization(b, who)
    requires Loads(w, id) && w.requests[id].state.Running? && w.requests[id].authorizer.Some? && SoleReconciler(w, id)
    requires TargetOf(w.requests[id].binding) == TargetOf(b) && TargetOf(b) in w.hosts && TargetOf(b) !in w.locks && WindowOpen(b, w.now)
    ensures TheyMeet(w, id, other, who.authorizer, h)
  {
    var n := |w.processes|;
    var w1 := Next(w, Reconcile(id, w.requests[id].authorizer.value));
    assert |w1.processes| == n + 1 && w1.requests == w.requests && w1.locks == w.locks && w1.hosts == w.hosts;
    var w2 := Next(w1, Execute(other, who.authorizer));
    assert |w2.processes| == n + 2 && Runs(w2, n + 1);
  }

  /** While an execution holds the target, nobody reconciles its request. */
  lemma NoReconcilerYet(w: World, i: nat)
    requires Inv(w) && Holder(w, i) && !Reconciles(w.processes[i].pc)
    ensures SoleReconciler(w, w.processes[i].request)
  {
    forall j | 0 <= j < |w.processes| && w.processes[j].request == w.processes[i].request && w.processes[j].alive
      ensures !(w.processes[j].pc.Restoring? && w.processes[j].pc.phase.None?)
    {
      assert ProcessOk(w, j) && ProcessOk(w, i) && OneReconciler(w, i, j);
    }
  }

  /** Once the process is gone and the lock with it. */
  lemma FreedMeet(w: World, i: nat, w0: World, other: string, b: Binding, who: People, h: Host)
    requires Inv(w) && Holder(w, i) && !Reconciles(w.processes[i].pc) && other !in w.requests
    requires var id := w.processes[i].request; Loads(w, id) && w.requests[id].state.Running? && w.requests[id].authorizer.Some?
    requires Known(w, i) && TargetOf(b) == TargetAt(w, i) && InWindow(b, w.now) && Separate(b, who)
    requires w0 == w.(processes := w.processes[i := w.processes[i].(pc := Gone)], locks := w.locks - {TargetAt(w, i)})
    ensures TheyMeet(Run(w0, Prepared(other, b, who)), w.processes[i].request, other, who.authorizer, h)
  {
    Preparation(w0, other, b, who);
    NoReconcilerYet(w, i);
    TwoHolders(SetRequest(w0, other, Authorization(b, who)), w.processes[i].request, other, b, who, h);
  }

  /** What an abandoned request and its target are like. */
  lemma AbandonedRequest(w: World, i: nat, step: Step)
    requires Inv(w) && Abandons(w, step) && step.LoseRecord? && step.process == i && Known(w, i)
    ensures Holder(w, i) && !Reconciles(w.processes[i].pc)
    ensures var id := w.processes[i].request; Loads(w, id) && w.requests[id].state.Running? && w.requests[id].authorizer.Some?
  {
    HolderReady(w, i);
  }

  /** Why runs must be durable: wherever a trap gives up the lock of a running request whose record is whole, a lossless
    * run leads to two live processes on one target. */
  lemma LostRecordFreesTarget(w: World, i: nat, torn: bool, other: string, b: Binding, who: People, h: Host)
    requires Inv(w) && Abandons(w, LoseRecord(i, torn)) && other !in w.requests
    requires Known(w, i) && TargetOf(b) == TargetAt(w, i) && InWindow(b, w.now) && Separate(b, who)
    ensures var w0 := Next(Next(w, LoseRecord(i, torn)), Go(i, true, h, false));
      TheyMeet(Run(w0, Prepared(other, b, who)), w.processes[i].request, other, who.authorizer, h)
  {
    AbandonedWorld(w, i, torn, h);
    AbandonedRequest(w, i, LoseRecord(i, torn));
    FreedMeet(w, i, Next(Next(w, LoseRecord(i, torn)), Go(i, true, h, false)), other, b, who, h);
  }

  /** Such a world is reached from the empty one: a process is terminated between the record of its start and the
    * installation of its second trap. */
  lemma LossIsReached(hosts: map<Target, Host>, now: int, id: string, b: Binding, who: People)
    requires TargetOf(b) in hosts && PreflightPasses(Authorization(b, who), hosts[TargetOf(b)])
    requires InWindow(b, now) && Separate(b, who)
    ensures var h := hosts[TargetOf(b)];
      var steps := Prepared(id, b, who) + [Execute(id, who.authorizer), Go(0, true, h, false), Go(0, true, h, false)];
      Lossless(steps) && Abandons(Run(Initial(hosts, now), steps), LoseRecord(0, false))
  {
    var go := Go(0, true, hosts[TargetOf(b)], false);
    FirstExecution(hosts, now, id, b, who, go, go);
    StartIsAbandoned(Admission(hosts, now, id, b, who), TargetOf(b), hosts[TargetOf(b)]);
  }

  /** The world in which the first execution of a prepared request has been admitted. */
  function Admission(hosts: map<Target, Host>, now: int, id: string, b: Binding, who: People): World
    requires TargetOf(b) in hosts
  {
    World(map[id := Authorization(b, who)], map[], hosts, [Process(id, who.authorizer, now, Admitted, true, hosts[TargetOf(b)])], now)
  }

  lemma FirstExecution(hosts: map<Target, Host>, now: int, id: string, b: Binding, who: People, x: Step, y: Step)
    requires TargetOf(b) in hosts && InWindow(b, now) && Separate(b, who)
    ensures Run(Initial(hosts, now), Prepared(id, b, who) + [Execute(id, who.authorizer), x, y])
      == Next(Next(Admission(hosts, now, id, b, who), x), y)
  {
    Preparation(Initial(hosts, now), id, b, who);
    RunConcat(Initial(hosts, now), Prepared(id, b, who), [Execute(id, who.authorizer), x, y]);
    var w0 := World(map[id := Authorization(b, who)], map[], hosts, [], now);
    RunThree(w0, Execute(id, who.authorizer), x, y);
    assert Next(w0, Execute(id, who.authorizer)) == Admission(hosts, now, id, b, who);
  }

  /** A torn record is reached from the empty world as well: the process is killed while it records its start. */
  lemma TornStartIsAdrift(hosts: map<Target, Host>, now: int, id: string, b: Binding, who: People)
    requires TargetOf(b) in hosts && PreflightPasses(Authorization(b, who), hosts[TargetOf(b)])
    requires InWindow(b, now) && Separate(b, who)
    ensures var steps := Prepared(id, b, who) + [Execute(id, who.authorizer), Go(0, true, hosts[TargetOf(b)], false), Kill(0, true)];
      Lossless(steps) && Adrift(Run(Initial(hosts, now), steps), id)
  {
    FirstExecution(hosts, now, id, b, who, Go(0, true, hosts[TargetOf(b)], false), Kill(0, true));
    TornStart(Admission(hosts, now, id, b, who), TargetOf(b));
  }

  lemma TornStart(w: World, t: Target)
    requires |w.processes| == 1 && Runs(w, 0) && w.processes[0].pc.Admitted? && TargetAt(w, 0) == t && t !in w.locks
    requires PreflightPasses(w.requests[w.processes[0].request], w.hosts[t])
    ensures Adrift(Next(Next(w, Go(0, true, w.hosts[t], false)), Kill(0, true)), w.processes[0].request)
  {
    var w1 := Next(w, Go(0, true, w.hosts[t], false));
    assert Runs(w1, 0) && w1.requests == w.requests && w1.hosts == w.hosts;
  }

  /** The start of an admitted process on free, healthy services can be lost. */
  lemma StartIsAbandoned(w: World, t: Target, h: Host)
    requires |w.processes| == 1 && Runs(w, 0) && w.processes[0].pc.Admitted? && TargetAt(w, 0) == t && t !in w.locks
    requires w.hosts[t] == h && PreflightPasses(w.requests[w.processes[0].request], h)
    ensures var go := Go(0, true, h, false); Abandons(Next(Next(w, go), go), LoseRecord(0, false))
  {
    var w1 := Next(w, Go(0, true, h, false));
    assert Runs(w1, 0) && w1.requests == w.requests && w1.hosts == w.hosts;
  }

  // ---- a late start ----

  /** The window can close between its check and the record of the start. */
  lemma LateStart(w: World, id: string, actor: string, h: Host)
    requires Loads(w, id) && w.requests[id].state.Authorized? && w.requests[id].authorizer == Some(actor)
    requires WindowOpen(w.requests[id].binding, w.now)
    requires var t := TargetOf(w.requests[id].binding);
      t in w.hosts && t !in w.locks && w.hosts[t] == h && PreflightPasses(w.requests[id], h)
    ensures var late := w.requests[id].binding.windowEnd - w.now + 1; var go := Go(|w.processes|, true, h, false);
      var w' := Next(Next(Next(Next(w, Execute(id, actor)), go), Tick(late)), go);
      && id in w'.requests && w'.requests[id].state.Running?
      && w'.requests[id].startedAt.Some? && !WindowOpen(w'.requests[id].binding, w'.requests[id].startedAt.value)
  {
    var n := |w.processes|;
    var late := w.requests[id].binding.windowEnd - w.now + 1;
    var w1 := Next(w, Execute(id, actor));
    assert Runs(w1, n) && w1.requests == w.requests && w1.hosts == w.hosts && w1.locks == w.locks;
    var w3 := Next(Next(w1, Go(n, true, h, false)), Tick(late));
    assert Runs(w3, n) && w3.requests == w.requests && w3.hosts == w.hosts;
  }
}
