/** The queue directory as a mutable store: each method is one pass through a locked section
  * and is proved against the section's function in AgentQueue. */
module AgentQueueStore {
  import opened Text
  import opened AgentQueue

  /** `peer` keeps `j` from being claimed. */
  predicate Blocks(peer: Job, j: Job) {
    && peer.plan == j.plan && peer.id != j.id
    && (Active(peer) || (Less(peer.task, j.task) && !SucceededJob(peer)))
  }

  ghost function ExpireThese(jobs: map<string, Job>, ids: seq<string>, now: int): map<string, Job> {
    map id | id in jobs :: if id in ids then Expire(jobs[id], now) else jobs[id]
  }

  lemma ExpireTheseAll(jobs: map<string, Job>, order: seq<string>, now: int)
    requires Listed(order, jobs.Keys)
    ensures ExpireThese(jobs, order, now) == ExpireAll(jobs, now)
  {
  }

  lemma ExpireNext(jobs: map<string, Job>, order: seq<string>, i: nat, now: int)
    requires Listed(order, jobs.Keys) && i < |order|
    requires forall id | id in jobs :: jobs[id].id == id
    ensures order[i] in jobs
    ensures
      var here := ExpireThese(jobs, order[..i], now);
      var j := here[order[i]];
      && j == jobs[order[i]]
      && ExpireThese(jobs, order[..i + 1], now) == if Lapsed(j, now) then here[j.id := Expire(j, now)] else here
  {
    ListedOnce(order, jobs.Keys, i);
    assert order[..i + 1] == order[..i] + [order[i]];
  }

  class QueueStore {
    var jobs: map<string, Job>
    var order: seq<string>
    var history: map<(string, nat), Job>

    ghost function Value(): Queue
      reads this
    {
      Queue(jobs, order, history)
    }

    constructor ()
      ensures Value() == Queue(map[], [], map[])
      ensures WellFormed(Value())
    {
      jobs, order, history := map[], [], map[];
    }

    method WriteJob(j: Job)
      modifies this`jobs
      ensures Value() == Store(old(Value()), j)
    {
      jobs := jobs[j.id := j];
    }

    method PublishTask(plan: string, task: string, node: string, adapter: string, attempt: int) returns (r: Reply)
      requires WellFormed(Value())
      modifies this
      ensures (Value(), r) == Publish(old(Value()), plan, task, node, adapter, attempt)
      ensures WellFormed(Value())
    {
      PublishKeepsWellFormed(Value(), plan, task, node, adapter, attempt);
      if !Publishable(plan, task, node, adapter, attempt) {
        return Refused(BadRequest);
      }
      var id := JobId(plan, task);
      var generation := 0;
      if id in jobs {
        var prior := jobs[id];
        if !SameBinding(prior, plan, task, node, adapter) {
          return Refused(Conflict);
        }
        if prior.attempt == attempt {
          return Granted(prior);
        }
        if !prior.status.Completed? || attempt != prior.attempt + 1 {
          return Refused(Conflict);
        }
        if (id, prior.attempt) in history {
          return Refused(Conflict);
        }
        history := history[(id, prior.attempt) := prior];
        generation := prior.generation;
      } else {
        AddToListing(id);
      }
      var j := NewJob(plan, task, node, adapter, attempt, generation);
      WriteJob(j);
      r := Granted(j);
    }

    /** A new file takes its place in the sorted listing. */
    method AddToListing(id: string)
      modifies this`order
      ensures order == Insert(old(order), id)
    {
      var i := 0;
      while i < |order| && !FileLess(id, order[i])
        invariant 0 <= i <= |order| && order == old(order)
        invariant Insert(order, id) == order[..i] + Insert(order[i..], id)
      {
        InsertStep(order, i, id);
        i := i + 1;
      }
      assert order[..i] + ([id] + order[i..]) == order[..i] + [id] + order[i..];
      order := order[..i] + [id] + order[i..];
    }

    method ExpireLeases(now: int)
      requires WellFormed(Value())
      modifies this`jobs
      ensures jobs == ExpireAll(old(jobs), now)
      ensures WellFormed(Value())
    {
      ghost var before := jobs;
      ghost var names := order;
      var i := 0;
      while i < |order|
        invariant 0 <= i <= |order| && order == names
        invariant jobs == ExpireThese(before, names[..i], now)
      {
        ExpireNext(before, names, i, now);
        var j := jobs[order[i]];
        if Lapsed(j, now) {
          WriteJob(Expire(j, now));
        }
        i := i + 1;
      }
      assert names[..i] == names;
      ExpireKeepsWellFormed(old(Value()), now);
      ExpireTheseAll(before, names, now);
    }

    /** `any(...)` over the listing: is some job of this node active? */
    method NodeBusy(node: string) returns (busy: bool)
      requires WellFormed(Value())
      ensures busy <==> exists k :: k in jobs && jobs[k].node == node && Active(jobs[k])
    {
      var i := 0;
      while i < |order|
        invariant 0 <= i <= |order|
        invariant forall k | k in order[..i] :: !(jobs[k].node == node && Active(jobs[k]))
      {
        var j := jobs[order[i]];
        if j.node == node && Active(j) {
          return true;
        }
        assert order[..i + 1] == order[..i] + [order[i]];
        i := i + 1;
      }
      assert order[..i] == order;
      return false;
    }

    /** The two peer tests of the claim loop: an active peer or an unfinished predecessor blocks a job. */
    method PlanBlocks(id: string) returns (blocked: bool)
      requires WellFormed(Value()) && id in jobs
      ensures blocked <==> exists k :: k in jobs && Blocks(jobs[k], jobs[id])
    {
      var i := 0;
      while i < |order|
        invariant 0 <= i <= |order|
        invariant forall k | k in order[..i] :: !Blocks(jobs[k], jobs[id])
      {
        if Blocks(jobs[order[i]], jobs[id]) {
          return true;
        }
        assert order[..i + 1] == order[..i] + [order[i]];
        i := i + 1;
      }
      assert order[..i] == order;
      return false;
    }

    /** The search of the claim loop on a node with nothing active. */
    method FindEligible(node: string) returns (pick: Option<string>)
      requires WellFormed(Value())
      requires forall k | k in jobs :: !(jobs[k].node == node && Active(jobs[k]))
      ensures pick == FirstEligible(jobs, order, node)
      ensures pick.Some? ==> pick.value in jobs
    {
      var i := 0;
      while i < |order|
        invariant 0 <= i <= |order|
        invariant FirstEligible(jobs, order, node) == FirstEligible(jobs, order[i..], node)
      {
        assert order[i..][0] == order[i] && order[i..][1..] == order[i + 1..];
        var j := jobs[order[i]];
        if j.node == node && j.status.Queued? {
          var blocked := PlanBlocks(j.id);
          EligibleIffUnblocked(Value(), node, j.id);
          if !blocked {
            return Some(order[i]);
          }
        }
        i := i + 1;
      }
      pick := None;
    }

    method ClaimJob(node: string, agent: string, seconds: int, enrolled: bool, token: nat, now: int) returns (r: Reply)
      requires WellFormed(Value())
      modifies this`jobs
      ensures (Value(), r) == Claim(old(Value()), node, agent, seconds, enrolled, token, now)
      ensures WellFormed(Value())
    {
      if !Identifier(node, 128) || !Identifier(agent, 128) || !(30 <= seconds <= 3600) {
        return Refused(BadRequest);
      }
      if !enrolled {
        return Refused(Forbidden);
      }
      ExpireLeases(now);
      var busy := NodeBusy(node);
      if busy {
        NothingEligible(jobs, order, node);
        return Idle;
      }
      var pick := FindEligible(node);
      if pick.None? {
        return Idle;
      }
      var claimed := ClaimedBy(jobs[pick.value], agent, now + seconds, token);
      StoreKeepsWellFormed(Value(), claimed);
      WriteJob(claimed);
      r := Granted(claimed);
    }

    /** The ownership check: a lapsed lease is written back before the refusal. */
    method Owned(id: string, who: Caller, now: int) returns (r: Reply)
      requires WellFormed(Value())
      modifies this`jobs
      ensures (Value(), r) == OwnedSection(old(Value()), id, who, now)
      ensures WellFormed(Value())
    {
      if !ValidJobId(id) {
        return Refused(BadRequest);
      }
      if id !in jobs {
        return Refused(NotFound);
      }
      var j := jobs[id];
      if !who.enrolled {
        return Refused(Forbidden);
      }
      if !TokenMatches(j, who) {
        return Refused(Conflict);
      }
      if Lapsed(j, now) {
        WriteJob(Expire(j, now));
        return Refused(Conflict);
      }
      if !Leased(j) {
        return Refused(Conflict);
      }
      r := Granted(j);
    }

    method Extend(id: string, who: Caller, seconds: int, now: int) returns (r: Reply)
      requires WellFormed(Value())
      modifies this`jobs
      ensures (Value(), r) == ExtendLease(old(Value()), id, who, seconds, now)
      ensures WellFormed(Value())
    {
      if !(30 <= seconds <= 3600) {
        return Refused(BadRequest);
      }
      r := Owned(id, who, now);
      if r.Granted? {
        var j := r.job.(status := Running, lease := Some(now + seconds));
        WriteJob(j);
        r := Granted(j);
      }
    }

    /** The second locked section of `defer_pending`, entered after the native task was seen pending. */
    method Defer(id: string, who: Caller, now: int) returns (r: Reply)
      requires WellFormed(Value())
      modifies this`jobs
      ensures (Value(), r) == DeferPending(old(Value()), id, who, now)
      ensures WellFormed(Value())
    {
      r := Owned(id, who, now);
      if r.Granted? {
        var j := r.job.(tokenHash := None);
        j := j.(status := Queued, claimedBy := None, lease := None);
        WriteJob(j);
        r := Granted(j);
      }
    }

    method Flag(id: string, who: Caller, now: int) returns (r: Reply)
      requires WellFormed(Value())
      modifies this`jobs
      ensures (Value(), r) == RequireReconciliation(old(Value()), id, who, now)
      ensures WellFormed(Value())
    {
      r := Owned(id, who, now);
      if r.Granted? {
        var j := r.job.(tokenHash := None);
        j := j.(status := ReconciliationRequired, lease := None);
        StoreKeepsWellFormed(Value(), j);
        WriteJob(j);
        r := Granted(j);
      }
    }

    /** The second locked section of `complete`, entered with a terminal native task. */
    method Finish(id: string, who: Caller, t: NativeTask, now: int) returns (r: Reply)
      requires WellFormed(Value())
      modifies this`jobs
      ensures (Value(), r) == Complete(old(Value()), id, who, t, now)
      ensures WellFormed(Value())
    {
      var outcome := JobResult(if t.status.Succeeded? then "success" else "failed", t);
      r := Owned(id, who, now);
      if r.Granted? {
        var j := r.job.(status := Completed, result := Some(outcome), lease := None);
        WriteJob(j);
        r := Granted(j);
      }
    }

    method BeginReconcile(id: string, now: int) returns (r: Reply)
      requires WellFormed(Value())
      modifies this`jobs
      ensures (Value(), r) == ReconcileBegin(old(Value()), id, now)
      ensures WellFormed(Value())
    {
      if !ValidJobId(id) {
        return Refused(BadRequest);
      }
      if id !in jobs {
        return Refused(NotFound);
      }
      if Lapsed(jobs[id], now) {
        WriteJob(Expire(jobs[id], now));
      }
      if !jobs[id].status.ReconciliationRequired? {
        return Refused(Conflict);
      }
      r := Granted(jobs[id]);
    }

    method CommitReconcile(seen: Job, t: NativeTask) returns (r: Reply)
      requires WellFormed(Value())
      modifies this`jobs
      ensures (Value(), r) == ReconcileCommit(old(Value()), seen, t)
      ensures WellFormed(Value())
    {
      if seen.id !in jobs {
        return Refused(NotFound);
      }
      var j := jobs[seen.id];
      if !j.status.ReconciliationRequired? || j.generation != seen.generation || j.attempt != seen.attempt {
        return Refused(Conflict);
      }
      j := j.(status := Completed, lease := None,
              result := Some(JobResult(if t.status.Succeeded? then "succeeded" else "failed", t)));
      WriteJob(j);
      r := Granted(j);
    }
  }

  lemma EligibleIffUnblocked(q: Queue, node: string, id: string)
    requires WellFormed(q) && id in q.jobs && q.jobs[id].node == node && q.jobs[id].status.Queued?
    requires forall k | k in q.jobs :: !(q.jobs[k].node == node && Active(q.jobs[k]))
    ensures Eligible(q.jobs, node, id) <==> !exists k :: k in q.jobs && Blocks(q.jobs[k], q.jobs[id])
  {
  }

  lemma InsertStep(order: seq<string>, i: nat, id: string)
    requires i < |order| && !FileLess(id, order[i])
    ensures order[..i] + Insert(order[i..], id) == order[..i + 1] + Insert(order[i + 1..], id)
  {
    assert order[i..][1..] == order[i + 1..];
    assert order[..i + 1] == order[..i] + [order[i]];
    assert Insert(order[i..], id) == [order[i]] + Insert(order[i + 1..], id);
  }

  lemma ListedOnce(order: seq<string>, keys: set<string>, i: nat)
    requires Listed(order, keys) && i < |order|
    ensures order[i] !in order[..i]
  {
    LessIrreflexive(order[i] + ".json");
  }

  lemma NothingEligible(jobs: map<string, Job>, order: seq<string>, node: string)
    requires exists k :: k in jobs && jobs[k].node == node && Active(jobs[k])
    ensures FirstEligible(jobs, order, node).None?
    decreases |order|
  {
    if |order| > 0 {
      NothingEligible(jobs, order[1..], node);
    }
  }

  lemma {:induction false} InsertIsListed(order: seq<string>, keys: set<string>, id: string)
    requires Listed(order, keys) && id !in keys
    ensures Listed(Insert(order, id), keys + {id})
    decreases |order|
  {
    if |order| == 0 {
    } else if FileLess(id, order[0]) {
      forall k | k in keys ensures FileLess(id, k) {
        if k != order[0] {
          LessTransitive(id + ".json", order[0] + ".json", k + ".json");
        }
      }
      PrependListed(id, order, keys);
    } else {
      var rest := keys - {order[0]};
      LessTotal(id + ".json", order[0] + ".json");
      FileNameInjective(id, order[0]);
      TailListed(order, keys);
      InsertIsListed(order[1..], rest, id);
      PrependListed(order[0], Insert(order[1..], id), rest + {id});
      assert rest + {id} + {order[0]} == keys + {id};
    }
  }

  lemma PrependListed(first: string, order: seq<string>, keys: set<string>)
    requires Listed(order, keys) && first !in keys && forall k | k in keys :: FileLess(first, k)
    ensures Listed([first] + order, keys + {first})
  {
    forall k | k in keys + {first} ensures k in [first] + order {
      assert k == first || k in order;
    }
  }

  lemma TailListed(order: seq<string>, keys: set<string>)
    requires Listed(order, keys) && |order| > 0
    ensures Listed(order[1..], keys - {order[0]})
    ensures forall k | k in keys && k != order[0] :: FileLess(order[0], k)
  {
    assert order == [order[0]] + order[1..];
    forall i | 0 <= i < |order[1..]| ensures order[1..][i] != order[0] {
      LessIrreflexive(order[0] + ".json");
    }
  }

  lemma FileNameInjective(a: string, b: string)
    ensures a + ".json" == b + ".json" ==> a == b
  {
    assert |a + ".json"| == |a| + 5 && |b + ".json"| == |b| + 5;
    assert a == (a + ".json")[..|a|] && b == (b + ".json")[..|b|];
  }

  lemma ExpireKeepsWellFormed(q: Queue, now: int)
    requires WellFormed(q)
    ensures WellFormed(q.(jobs := ExpireAll(q.jobs, now)))
  {
    assert ExpireAll(q.jobs, now).Keys == q.jobs.Keys;
  }

  lemma StoreKeepsWellFormed(q: Queue, j: Job)
    requires WellFormed(q) && j.id in q.jobs && WellNamed(j)
    ensures WellFormed(Store(q, j))
  {
    assert Store(q, j).jobs.Keys == q.jobs.Keys;
  }

  lemma PublishKeepsWellFormed(q: Queue, plan: string, task: string, node: string, adapter: string, attempt: int)
    requires WellFormed(q)
    ensures WellFormed(Publish(q, plan, task, node, adapter, attempt).0)
  {
    var id := JobId(plan, task);
    if Publishable(plan, task, node, adapter, attempt) {
      if id !in q.jobs {
        var j := NewJob(plan, task, node, adapter, attempt, 0);
        AddKeepsWellFormed(q, j);
      } else {
        StoreKeepsWellFormed(q, NewJob(plan, task, node, adapter, attempt, q.jobs[id].generation));
      }
    }
  }

  lemma AddKeepsWellFormed(q: Queue, j: Job)
    requires WellFormed(q) && j.id !in q.jobs && WellNamed(j)
    ensures WellFormed(Store(q, j).(order := Insert(q.order, j.id)))
  {
    InsertIsListed(q.order, q.jobs.Keys, j.id);
    assert Store(q, j).jobs.Keys == q.jobs.Keys + {j.id};
  }
}
