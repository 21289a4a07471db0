/** Orders that overlap. `start` looks a request id up before, and not in, the serialized section that
    appends the new job, so two orders with one request id may both find nothing. */
module JobRequests {
  import opened Storage
  import opened Wrappers
  import opened DurableJobs
  import opened JobSafety
  import opened JobWrites
  import opened JobOverlap

  // ---- when request ids stay unique ------------------------------------------------------

  /** The jobs that stay when one is appended: all of them, or all but the first that may be evicted. */
  function Staying(jobs: seq<Job>): seq<Job> {
    var k := FirstEvictable(jobs);
    if |jobs| < MAX_DURABLE_JOBS || k == |jobs| then jobs else jobs[..k] + jobs[k + 1..]
  }

  /** If the step appends a new job, its request id is still free among the jobs that stay. */
  predicate FindsItFree(s: System, e: JobOverlap.Event) {
    e.Resume? && e.i < |s.calls| && s.calls[e.i].Appending? && Persists(e.meets.fate) ==>
      var o, jobs := s.calls[e.i].order, s.store.jobs;
      Append(jobs, QueuedJob(s.store.next, s.calls[e.i].runnerIdentity, o)).Success? ==>
        FindRequest(Staying(jobs), o.projectId, o.requestId).None?
  }

  predicate AllFindFree(s: System, events: seq<JobOverlap.Event>)
    decreases |events|
  {
    events != [] ==> FindsItFree(s, events[0]) && AllFindFree(Apply(s, events[0]), events[1..])
  }

  predicate AlwaysUnique(s: System, events: seq<JobOverlap.Event>)
    decreases |events|
  {
    UniqueRequests(s.store.jobs) && (events != [] ==> AlwaysUnique(Apply(s, events[0]), events[1..]))
  }

  lemma StayingUnique(jobs: seq<Job>)
    requires UniqueJobs(jobs) && UniqueRequests(jobs)
    ensures UniqueRequests(Staying(jobs))
  {
    var k := FirstEvictable(jobs);
    if k < |jobs| {
      KeptUnique(jobs, k, jobs[..k] + jobs[k + 1..]);
    }
  }

  lemma AddedUniqueIff(kept: seq<Job>, queued: Job)
    requires UniqueRequests(kept)
    ensures UniqueRequests(kept + [queued]) <==> FindRequest(kept, queued.projectId, queued.requestId).None?
  {
    var next, found := kept + [queued], FindRequest(kept, queued.projectId, queued.requestId);
    if found.Some? {
      var i :| 0 <= i < |kept| && kept[i] == found.value;
      assert SameRequest(next[i], next[|kept|]);
    } else {
      forall i, n | 0 <= i < n < |next| ensures !SameRequest(next[i], next[n]) {
        assert next[i] in kept;
      }
    }
  }

  lemma AppendedUniqueIff(jobs: seq<Job>, queued: Job)
    requires UniqueJobs(jobs) && UniqueRequests(jobs) && Append(jobs, queued).Success?
    ensures UniqueRequests(Append(jobs, queued).value)
      <==> FindRequest(Staying(jobs), queued.projectId, queued.requestId).None?
  {
    StayingUnique(jobs);
    AddedUniqueIff(Staying(jobs), queued);
    assert Append(jobs, queued).value == Staying(jobs) + [queued];
  }

  lemma ReplacedStaysUnique(s: Store, job: Job)
    requires StoreKept(s) && UniqueRequests(s.jobs) && Known(s, job)
    ensures UniqueRequests(ReplaceJob(s.jobs, job))
  {
    var after := ReplaceJob(s.jobs, job);
    forall i | 0 <= i < |after| ensures SameRequest(after[i], s.jobs[i]) {
      if s.jobs[i].jobId == job.jobId {
        ReplacementIs(s, job, s.jobs[i]);
      }
    }
  }

  /** One step leaves request ids unique exactly when, if it appends a job, its request id is still free. */
  lemma EventUniqueIff(s: System, e: JobOverlap.Event)
    requires SystemInv(s) && UniqueRequests(s.store.jobs)
    ensures UniqueRequests(Apply(s, e).store.jobs) <==> FindsItFree(s, e)
  {
    if e.Resume? && e.i < |s.calls| {
      StepUniqueIff(s, e.i, e.meets);
    }
  }

  lemma StepUniqueIff(s: System, i: nat, m: Meets)
    requires SystemInv(s) && UniqueRequests(s.store.jobs) && i < |s.calls|
    ensures UniqueRequests(After(s.store, StepCall(s.store, s.calls[i], m)).jobs) <==> FindsItFree(s, Resume(i, m))
  {
    var c := s.calls[i];
    if c.Appending? {
      var queued := QueuedJob(s.store.next, c.runnerIdentity, c.order);
      if Append(s.store.jobs, queued).Success? {
        AppendedUniqueIff(s.store.jobs, queued);
      }
    } else {
      OthersStayUnique(s.store, c, m);
    }
  }

  lemma OthersStayUnique(s: Store, c: Call, m: Meets)
    requires StoreKept(s) && UniqueRequests(s.jobs) && Holds(s, c) && !c.Appending?
    ensures UniqueRequests(After(s, StepCall(s, c, m)).jobs)
  {
    if c.Storing? {
      ReplacedStaysUnique(s, c.job);
      StoringLeaves(s, c, m);
    } else {
      OnlyThoseWrite(s, c, m);
    }
  }

  lemma {:induction false} RunUniqueIff(s: System, events: seq<JobOverlap.Event>)
    requires SystemInv(s) && UniqueRequests(s.store.jobs)
    ensures AlwaysUnique(s, events) <==> AllFindFree(s, events)
    decreases |events|
  {
    if events != [] {
      EventKeeps(s, events[0]);
      EventUniqueIff(s, events[0]);
      if FindsItFree(s, events[0]) {
        RunUniqueIff(Apply(s, events[0]), events[1..]);
      }
    }
  }

  /** Over every interleaving request ids stay unique per project exactly as long as every new job that is
      appended still finds its request id free among the jobs that stay. */
  lemma RequestsUniqueIff(s: System, events: seq<JobOverlap.Event>)
    requires Init(s.store) && s.calls == []
    ensures AlwaysUnique(s, events) <==> AllFindFree(s, events)
  {
    RunUniqueIff(s, events);
  }

  // ---- two orders with one request id ----------------------------------------------------

  lemma Ordered(s: System, o: Order, runnerIdentity: Id)
    ensures Apply(s, Begin(Ordering(o, runnerIdentity))) == System(s.store, s.calls + [Ordering(o, runnerIdentity)])
  {
  }

  lemma FindsNothing(s: Store, calls: seq<Call>, i: nat, m: Meets)
    requires i < |calls| && calls[i].Ordering? && s.jobs == []
    ensures Apply(System(s, calls), Resume(i, m))
      == System(s, calls[i := Appending(calls[i].order, calls[i].runnerIdentity)])
  {
  }

  lemma Appends(s: Store, calls: seq<Call>, i: nat, m: Meets)
    requires i < |calls| && calls[i].Appending? && m.fate == Written && |s.jobs| < MAX_DURABLE_JOBS
    ensures var queued := QueuedJob(s.next, calls[i].runnerIdentity, calls[i].order);
      Apply(System(s, calls), Resume(i, m))
        == System(Remember(s, s.jobs + [queued], s.next + 1), calls[i := LaunchingJob(queued)])
  {
  }

  lemma FindsJob(s: Store, calls: seq<Call>, i: nat, m: Meets, j: Job)
    requires i < |calls| && calls[i].Ordering? && s.jobs == [j]
    requires j.projectId == calls[i].order.projectId && j.requestId == calls[i].order.requestId
    requires j.fingerprint == Some(calls[i].order.fingerprint)
    ensures Apply(System(s, calls), Resume(i, m)) == System(s, calls[i := Reconciling(j, false)])
  {
    FoundRequest(s.jobs, j);
  }

  /** Two orders with one request id that are both looked up before either is appended are both stored. */
  lemma BothStored(s: System, o: Order, first: Id, second: Id, m: Meets, events: seq<JobOverlap.Event>)
    requires Init(s.store) && s.calls == [Ordering(o, first), Ordering(o, second)] && m.fate == Written
    requires events == [Resume(0, m), Resume(1, m)]
    ensures JobOverlap.Run(JobOverlap.Run(s, events), events).store.jobs
         == [QueuedJob(s.store.next, first, o), QueuedJob(s.store.next + 1, second, o)]
  {
    BothLooked(s.store, o, first, second, m);
    BothAppended(s.store, o, first, second, m);
    assert s == System(s.store, [Ordering(o, first), Ordering(o, second)]);
    assert JobOverlap.Run(s, events) == System(s.store, [Appending(o, first), Appending(o, second)]);
  }

  lemma BothLooked(s: Store, o: Order, first: Id, second: Id, m: Meets)
    requires s.jobs == []
    ensures JobOverlap.Run(System(s, [Ordering(o, first), Ordering(o, second)]), [Resume(0, m), Resume(1, m)])
         == System(s, [Appending(o, first), Appending(o, second)])
  {
    var calls := [Ordering(o, first), Ordering(o, second)];
    RunTwo(System(s, calls), Resume(0, m), Resume(1, m));
    FindsNothing(s, calls, 0, m);
    FindsNothing(s, calls[0 := Appending(o, first)], 1, m);
  }

  lemma BothAppended(s: Store, o: Order, first: Id, second: Id, m: Meets)
    requires s.jobs == [] && m.fate == Written
    ensures var calls := [Appending(o, first), Appending(o, second)];
      JobOverlap.Run(System(s, calls), [Resume(0, m), Resume(1, m)]).store.jobs
        == [QueuedJob(s.next, first, o), QueuedJob(s.next + 1, second, o)]
  {
    var calls, j := [Appending(o, first), Appending(o, second)], QueuedJob(s.next, first, o);
    RunTwo(System(s, calls), Resume(0, m), Resume(1, m));
    Appends(s, calls, 0, m);
    Appends(Remember(s, [j], s.next + 1), calls[0 := LaunchingJob(j)], 1, m);
  }

  /** An order that is repeated while its job is being launched: the repetition is about to reconcile the
      queued job that the launch holds. */
  lemma RepeatedWhileLaunching(s: System, o: Order, first: Id, second: Id, m: Meets)
    requires Init(s.store) && s.calls == [] && m.fate == Written
    ensures var j := QueuedJob(s.store.next, first, o);
      var looked := JobOverlap.Run(s, [Begin(Ordering(o, first)), Resume(0, m)]);
      var launching := JobOverlap.Run(looked, [Resume(0, m), Begin(Ordering(o, second))]);
      Apply(launching, Resume(1, m))
        == System(Remember(s.store, [j], s.store.next + 1), [LaunchingJob(j), Reconciling(j, false)])
  {
    var j := QueuedJob(s.store.next, first, o);
    var x := Remember(s.store, [j], s.store.next + 1);
    LookedUp(s, o, first, m);
    LaunchesAndOrders(s.store, o, first, second, m);
    FindsJob(x, [LaunchingJob(j), Ordering(o, second)], 1, m, j);
    assert [LaunchingJob(j), Ordering(o, second)][1 := Reconciling(j, false)]
      == [LaunchingJob(j), Reconciling(j, false)];
  }

  lemma LookedUp(s: System, o: Order, runnerIdentity: Id, m: Meets)
    requires Init(s.store) && s.calls == []
    ensures JobOverlap.Run(s, [Begin(Ordering(o, runnerIdentity)), Resume(0, m)])
         == System(s.store, [Appending(o, runnerIdentity)])
  {
    RunTwo(s, Begin(Ordering(o, runnerIdentity)), Resume(0, m));
    Ordered(s, o, runnerIdentity);
    assert s.calls + [Ordering(o, runnerIdentity)] == [Ordering(o, runnerIdentity)];
    FindsNothing(s.store, [Ordering(o, runnerIdentity)], 0, m);
    assert [Ordering(o, runnerIdentity)][0 := Appending(o, runnerIdentity)] == [Appending(o, runnerIdentity)];
  }

  lemma LaunchesAndOrders(s: Store, o: Order, first: Id, second: Id, m: Meets)
    requires s.jobs == [] && m.fate == Written
    ensures var j := QueuedJob(s.next, first, o);
      JobOverlap.Run(System(s, [Appending(o, first)]), [Resume(0, m), Begin(Ordering(o, second))])
        == System(Remember(s, [j], s.next + 1), [LaunchingJob(j), Ordering(o, second)])
  {
    var j := QueuedJob(s.next, first, o);
    RunTwo(System(s, [Appending(o, first)]), Resume(0, m), Begin(Ordering(o, second)));
    Appends(s, [Appending(o, first)], 0, m);
    assert [] + [j] == [j] && [Appending(o, first)][0 := LaunchingJob(j)] == [LaunchingJob(j)];
    Ordered(System(Remember(s, [j], s.next + 1), [LaunchingJob(j)]), o, second);
    assert [LaunchingJob(j)] + [Ordering(o, second)] == [LaunchingJob(j), Ordering(o, second)];
  }
}
