/** Durable jobs over every run of calls taken one at a time: what holds of the store and of the states.
    What survives overlapping calls is in the modules about writes and overlap. */
module JobRuns {
  import opened Storage
  import opened Wrappers
  import opened DurableJobs
  import opened JobSafety

  predicate WorldInv(w: World) {
    StoreInv(w.jobs) && forall j :: j in w.jobs ==> j.jobId < w.next
  }

  predicate Init(w: World) {
    w.jobs == []
  }

  /** `x` is a later store: a job with an old id is a later state of that job. */
  ghost predicate Later(w: World, x: World) {
    && w.next <= x.next
    && forall k :: k in x.jobs ==> w.next <= k.jobId || AdvancesIn(w.jobs, k)
  }

  lemma LaterTrans(w: World, x: World, y: World)
    requires Later(w, x) && Later(x, y)
    ensures Later(w, y)
  {
    forall k | k in y.jobs ensures w.next <= k.jobId || AdvancesIn(w.jobs, k) {
      if AdvancesIn(x.jobs, k) {
        var j := Find(x.jobs, k.jobId).value;
        assert w.next <= j.jobId || AdvancesIn(w.jobs, j);
      }
    }
  }

  // ---- every event keeps the invariant ---------------------------------------------------

  /** What an event may do to the stored jobs: they advance, and a new job has the next id. */
  ghost predicate StepsTo(w: World, next: Id, jobs: seq<Job>) {
    && StoreInv(jobs) && w.next <= next
    && forall k :: k in jobs ==> k.jobId < next && (w.next <= k.jobId || AdvancesIn(w.jobs, k))
  }

  lemma RewritesStep(w: World, next: Id, jobs: seq<Job>)
    requires WorldInv(w) && Rewrites(w.jobs, jobs) && w.next <= next
    ensures StepsTo(w, next, jobs)
  {
    forall k | k in jobs ensures k.jobId < w.next {
      assert AdvancesIn(w.jobs, k);
    }
  }

  lemma StartShape(jobs: seq<Job>, jobId: Id, runnerIdentity: Id, o: Order, s: Sight, l: Launch, first: Fate,
                   second: Fate, third: Fate)
    ensures var after := Start(jobs, jobId, runnerIdentity, o, s, l, first, second, third).0;
      var existing, queued := FindRequest(jobs, o.projectId, o.requestId), QueuedJob(jobId, runnerIdentity, o);
      || after == jobs
      || (existing.Some? && after == Decide(jobs, existing.value, Reconcile(existing.value, s), first).0)
      || (existing.None? && Append(jobs, queued).Success?
          && (after == Append(jobs, queued).value
              || after == LaunchQueued(Append(jobs, queued).value, queued, l, s.trouble, second, third).0))
  {
  }

  lemma StartSteps(w: World, e: Event)
    requires WorldInv(w) && e.StartEvent?
    ensures StepsTo(w, w.next + 1, StepJobs(w, e))
  {
    var jobs, after := w.jobs, StepJobs(w, e);
    StartShape(jobs, w.next, e.runnerIdentity, e.order, e.sight, e.launch, e.first, e.second, e.third);
    RewritesSelf(jobs);
    var existing := FindRequest(jobs, e.order.projectId, e.order.requestId);
    if after == jobs {
      RewritesStep(w, w.next + 1, after);
    } else if existing.Some? {
      ReconcileSound(existing.value, e.sight);
      DecideRewrites(jobs, existing.value, Reconcile(existing.value, e.sight), e.first);
      RewritesStep(w, w.next + 1, after);
    } else {
      StartedSteps(w, QueuedJob(w.next, e.runnerIdentity, e.order), e);
    }
  }

  lemma StartedSteps(w: World, queued: Job, e: Event)
    requires WorldInv(w) && e.StartEvent? && queued == QueuedJob(w.next, e.runnerIdentity, e.order)
    requires Append(w.jobs, queued).Success?
    requires FindRequest(w.jobs, e.order.projectId, e.order.requestId).None?
    ensures var appended := Append(w.jobs, queued).value;
      && StepsTo(w, w.next + 1, appended)
      && StepsTo(w, w.next + 1, LaunchQueued(appended, queued, e.launch, e.sight.trouble, e.second, e.third).0)
  {
    var appended := Append(w.jobs, queued).value;
    AppendKeeps(w.jobs, queued);
    AppendedSteps(w, queued, appended);
    LaunchRewrites(appended, queued, e.launch, e.sight.trouble, e.second, e.third);
    LaunchedSteps(w, appended, LaunchQueued(appended, queued, e.launch, e.sight.trouble, e.second, e.third).0);
  }

  lemma AppendedSteps(w: World, queued: Job, jobs: seq<Job>)
    requires WorldInv(w) && AppendedTo(w.jobs, queued, jobs) && queued.jobId == w.next
    ensures StepsTo(w, w.next + 1, jobs)
  {
    RewritesSelf(w.jobs);
  }

  lemma LaunchedSteps(w: World, jobs: seq<Job>, after: seq<Job>)
    requires StepsTo(w, w.next + 1, jobs) && Rewrites(jobs, after)
    ensures StepsTo(w, w.next + 1, after)
  {
    forall k | k in after ensures k.jobId < w.next + 1 && (w.next <= k.jobId || AdvancesIn(w.jobs, k)) {
      assert AdvancesIn(jobs, k);
      var j := Find(jobs, k.jobId).value;
      assert w.next <= j.jobId || AdvancesIn(w.jobs, j);
    }
  }

  lemma EventSteps(w: World, e: Event)
    requires WorldInv(w)
    ensures StepsTo(w, Step(w, e).next, StepJobs(w, e))
  {
    match e
    case StartEvent(_, _, _, _, _, _, _) => StartSteps(w, e);
    case ObserveEvent(projectId, jobId, active, review, sight, first) =>
      ObserveRewrites(w.jobs, projectId, jobId, active, review, sight, first);
      RewritesStep(w, w.next, StepJobs(w, e));
    case CancelEvent(projectId, jobId, active, sight, again, alive, first, second) =>
      CancelRewrites(w.jobs, projectId, jobId, active, sight, again, alive, first, second);
      RewritesStep(w, w.next, StepJobs(w, e));
    case FinalizeEvent(projectId, jobId, active, first) =>
      FinalizeRewrites(w.jobs, projectId, jobId, active, first);
      RewritesStep(w, w.next, StepJobs(w, e));
  }

  lemma EventKeeps(w: World, e: Event)
    requires WorldInv(w)
    ensures WorldInv(Step(w, e)) && Later(w, Step(w, e))
  {
    EventSteps(w, e);
  }

  lemma {:induction false} RunKeeps(w: World, events: seq<Event>)
    requires WorldInv(w)
    ensures WorldInv(Run(w, events)) && Later(w, Run(w, events))
    decreases |events|
  {
    if events == [] {
      RewritesSelf(w.jobs);
    } else {
      EventKeeps(w, events[0]);
      RunKeeps(Step(w, events[0]), events[1..]);
      LaterTrans(w, Step(w, events[0]), Run(w, events));
    }
  }

  // ---- results ---------------------------------------------------------------------------

  /** In every reachable store: at most two hundred jobs, unique ids and unique requests per project,
      and a running or lost job carries all five fields of its processes' identity, a queued or
      interrupted one none; only a job that ended as its runner said has an exit code. */
  lemma StoreAlways(w: World, events: seq<Event>)
    requires Init(w)
    ensures var jobs := Run(w, events).jobs;
      && |jobs| <= MAX_DURABLE_JOBS && UniqueJobs(jobs) && UniqueRequests(jobs)
      && (forall j :: j in jobs && (j.state == Running || j.state == Lost) ==> Identified(j))
      && (forall j :: j in jobs && (j.state == Queued || j.state == Interrupted) ==> Unidentified(j))
      && (forall j :: j in jobs && j.exitCode.Some? ==> ResultState(j.state))
  {
    RunKeeps(w, events);
  }

  /** One call at a time, a job that is over never changes again but for being finalized, whatever files
      are found later; a running one is never queued or interrupted later and keeps its processes'
      identity. */
  lemma StatesOnlyAdvance(w: World, before: seq<Event>, after: seq<Event>, j: Job, k: Job)
    requires Init(w) && j in Run(w, before).jobs && k in Run(Run(w, before), after).jobs && k.jobId == j.jobId
    ensures Advances(j, k)
  {
    RunKeeps(w, before);
    RunKeeps(Run(w, before), after);
    Found(Run(w, before).jobs, j);
    assert AdvancesIn(Run(w, before).jobs, k);
  }

  lemma CancelReturns(jobs: seq<Job>, projectId: Id, jobId: Id, active: bool, s: Sight, again: Option<Claim>,
                      alive: bool, first: Fate, second: Fate)
    ensures var cancelled := CancelJob(jobs, projectId, jobId, active, s, again, alive, first, second);
      cancelled.1.Returned? && cancelled.1.job.state == Running ==>
        cancelled == Observe(jobs, projectId, jobId, active, false, s, first)
  {
  }

  lemma CancelledJobStored(jobs: seq<Job>, projectId: Id, jobId: Id, active: bool, s: Sight, again: Option<Claim>,
                           alive: bool, first: Fate, second: Fate)
    requires StoreInv(jobs)
    ensures var (next, outcome) := CancelJob(jobs, projectId, jobId, active, s, again, alive, first, second);
      outcome.Returned? && outcome.job.state == Running ==> AdvancesIn(jobs, outcome.job) && outcome.job.jobId == jobId
  {
    CancelReturns(jobs, projectId, jobId, active, s, again, alive, first, second);
    ObserveRewrites(jobs, projectId, jobId, active, false, s, first);
    ObservesThat(jobs, projectId, jobId, active, s, first);
  }

  lemma ObservesThat(jobs: seq<Job>, projectId: Id, jobId: Id, active: bool, s: Sight, fate: Fate)
    requires StoreInv(jobs)
    ensures var outcome := Observe(jobs, projectId, jobId, active, false, s, fate).1;
      outcome.Returned? ==> outcome.job.jobId == jobId
  {
    var owned := Owned(jobs, projectId, jobId, active, false);
    if owned.Success? {
      ReconcileSound(owned.value, s);
      DecidesOn(jobs, owned.value, Reconcile(owned.value, s), fate);
    }
  }

  /** What `cancel` signals is what ran: whenever it goes on to signal, a fresh claim of live processes
      names exactly the process, start marker and group that the job had at any earlier time it ran. */
  lemma SignalsWhatRan(w: World, before: seq<Event>, after: seq<Event>, j: Job, projectId: Id, active: bool, s: Sight,
                       again: Option<Claim>, alive: bool, first: Fate, second: Fate)
    requires Init(w) && j in Run(w, before).jobs && j.state == Running
    ensures var jobs := Run(Run(w, before), after).jobs;
      var outcome := CancelJob(jobs, projectId, j.jobId, active, s, again, alive, first, second).1;
      outcome.Returned? && outcome.job.state == Running ==>
        && again.Some? && Verified(again.value, j, alive)
        && again.value.targetPid == j.pid && again.value.targetMarker == j.marker && again.value.targetGroup == j.group
  {
    var x := Run(Run(w, before), after);
    RunKeeps(w, before);
    RunKeeps(Run(w, before), after);
    Found(Run(w, before).jobs, j);
    CancelledJobStored(x.jobs, projectId, j.jobId, active, s, again, alive, first, second);
    SignalsOnlyItsOwn(x.jobs, projectId, j.jobId, active, s, again, alive, first, second);
    var outcome := CancelJob(x.jobs, projectId, j.jobId, active, s, again, alive, first, second).1;
    if outcome.Returned? && outcome.job.state == Running {
      var now := Find(x.jobs, j.jobId).value;
      assert AdvancesIn(Run(w, before).jobs, now);
      assert Advances(j, now) && Advances(now, outcome.job);
    }
  }
}
