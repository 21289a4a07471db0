/** Where the states of stored jobs come from, whatever calls overlap and however stale their copies are:
    nothing is ever stored as running or as ended by its runner but on evidence that some step met. */
module JobProvenance {
  import opened Storage
  import opened Wrappers
  import opened DurableJobs
  import opened JobSafety
  import opened JobWrites
  import opened JobOverlap

  // ---- the evidence a step meets ---------------------------------------------------------

  /** The step meets a verified claim of the job's runner that names exactly these processes. */
  predicate MeetsProcesses(c: Call, m: Meets, k: Job) {
    match c
    case LaunchingJob(queued) =>
      SameJob(queued, k) && LaunchProven(queued, m.launch) && PersistedIdentityMatches(k, m.launch.claim)
    case Reconciling(copy, _) =>
      SameJob(copy, k) && AtWork(copy, m.sight) && PersistedIdentityMatches(k, m.sight.claim.value)
    case _ => false
  }

  /** The step meets a result of the job's own runner that says so. */
  predicate MeetsResult(c: Call, m: Meets, k: Job) {
    match c
    case LaunchingJob(queued) =>
      SameJob(queued, k) && LaunchOver(queued, m.launch) && SaidBy(k, m.launch.waited, queued)
    case Reconciling(copy, _) => SameJob(copy, k) && SaidBy(k, Counting(copy, m.sight), copy)
    case _ => false
  }

  /** The n-th event is a step of a call that is in flight then. */
  predicate IsStep(s: System, events: seq<JobOverlap.Event>, n: nat) {
    n < |events| && events[n].Resume? && events[n].i < |JobOverlap.Run(s, events[..n]).calls|
  }

  predicate ProcessesMetAt(s: System, events: seq<JobOverlap.Event>, n: nat, k: Job) {
    && IsStep(s, events, n)
    && MeetsProcesses(JobOverlap.Run(s, events[..n]).calls[events[n].i], events[n].meets, k)
  }

  predicate ResultMetAt(s: System, events: seq<JobOverlap.Event>, n: nat, k: Job) {
    && IsStep(s, events, n)
    && MeetsResult(JobOverlap.Run(s, events[..n]).calls[events[n].i], events[n].meets, k)
  }

  ghost predicate ProcessesMet(s: System, events: seq<JobOverlap.Event>, k: Job) {
    exists n: nat :: ProcessesMetAt(s, events, n, k)
  }

  ghost predicate ResultMet(s: System, events: seq<JobOverlap.Event>, k: Job) {
    exists n: nat :: ResultMetAt(s, events, n, k)
  }

  /** What a version of a job says about itself was met by some step of the run. */
  ghost predicate Proven(s: System, events: seq<JobOverlap.Event>, k: Job) {
    && (k.state == Running || k.state == Lost ==> ProcessesMet(s, events, k))
    && (ResultState(k.state) ==> ResultMet(s, events, k))
  }

  // ---- the copies in flight --------------------------------------------------------------

  /** The jobs that a call may yet store, or decide about. */
  function Carries(c: Call): set<Job> {
    match c
    case LaunchingJob(queued) => {queued}
    case Losing(copy) => {copy}
    case Reconciling(copy, _) => {copy}
    case Cancelling(copy) => {copy}
    case Storing(_, job, after) => {job} + (if after.LoseOnFailure? then {after.queued} else {})
    case _ => {}
  }

  ghost predicate AllProven(s: System, events: seq<JobOverlap.Event>) {
    var x := JobOverlap.Run(s, events);
    && (forall k :: k in x.store.versions ==> Proven(s, events, k))
    && (forall i, k :: 0 <= i < |x.calls| && k in Carries(x.calls[i]) ==> Proven(s, events, k))
  }

  // ---- one more event --------------------------------------------------------------------

  lemma {:induction false} RunOneMore(s: System, events: seq<JobOverlap.Event>, e: JobOverlap.Event)
    ensures JobOverlap.Run(s, events + [e]) == Apply(JobOverlap.Run(s, events), e)
    decreases |events|
  {
    if events == [] {
      assert [] + [e] == [e] && [e][1..] == [];
      assert JobOverlap.Run(s, [e]) == JobOverlap.Run(Apply(s, e), []);
    } else {
      assert (events + [e])[0] == events[0] && (events + [e])[1..] == events[1..] + [e];
      RunOneMore(Apply(s, events[0]), events[1..], e);
    }
  }

  lemma StillProven(s: System, events: seq<JobOverlap.Event>, e: JobOverlap.Event, k: Job)
    requires Proven(s, events, k)
    ensures Proven(s, events + [e], k)
  {
    forall n: nat | n < |events| ensures (events + [e])[..n] == events[..n] && (events + [e])[n] == events[n] {
    }
    if k.state == Running || k.state == Lost {
      var n: nat :| ProcessesMetAt(s, events, n, k);
      assert ProcessesMetAt(s, events + [e], n, k);
    }
    if ResultState(k.state) {
      var n: nat :| ResultMetAt(s, events, n, k);
      assert ResultMetAt(s, events + [e], n, k);
    }
  }

  /** A later version with the same processes, or the same end, needs no other evidence. */
  lemma SameEvidence(s: System, events: seq<JobOverlap.Event>, j: Job, k: Job)
    requires Proven(s, events, j) && SameJob(j, k)
    requires k.state == Lost || k.state == Running ==> (j.state == Running || j.state == Lost) && SameProcesses(j, k)
    requires ResultState(k.state) ==> j.state == k.state && j.exitCode == k.exitCode
    ensures Proven(s, events, k)
  {
    if k.state == Running || k.state == Lost {
      var n: nat :| ProcessesMetAt(s, events, n, j);
      assert ProcessesMetAt(s, events, n, k);
    }
    if ResultState(k.state) {
      var n: nat :| ResultMetAt(s, events, n, j);
      assert ResultMetAt(s, events, n, k);
    }
  }

  /** What the step itself met proves what it decided. */
  lemma NewEvidence(s: System, events: seq<JobOverlap.Event>, i: nat, m: Meets, k: Job)
    requires i < |JobOverlap.Run(s, events).calls|
    requires k.state == Running || k.state == Lost ==> MeetsProcesses(JobOverlap.Run(s, events).calls[i], m, k)
    requires ResultState(k.state) ==> MeetsResult(JobOverlap.Run(s, events).calls[i], m, k)
    ensures Proven(s, events + [Resume(i, m)], k)
  {
    var n, more := |events|, events + [Resume(i, m)];
    assert more[..n] == events && more[n] == Resume(i, m);
    if k.state == Running || k.state == Lost {
      assert ProcessesMetAt(s, more, n, k);
    }
    if ResultState(k.state) {
      assert ResultMetAt(s, more, n, k);
    }
  }

  // ---- what one step decides -------------------------------------------------------------

  /** A reconciliation decides on what it meets, or marks a running job as lost. */
  lemma ReconcilesOnEvidence(copy: Job, cancels: bool, m: Meets)
    requires JobInv(copy) && Reconcile(copy, m.sight).Replace?
    ensures var k := Reconcile(copy, m.sight).job;
      && SameJob(copy, k)
      && (k.state == Running ==> MeetsProcesses(Reconciling(copy, cancels), m, k))
      && (k.state == Lost ==> copy.state == Running && SameProcesses(copy, k))
      && (ResultState(k.state) ==> MeetsResult(Reconciling(copy, cancels), m, k))
  {
    DecisionsAreProven(copy, m.sight);
    EndsAsSaidIff(copy, m.sight);
    ReconcileSound(copy, m.sight);
  }

  lemma LaunchesOnEvidence(queued: Job, m: Meets)
    requires JobInv(queued) && queued.state == Queued && Launching(queued, m.launch, m.sight.trouble).Replace?
    ensures var k := Launching(queued, m.launch, m.sight.trouble).job;
      && SameJob(queued, k)
      && (k.state == Running ==> MeetsProcesses(LaunchingJob(queued), m, k)) && k.state != Lost
      && (ResultState(k.state) ==> MeetsResult(LaunchingJob(queued), m, k))
  {
    LaunchIsProven(queued, m.launch, m.sight.trouble);
  }

  // ---- every step keeps it ---------------------------------------------------------------

  /** A decision about a proven copy is proven, once the step that took it is part of the run. */
  lemma ReconcileProven(s: System, events: seq<JobOverlap.Event>, i: nat, m: Meets, copy: Job, cancels: bool)
    requires i < |JobOverlap.Run(s, events).calls| && JobOverlap.Run(s, events).calls[i] == Reconciling(copy, cancels)
    requires JobInv(copy) && Proven(s, events, copy) && Reconcile(copy, m.sight).Replace?
    ensures Proven(s, events + [Resume(i, m)], Reconcile(copy, m.sight).job)
  {
    var k := Reconcile(copy, m.sight).job;
    ReconcilesOnEvidence(copy, cancels, m);
    if k.state == Lost {
      SameEvidence(s, events, copy, k);
      StillProven(s, events, Resume(i, m), k);
    } else {
      NewEvidence(s, events, i, m, k);
    }
  }

  lemma LaunchProves(s: System, events: seq<JobOverlap.Event>, i: nat, m: Meets, queued: Job)
    requires i < |JobOverlap.Run(s, events).calls| && JobOverlap.Run(s, events).calls[i] == LaunchingJob(queued)
    requires JobInv(queued) && queued.state == Queued && Launching(queued, m.launch, m.sight.trouble).Replace?
    ensures Proven(s, events + [Resume(i, m)], Launching(queued, m.launch, m.sight.trouble).job)
  {
    LaunchesOnEvidence(queued, m);
    NewEvidence(s, events, i, m, Launching(queued, m.launch, m.sight.trouble).job);
  }

  lemma LossProven(s: System, events: seq<JobOverlap.Event>, copy: Job, trouble: Trouble)
    requires Proven(s, events, copy) && JobInv(copy) && !DurableJobs.Terminal(copy.state) && !trouble.losing
    ensures Proven(s, events, MarkLost(copy, trouble).job)
  {
    SameEvidence(s, events, copy, MarkLost(copy, trouble).job);
  }

  lemma FinalizationProves(s: System, events: seq<JobOverlap.Event>, c: Call, m: Meets, k: Job)
    requires StoreKept(JobOverlap.Run(s, events).store) && AllProven(s, events)
    requires c.Finalizing? && k in Carries(StepCall(JobOverlap.Run(s, events).store, c, m).next)
    ensures Proven(s, events, k)
  {
    var j := Owned(JobOverlap.Run(s, events).store.jobs, c.projectId, c.jobId, m.active, true).value;
    SameEvidence(s, events, j, k);
  }

  /** What a call that decides carries after its step. */
  lemma DecisionProves(s: System, events: seq<JobOverlap.Event>, i: nat, m: Meets, c: Call, k: Job)
    requires i < |JobOverlap.Run(s, events).calls| && JobOverlap.Run(s, events).calls[i] == c
    requires Holds(JobOverlap.Run(s, events).store, c) && (forall j :: j in Carries(c) ==> Proven(s, events, j))
    requires c.LaunchingJob? || c.Losing? || c.Reconciling?
    requires k in Carries(StepCall(JobOverlap.Run(s, events).store, c, m).next)
    ensures Proven(s, events + [Resume(i, m)], k)
  {
    if k in Carries(c) {
      StillProven(s, events, Resume(i, m), k);
    } else if c.LaunchingJob? {
      LaunchProves(s, events, i, m, c.queued);
    } else if c.Reconciling? {
      ReconcileProven(s, events, i, m, c.copy, c.cancels);
    } else {
      LossProven(s, events, c.copy, m.sight.trouble);
      StillProven(s, events, Resume(i, m), k);
    }
  }

  /** What a call carries after a step is proven, if what it carried and what is stored was. */
  lemma StepProves(s: System, events: seq<JobOverlap.Event>, i: nat, m: Meets, c: Call, k: Job)
    requires SystemInv(JobOverlap.Run(s, events)) && AllProven(s, events)
    requires i < |JobOverlap.Run(s, events).calls| && JobOverlap.Run(s, events).calls[i] == c
    requires k in Carries(StepCall(JobOverlap.Run(s, events).store, c, m).next)
    ensures Proven(s, events + [Resume(i, m)], k)
  {
    if c.LaunchingJob? || c.Losing? || c.Reconciling? {
      DecisionProves(s, events, i, m, c, k);
    } else {
      if c.Finalizing? {
        FinalizationProves(s, events, c, m, k);
      } else {
        CarriedOrStored(JobOverlap.Run(s, events).store, c, m, k);
      }
      StillProven(s, events, Resume(i, m), k);
    }
  }

  /** The other calls carry on what they carried, what is stored, or a new queued job. */
  lemma CarriedOrStored(s: Store, c: Call, m: Meets, k: Job)
    requires StoreKept(s) && k in Carries(StepCall(s, c, m).next)
    requires !c.LaunchingJob? && !c.Losing? && !c.Reconciling? && !c.Finalizing?
    ensures k.state == Queued || k in s.versions || k in Carries(c)
  {
  }

  lemma VersionsProven(s: System, events: seq<JobOverlap.Event>, i: nat, m: Meets, c: Call, k: Job)
    requires SystemInv(JobOverlap.Run(s, events)) && AllProven(s, events)
    requires i < |JobOverlap.Run(s, events).calls| && JobOverlap.Run(s, events).calls[i] == c
    requires k in After(JobOverlap.Run(s, events).store, StepCall(JobOverlap.Run(s, events).store, c, m)).versions
    ensures Proven(s, events + [Resume(i, m)], k)
  {
    NewVersion(JobOverlap.Run(s, events).store, c, m, k);
    StillProven(s, events, Resume(i, m), k);
  }

  /** A version that a step adds is a new queued job or what a call was about to store. */
  lemma NewVersion(s: Store, c: Call, m: Meets, k: Job)
    requires StoreKept(s) && Holds(s, c) && k in After(s, StepCall(s, c, m)).versions
    ensures k.state == Queued || k in s.versions || k in Carries(c)
  {
    if c.Appending? {
      AppendsNew(s, c, m, k);
    } else if c.Storing? {
      StoringLeaves(s, c, m);
      ReplacedMembers(s.jobs, c.job);
    } else {
      OnlyThoseWrite(s, c, m);
    }
  }

  lemma AppendsNew(s: Store, c: Call, m: Meets, k: Job)
    requires StoreKept(s) && c.Appending? && k in After(s, StepCall(s, c, m)).versions
    ensures k.state == Queued || k in s.versions
  {
    var queued := QueuedJob(s.next, c.runnerIdentity, c.order);
    if Append(s.jobs, queued).Success? {
      AppendedMembers(s.jobs, queued);
    }
  }

  lemma EventProves(s: System, events: seq<JobOverlap.Event>, e: JobOverlap.Event)
    requires SystemInv(JobOverlap.Run(s, events)) && AllProven(s, events)
    ensures AllProven(s, events + [e])
  {
    var x := JobOverlap.Run(s, events);
    RunOneMore(s, events, e);
    if e.Resume? && e.i < |x.calls| {
      forall k | k in Apply(x, e).store.versions ensures Proven(s, events + [e], k) {
        VersionsProven(s, events, e.i, e.meets, x.calls[e.i], k);
      }
      forall n, k | 0 <= n < |Apply(x, e).calls| && k in Carries(Apply(x, e).calls[n])
        ensures Proven(s, events + [e], k)
      {
        if n == e.i {
          StepProves(s, events, e.i, e.meets, x.calls[e.i], k);
        } else {
          StillProven(s, events, e, k);
        }
      }
    } else {
      OutsideProves(s, events, e);
    }
  }

  /** A crash, and a call that begins with a stored job, need no evidence. */
  lemma OutsideProves(s: System, events: seq<JobOverlap.Event>, e: JobOverlap.Event)
    requires SystemInv(JobOverlap.Run(s, events)) && AllProven(s, events)
    requires e.Resume? ==> e.i >= |JobOverlap.Run(s, events).calls|
    ensures AllProven(s, events + [e])
  {
    var x := JobOverlap.Run(s, events);
    RunOneMore(s, events, e);
    forall k | k in Apply(x, e).store.versions ensures Proven(s, events + [e], k) {
      StillProven(s, events, e, k);
    }
    forall n, k | 0 <= n < |Apply(x, e).calls| && k in Carries(Apply(x, e).calls[n])
      ensures Proven(s, events + [e], k)
    {
      StillProven(s, events, e, k);
    }
  }

  lemma {:induction false} RunProves(s: System, events: seq<JobOverlap.Event>)
    requires Init(s.store) && s.calls == []
    ensures SystemInv(JobOverlap.Run(s, events)) && AllProven(s, events)
    decreases |events|
  {
    if events != [] {
      var n := |events| - 1;
      RunProves(s, events[..n]);
      EventProves(s, events[..n], events[n]);
      RunOneMore(s, events[..n], events[n]);
      EventKeeps(JobOverlap.Run(s, events[..n]), events[n]);
      assert events == events[..n] + [events[n]];
    }
  }

  // ---- results ---------------------------------------------------------------------------

  /** Over every interleaving and every crash: whatever version of a job was ever stored as running or lost,
      some step met a verified claim of the job's own runner that names exactly its processes; and whatever
      was ever stored as succeeded, failed or cancelled, some step met a trusted result of the job's own
      runner, the one that counted then, that says so with that exit code. */
  lemma EveryVersionIsProven(s: System, events: seq<JobOverlap.Event>, k: Job)
    requires Init(s.store) && s.calls == [] && k in JobOverlap.Run(s, events).store.versions
    ensures k.state == Running || k.state == Lost ==> exists n: nat :: ProcessesMetAt(s, events, n, k)
    ensures ResultState(k.state) ==> exists n: nat :: ResultMetAt(s, events, n, k)
  {
    RunProves(s, events);
    assert Proven(s, events, k);
  }
}
