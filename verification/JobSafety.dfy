/** What holds of the job store over every run, with any files found and any write failures. */
module JobSafety {
  import opened Storage
  import opened Wrappers
  import opened DurableJobs

  // ---- the invariant ---------------------------------------------------------------------

  predicate Identified(j: Job) {
    j.runnerPid.Some? && j.runnerMarker.Some? && j.pid.Some? && j.marker.Some? && j.group.Some?
  }

  predicate Unidentified(j: Job) {
    j.runnerPid.None? && j.runnerMarker.None? && j.pid.None? && j.marker.None? && j.group.None?
  }

  /** A running or lost job has the identity of its processes; a queued or interrupted one never ran.
      Only a review that is over is finalized, and only what ended as its runner said has an exit code. */
  predicate JobInv(j: Job) {
    && (j.state == Running || j.state == Lost ==> Identified(j))
    && (j.state == Queued || j.state == Interrupted ==> Unidentified(j))
    && (j.finalized ==> Terminal(j.state) && Review(j))
    && (j.exitCode.Some? ==> ResultState(j.state))
  }

  predicate UniqueJobs(jobs: seq<Job>) {
    forall i, k :: 0 <= i < k < |jobs| ==> jobs[i].jobId != jobs[k].jobId
  }

  predicate SameRequest(j: Job, k: Job) {
    j.projectId == k.projectId && j.requestId == k.requestId
  }

  predicate UniqueRequests(jobs: seq<Job>) {
    forall i, k :: 0 <= i < k < |jobs| ==> !SameRequest(jobs[i], jobs[k])
  }

  predicate StoreInv(jobs: seq<Job>) {
    |jobs| <= MAX_DURABLE_JOBS && UniqueJobs(jobs) && UniqueRequests(jobs) && forall j :: j in jobs ==> JobInv(j)
  }

  // ---- how one job can change ------------------------------------------------------------

  predicate SameJob(j: Job, k: Job) {
    && k.jobId == j.jobId && k.requestId == j.requestId && k.projectId == j.projectId && k.missionId == j.missionId
    && k.work == j.work && k.fingerprint == j.fingerprint && k.runnerIdentity == j.runnerIdentity
  }

  predicate SameProcesses(j: Job, k: Job) {
    k.runnerPid == j.runnerPid && k.runnerMarker == j.runnerMarker && k.pid == j.pid && k.marker == j.marker
      && k.group == j.group
  }

  /** One write: queued to running or over, running to over; over stays over, but for finalization. */
  predicate Moves(j: Job, k: Job) {
    && SameJob(j, k)
    && match j.state
       case Queued => k.state == Running || ResultState(k.state) || k.state == Interrupted
       case Running => (ResultState(k.state) || k.state == Lost) && SameProcesses(j, k)
       case _ => Review(j) && k == j.(finalized := true)
  }

  /** Any number of writes: never back, the process identity fixed once it is there. */
  predicate Advances(j: Job, k: Job) {
    && SameJob(j, k)
    && (j.state != Queued ==> k.state != Queued)
    && (j.state == Running ==> k.state != Interrupted && SameProcesses(j, k))
    && (Terminal(j.state) ==> k == j || (Review(j) && k == j.(finalized := true)))
  }

  /** Whether and how a decision about `j` may be written. */
  predicate Sound(j: Job, d: Decision) {
    d.Replace? ==> JobInv(d.job) && Moves(j, d.job)
  }

  // ---- decisions -------------------------------------------------------------------------

  lemma FinishSound(j: Job, r: RunnerResult, trouble: Trouble)
    requires JobInv(j) && !Terminal(j.state)
    ensures Sound(j, FinishFromRunner(j, r, trouble))
  {
    LostSound(j, trouble);
  }

  lemma EndedSound(j: Job, s: Sight, matches: bool)
    requires JobInv(j) && !Terminal(j.state)
    ensures Sound(j, ReconcileEnded(j, s, matches))
  {
    LostSound(j, s.trouble);
    if s.retry.Some? {
      FinishSound(j, s.retry.value, s.trouble);
    }
    if s.waited.Some? {
      FinishSound(j, s.waited.value, s.trouble);
    }
  }

  lemma ReconcileSound(j: Job, s: Sight)
    requires JobInv(j)
    ensures Sound(j, Reconcile(j, s))
  {
    if !Terminal(j.state) {
      LostSound(j, s.trouble);
      if s.first.Some? {
        FinishSound(j, s.first.value, s.trouble);
      }
      EndedSound(j, s, s.claim.Some? && PersistedIdentityMatches(j, s.claim.value));
    }
  }

  lemma LostSound(j: Job, trouble: Trouble)
    requires JobInv(j) && !Terminal(j.state)
    ensures Sound(j, MarkLost(j, trouble))
  {
  }

  lemma LaunchSound(j: Job, l: Launch, trouble: Trouble)
    requires JobInv(j) && j.state == Queued
    ensures Sound(j, Launching(j, l, trouble))
  {
  }

  /** A trusted result among those seen says so. */
  predicate SaidBy(k: Job, r: Option<RunnerResult>, j: Job) {
    r.Some? && Trusted(r.value, j) && k.state == r.value.state && k.exitCode == r.value.exitCode
  }

  /** A job succeeds, fails or is cancelled only by a result file with its job id and its runner's
      identity; it runs only by a verified claim, whose identity it takes over; and a job that nothing
      proves is interrupted when it was queued and lost when it ran. */
  lemma DecisionsAreProven(j: Job, s: Sight)
    requires JobInv(j) && Reconcile(j, s).Replace?
    ensures var k := Reconcile(j, s).job;
      && (ResultState(k.state) ==> SaidBy(k, s.first, j) || SaidBy(k, s.retry, j) || SaidBy(k, s.waited, j))
      && (k.state == Running ==>
            s.claim.Some? && Verified(s.claim.value, j, s.alive) && PersistedIdentityMatches(k, s.claim.value))
      && (k.state == Interrupted ==> j.state == Queued) && (k.state == Lost ==> j.state == Running)
  {
  }

  lemma LaunchIsProven(j: Job, l: Launch, trouble: Trouble)
    requires j.state == Queued && Launching(j, l, trouble).Replace?
    ensures var k := Launching(j, l, trouble).job;
      && (k.state == Running ==>
            l.Launched? && Verified(l.claim, j, l.alive) && l.claim.runnerPid == Some(l.spawnedPid)
              && PersistedIdentityMatches(k, l.claim))
      && (k.state != Running ==> !l.NotLaunched? && SaidBy(k, l.waited, j))
      && (l.Launched? ==>
            l.claim.jobId == j.jobId && l.claim.runnerIdentity == j.runnerIdentity
              && l.claim.runnerPid == Some(l.spawnedPid))
  {
  }

  /** The runner of the job is still at work, as far as its claim tells. */
  predicate AtWork(j: Job, s: Sight) {
    s.claim.Some? && Verified(s.claim.value, j, s.alive)
  }

  /** A queued job becomes a running one exactly when its runner's claim is verified and no result is
      there yet. */
  lemma StartsRunningIff(j: Job, s: Sight)
    requires JobInv(j) && j.state == Queued
    ensures (Reconcile(j, s).Replace? && Reconcile(j, s).job.state == Running) <==> s.first.None? && AtWork(j, s)
  {
  }

  /** The result that counts: the first one that is seen, unless the runner is still at work. */
  function Counting(j: Job, s: Sight): Option<RunnerResult> {
    if s.first.Some? then s.first
    else if AtWork(j, s) then None
    else if s.retry.Some? then s.retry
    else if s.claim.Some? && PersistedIdentityMatches(j, s.claim.value) then s.waited
    else None
  }

  /** A job that is not over ends as its runner said exactly when the result that counts is a trusted
      one, nothing fails on the way, and a running job's claim still names its processes. */
  lemma EndsAsSaidIff(j: Job, s: Sight)
    requires JobInv(j) && !Terminal(j.state)
    ensures (Reconcile(j, s).Replace? && ResultState(Reconcile(j, s).job.state))
      <==> && TrustedResult(Counting(j, s), j) && !s.trouble.finishing
           && (j.state == Running ==> s.claim.Some? && PersistedIdentityMatches(j, s.claim.value))
    ensures Reconcile(j, s).Replace? && ResultState(Reconcile(j, s).job.state) ==>
      SaidBy(Reconcile(j, s).job, Counting(j, s), j)
  {
  }

  /** A running job stays as it is exactly when the claim file still names its processes, they are
      alive, and there is no result yet. */
  lemma StaysRunningIff(j: Job, s: Sight)
    requires JobInv(j) && j.state == Running
    ensures Reconcile(j, s) == Keep
      <==> && s.claim.Some? && PersistedIdentityMatches(j, s.claim.value) && s.first.None?
           && Verified(s.claim.value, j, s.alive)
  {
  }

  // ---- the store -------------------------------------------------------------------------

  lemma Found(jobs: seq<Job>, j: Job)
    requires UniqueJobs(jobs) && j in jobs
    ensures Find(jobs, j.jobId) == Some(j)
  {
    var k := Find(jobs, j.jobId).value;
    var a, b :| 0 <= a < |jobs| && 0 <= b < |jobs| && jobs[a] == j && jobs[b] == k;
  }

  predicate AdvancesIn(jobs: seq<Job>, k: Job) {
    Find(jobs, k.jobId).Some? && Advances(Find(jobs, k.jobId).value, k)
  }

  /** Every job of `after` was in `before`, perhaps in an earlier state; none is gone. */
  predicate Rewrites(before: seq<Job>, after: seq<Job>) {
    && StoreInv(after) && |after| == |before|
    && (forall k :: k in after ==> AdvancesIn(before, k))
    && (forall j :: j in before ==> Find(after, j.jobId).Some?)
  }

  lemma RewritesSelf(jobs: seq<Job>)
    requires StoreInv(jobs)
    ensures Rewrites(jobs, jobs)
  {
    forall j | j in jobs ensures AdvancesIn(jobs, j) && Find(jobs, j.jobId).Some? {
      Found(jobs, j);
    }
  }

  lemma RewritesTrans(a: seq<Job>, b: seq<Job>, c: seq<Job>)
    requires Rewrites(a, b) && Rewrites(b, c)
    ensures Rewrites(a, c)
  {
    forall k | k in c ensures AdvancesIn(a, k) {
      assert AdvancesIn(b, k);
      assert AdvancesIn(a, Find(b, k.jobId).value);
    }
    forall j | j in a ensures Find(c, j.jobId).Some? {
      assert Find(b, j.jobId).value in b;
    }
  }

  lemma MovesAdvances(j: Job, k: Job)
    requires Moves(j, k) && JobInv(j)
    ensures Advances(j, k) && SameRequest(j, k) && j.jobId == k.jobId
  {
  }

  lemma ReplacedUnique(jobs: seq<Job>, j: Job, k: Job)
    requires UniqueJobs(jobs) && UniqueRequests(jobs) && j in jobs && SameJob(j, k)
    ensures UniqueJobs(ReplaceJob(jobs, k)) && UniqueRequests(ReplaceJob(jobs, k))
    ensures k in ReplaceJob(jobs, k)
  {
    var after := ReplaceJob(jobs, k);
    var at :| 0 <= at < |jobs| && jobs[at] == j;
    assert after[at] == k;
    forall i | 0 <= i < |jobs| ensures after[i].jobId == jobs[i].jobId && SameRequest(after[i], jobs[i]) {
      assert jobs[i].jobId == k.jobId ==> i == at;
    }
  }

  lemma ReplaceRewrites(jobs: seq<Job>, j: Job, k: Job)
    requires StoreInv(jobs) && j in jobs && JobInv(k) && Moves(j, k)
    ensures Rewrites(jobs, ReplaceJob(jobs, k)) && k in ReplaceJob(jobs, k)
  {
    var after := ReplaceJob(jobs, k);
    ReplacedUnique(jobs, j, k);
    MovesAdvances(j, k);
    Found(jobs, j);
    RewritesSelf(jobs);
    forall n | n in after ensures AdvancesIn(jobs, n) && JobInv(n) {
      assert n == k || n in jobs;
    }
    forall n | n in jobs ensures Find(after, n.jobId).Some? {
      var i :| 0 <= i < |jobs| && jobs[i] == n;
      assert after[i] in after;
    }
  }

  lemma DecideRewrites(jobs: seq<Job>, j: Job, d: Decision, fate: Fate)
    requires StoreInv(jobs) && j in jobs && Sound(j, d)
    ensures Rewrites(jobs, Decide(jobs, j, d, fate).0)
    ensures var (next, outcome) := Decide(jobs, j, d, fate); outcome.Returned? ==> outcome.job in next
    ensures var (next, outcome) := Decide(jobs, j, d, fate); outcome.Threw? ==> next == jobs
  {
    RewritesSelf(jobs);
    if d.Replace? {
      ReplaceRewrites(jobs, j, d.job);
    }
  }

  // ---- calls -----------------------------------------------------------------------------

  lemma ObserveRewrites(jobs: seq<Job>, projectId: Id, jobId: Id, active: bool, review: bool, s: Sight, fate: Fate)
    requires StoreInv(jobs)
    ensures var (next, outcome) := Observe(jobs, projectId, jobId, active, review, s, fate);
      Rewrites(jobs, next) && (outcome.Returned? ==> outcome.job in next)
  {
    RewritesSelf(jobs);
    var j := Owned(jobs, projectId, jobId, active, review);
    if j.Success? {
      ReconcileSound(j.value, s);
      DecideRewrites(jobs, j.value, Reconcile(j.value, s), fate);
    }
  }

  lemma CancelShape(jobs: seq<Job>, projectId: Id, jobId: Id, active: bool, s: Sight, again: Option<Claim>, alive: bool,
                    first: Fate, second: Fate)
    ensures var (next, outcome) := Observe(jobs, projectId, jobId, active, false, s, first);
      var cancelled := CancelJob(jobs, projectId, jobId, active, s, again, alive, first, second).0;
      cancelled == next || (outcome.Returned? && outcome.job.state == Running
                            && cancelled == Decide(next, outcome.job, MarkLost(outcome.job, s.trouble), second).0)
  {
  }

  lemma CancelRewrites(jobs: seq<Job>, projectId: Id, jobId: Id, active: bool, s: Sight, again: Option<Claim>,
                       alive: bool, first: Fate, second: Fate)
    requires StoreInv(jobs)
    ensures Rewrites(jobs, CancelJob(jobs, projectId, jobId, active, s, again, alive, first, second).0)
  {
    var (next, outcome) := Observe(jobs, projectId, jobId, active, false, s, first);
    ObserveRewrites(jobs, projectId, jobId, active, false, s, first);
    CancelShape(jobs, projectId, jobId, active, s, again, alive, first, second);
    if outcome.Returned? && outcome.job.state == Running {
      var d := MarkLost(outcome.job, s.trouble);
      LostSound(outcome.job, s.trouble);
      DecideRewrites(next, outcome.job, d, second);
      RewritesTrans(jobs, next, Decide(next, outcome.job, d, second).0);
    }
  }

  lemma FinalizeRewrites(jobs: seq<Job>, projectId: Id, jobId: Id, active: bool, fate: Fate)
    requires StoreInv(jobs)
    ensures Rewrites(jobs, Finalize(jobs, projectId, jobId, active, fate).0)
  {
    RewritesSelf(jobs);
    var j := Owned(jobs, projectId, jobId, active, true);
    if j.Success? && Terminal(j.value.state) {
      ReplaceRewrites(jobs, j.value, j.value.(finalized := true));
    }
  }

  lemma LaunchRewrites(jobs: seq<Job>, queued: Job, l: Launch, trouble: Trouble, second: Fate, third: Fate)
    requires StoreInv(jobs) && queued in jobs && queued.state == Queued
    ensures Rewrites(jobs, LaunchQueued(jobs, queued, l, trouble, second, third).0)
  {
    LaunchSound(queued, l, trouble);
    LostSound(queued, trouble);
    DecideRewrites(jobs, queued, Launching(queued, l, trouble), second);
    DecideRewrites(jobs, queued, MarkLost(queued, trouble), third);
  }

  /** A finalization that is done is stored: it is done exactly when the job is a review of the project
      that is over, and was finalized before or is now written. */
  lemma FinalizedIff(jobs: seq<Job>, projectId: Id, jobId: Id, active: bool, fate: Fate)
    requires StoreInv(jobs)
    ensures var (next, outcome) := Finalize(jobs, projectId, jobId, active, fate);
      && (outcome == Done
          <==> Owned(jobs, projectId, jobId, active, true).Success? && Terminal(Find(jobs, jobId).value.state)
                               && (Find(jobs, jobId).value.finalized || fate == Written))
      && (outcome == Done ==>
            Find(next, jobId).Some? && Find(next, jobId).value == Find(jobs, jobId).value.(finalized := true))
  {
    var owned := Owned(jobs, projectId, jobId, active, true);
    if owned.Success? && Terminal(owned.value.state) {
      ReplaceRewrites(jobs, owned.value, owned.value.(finalized := true));
      Found(ReplaceJob(jobs, owned.value.(finalized := true)), owned.value.(finalized := true));
    }
  }

  /** A project reaches only its own jobs, and reviews only by the review calls: otherwise nothing changes
      and nothing is returned. */
  lemma OthersJobsUntouched(jobs: seq<Job>, j: Job, projectId: Id, active: bool, review: bool, s: Sight, fate: Fate)
    requires StoreInv(jobs) && j in jobs && (j.projectId != projectId || Review(j) != review)
    ensures var (next, outcome) := Observe(jobs, projectId, j.jobId, active, review, s, fate);
      next == jobs && outcome.Threw?
    ensures review ==> var (next, outcome) := Finalize(jobs, projectId, j.jobId, active, fate);
      next == jobs && outcome.Threw?
  {
    Found(jobs, j);
  }

  /** `cancel` goes on to signal a job only when a fresh claim still names exactly the processes of the
      stored job and they are alive. */
  lemma SignalsOnlyItsOwn(jobs: seq<Job>, projectId: Id, jobId: Id, active: bool, s: Sight, again: Option<Claim>,
                          alive: bool, first: Fate, second: Fate)
    ensures var (next, outcome) := CancelJob(jobs, projectId, jobId, active, s, again, alive, first, second);
      outcome.Returned? && outcome.job.state == Running ==>
        && again.Some? && Verified(again.value, outcome.job, alive)
        && again.value.targetPid == outcome.job.pid && again.value.targetMarker == outcome.job.marker
           && again.value.targetGroup == outcome.job.group
  {
  }

  lemma FoundRequest(jobs: seq<Job>, j: Job)
    requires UniqueRequests(jobs) && j in jobs
    ensures FindRequest(jobs, j.projectId, j.requestId) == Some(j)
  {
    var k := FindRequest(jobs, j.projectId, j.requestId).value;
    var a, b :| 0 <= a < |jobs| && 0 <= b < |jobs| && jobs[a] == k && jobs[b] == j;
    assert SameRequest(jobs[a], jobs[b]);
  }

  lemma DecidesOn(jobs: seq<Job>, j: Job, d: Decision, fate: Fate)
    requires Sound(j, d)
    ensures Decide(jobs, j, d, fate).1.Returned? ==> Decide(jobs, j, d, fate).1.job.jobId == j.jobId
  {
  }

  /** An order whose request id the project already has starts nothing new: it is answered with that
      very job when it asks for the same work, and refused with nothing changed when it does not. */
  lemma RepeatedOrder(jobs: seq<Job>, j: Job, jobId: Id, runnerIdentity: Id, o: Order, s: Sight, l: Launch, first: Fate,
                      second: Fate, third: Fate)
    requires StoreInv(jobs) && j in jobs && j.projectId == o.projectId && j.requestId == o.requestId
    ensures var (next, outcome) := Start(jobs, jobId, runnerIdentity, o, s, l, first, second, third);
      && Rewrites(jobs, next) && (outcome.Returned? ==> outcome.job.jobId == j.jobId && outcome.job in next)
      && (j.fingerprint != Some(o.fingerprint)
          && (j.fingerprint.Some? || o.work.profile == "codex-review" || j.work != o.work)
          ==> next == jobs && outcome == Threw(PreconditionFailed))
  {
    FoundRequest(jobs, j);
    RewritesSelf(jobs);
    if LegacyCompatible(j, o) || j.fingerprint == Some(o.fingerprint) {
      ReconcileSound(j, s);
      DecideRewrites(jobs, j, Reconcile(j, s), first);
      assert StartAgain(jobs, j, o, s, first) == Decide(jobs, j, Reconcile(j, s), first);
      DecidesOn(jobs, j, Reconcile(j, s), first);
    }
  }

  /** The target's claim is there, verified, and of the runner that was spawned. */
  predicate LaunchProven(queued: Job, l: Launch) {
    l.Launched? && Verified(l.claim, queued, l.alive) && l.claim.runnerPid == Some(l.spawnedPid)
  }

  /** There is no such proof, but the runner left a trusted result. */
  predicate LaunchOver(queued: Job, l: Launch) {
    && !LaunchProven(queued, l) && !l.NotLaunched? && TrustedResult(l.waited, queued)
    && (l.Launched? ==>
          l.claim.jobId == queued.jobId && l.claim.runnerIdentity == queued.runnerIdentity
            && l.claim.runnerPid == Some(l.spawnedPid))
  }

  function LaunchedAs(queued: Job, l: Launch, trouble: Trouble): Job {
    if LaunchProven(queued, l) then Claimed(queued, l.claim)
    else if LaunchOver(queued, l) && !trouble.finishing then
      queued.(state := l.waited.value.state, exitCode := l.waited.value.exitCode)
    else if trouble.losing then queued
    else queued.(state := Interrupted)
  }

  lemma LaunchStores(jobs: seq<Job>, queued: Job, l: Launch, trouble: Trouble)
    requires queued.state == Queued
    ensures var (next, outcome) := LaunchQueued(jobs, queued, l, trouble, Written, Written);
      && (outcome.Returned? <==> LaunchProven(queued, l) || (LaunchOver(queued, l) && !trouble.finishing))
      && next == if LaunchedAs(queued, l, trouble) == queued then jobs
           else ReplaceJob(jobs, LaunchedAs(queued, l, trouble))
  {
  }

  lemma LaunchFinds(jobs: seq<Job>, queued: Job, l: Launch, trouble: Trouble)
    requires StoreInv(jobs) && queued in jobs && queued.state == Queued
    ensures Find(LaunchQueued(jobs, queued, l, trouble, Written, Written).0, queued.jobId)
      == Some(LaunchedAs(queued, l, trouble))
  {
    LaunchStores(jobs, queued, l, trouble);
    Found(jobs, queued);
    StoredAs(jobs, queued, LaunchedAs(queued, l, trouble));
  }

  lemma LaunchedMeans(queued: Job, l: Launch, trouble: Trouble)
    requires JobInv(queued) && queued.state == Queued
    ensures var job, runs, over := LaunchedAs(queued, l, trouble), LaunchProven(queued, l), LaunchOver(queued, l)
      && !trouble.finishing;
      && (job.state == Running <==> runs) && (runs ==> PersistedIdentityMatches(job, l.claim))
      && (ResultState(job.state) <==> over) && (over ==> SaidBy(job, l.waited, queued))
      && (job.state == Interrupted <==> !runs && !over && !trouble.losing)
      && (job.state == Queued <==> !runs && !over && trouble.losing)
  {
  }

  /** How a launch leaves the stored job, judging by the claim and the result file: it runs exactly under
      the verified claim of the spawned runner, with the identity of that claim; it is over exactly as a
      trusted result says, when the logs can be registered; otherwise it is interrupted, whatever result
      there is, and stays queued exactly when the clean-up fails too. */
  lemma LaunchEnds(jobs: seq<Job>, queued: Job, l: Launch, trouble: Trouble)
    requires StoreInv(jobs) && queued in jobs && queued.state == Queued
    ensures var (next, outcome) := LaunchQueued(jobs, queued, l, trouble, Written, Written);
      var runs, over := LaunchProven(queued, l), LaunchOver(queued, l) && !trouble.finishing;
      && Find(next, queued.jobId).Some? && (outcome.Returned? <==> runs || over)
      && var job := Find(next, queued.jobId).value;
         && (job.state == Running <==> runs) && (runs ==> PersistedIdentityMatches(job, l.claim))
         && (ResultState(job.state) <==> over) && (over ==> SaidBy(job, l.waited, queued))
         && (job.state == Interrupted <==> !runs && !over && !trouble.losing)
         && (job.state == Queued <==> !runs && !over && trouble.losing)
  {
    LaunchStores(jobs, queued, l, trouble);
    LaunchFinds(jobs, queued, l, trouble);
    LaunchedMeans(queued, l, trouble);
  }

  lemma StoredAs(jobs: seq<Job>, j: Job, k: Job)
    requires UniqueJobs(jobs) && UniqueRequests(jobs) && j in jobs && SameJob(j, k)
    ensures Find(ReplaceJob(jobs, k), j.jobId) == Some(k)
  {
    ReplacedUnique(jobs, j, k);
    Found(ReplaceJob(jobs, k), k);
  }

  // ---- appending and evicting ------------------------------------------------------------

  /** What appending does: at most one job leaves, and only one that is over and, for a review, was
      finalized; without such a job the store refuses. */
  lemma AppendKeeps(jobs: seq<Job>, j: Job)
    requires StoreInv(jobs) && JobInv(j) && (forall k :: k in jobs ==> k.jobId < j.jobId && !SameRequest(k, j))
    ensures var next := Append(jobs, j);
      && (next.Failure? <==> |jobs| == MAX_DURABLE_JOBS && forall k :: k in jobs ==> !Evictable(k))
      && (next.Success? ==> AppendedTo(jobs, j, next.value))
  {
    var k := FirstEvictable(jobs);
    if |jobs| < MAX_DURABLE_JOBS {
      AddedOne(jobs, j, |jobs|);
      assert jobs[..|jobs|] + [] == jobs;
    } else if k < |jobs| {
      assert jobs[k] in jobs;
      AddedOne(jobs, j, k);
    } else {
      assert forall n :: n in jobs ==> !Evictable(n);
    }
  }

  predicate AppendedTo(jobs: seq<Job>, j: Job, next: seq<Job>) {
    && StoreInv(next) && j in next
    && (forall n :: n in next ==> n == j || n in jobs)
    && (forall n :: n in jobs ==> n in next || Evictable(n))
  }

  lemma AddedOne(jobs: seq<Job>, j: Job, k: nat)
    requires StoreInv(jobs) && JobInv(j) && (forall n :: n in jobs ==> n.jobId < j.jobId && !SameRequest(n, j))
    requires k <= |jobs| && (k == |jobs| ==> |jobs| < MAX_DURABLE_JOBS) && (k < |jobs| ==> Evictable(jobs[k]))
    ensures AppendedTo(jobs, j, jobs[..k] + (if k < |jobs| then jobs[k + 1..] else []) + [j])
  {
    var kept := jobs[..k] + (if k < |jobs| then jobs[k + 1..] else []);
    KeptUnique(jobs, k, kept);
    KeptMembers(jobs, k, kept);
    AddLast(jobs, j, kept);
  }

  lemma AddLast(jobs: seq<Job>, j: Job, kept: seq<Job>)
    requires (forall n :: n in jobs ==> JobInv(n) && n.jobId < j.jobId && !SameRequest(n, j)) && JobInv(j)
    requires |kept| < MAX_DURABLE_JOBS && UniqueJobs(kept) && UniqueRequests(kept)
    requires (forall n :: n in kept ==> n in jobs) && (forall n :: n in jobs ==> n in kept || Evictable(n))
    ensures AppendedTo(jobs, j, kept + [j])
  {
    var next := kept + [j];
    assert next[|kept|] == j;
    forall i, n | 0 <= i < n < |next| ensures next[i].jobId != next[n].jobId && !SameRequest(next[i], next[n]) {
      assert next[i] in kept;
    }
  }

  lemma KeptUnique(jobs: seq<Job>, k: nat, kept: seq<Job>)
    requires UniqueJobs(jobs) && UniqueRequests(jobs) && k <= |jobs|
    requires kept == jobs[..k] + (if k < |jobs| then jobs[k + 1..] else [])
    ensures UniqueJobs(kept) && UniqueRequests(kept)
  {
    forall i | 0 <= i < |kept| ensures kept[i] == jobs[if i < k then i else i + 1] {
    }
  }

  lemma KeptMembers(jobs: seq<Job>, k: nat, kept: seq<Job>)
    requires k <= |jobs| && kept == jobs[..k] + (if k < |jobs| then jobs[k + 1..] else [])
    ensures (forall n :: n in kept ==> n in jobs)
    ensures (forall n :: n in jobs ==> n in kept || (k < |jobs| && n == jobs[k]))
  {
    forall n | n in jobs ensures n in kept || (k < |jobs| && n == jobs[k]) {
      var i :| 0 <= i < |jobs| && jobs[i] == n;
      if i != k {
        assert kept[if i < k then i else i - 1] == n;
      }
    }
  }
}
