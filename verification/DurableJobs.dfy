/** Durable jobs: a detached runner publishes a claim and later a result as files, and the manager
    moves the stored job along by what it finds, one call at a time. */
module DurableJobs {
  import opened Storage
  import opened Wrappers

  const MAX_DURABLE_JOBS: nat := 200

  type Id = nat

  datatype JobState = Queued | Running | Succeeded | Failed | Cancelled | Lost | Interrupted

  /** What a request to run something consists of. */
  datatype Work = Work(workspaceId: Id, profile: string, executable: string, argvDigest: string)

  datatype Job = Job(
    jobId: Id, requestId: string, projectId: Id, missionId: Option<Id>, work: Work, fingerprint: Option<string>,
    runnerIdentity: Id,
    runnerPid: Option<int>, runnerMarker: Option<string>, pid: Option<int>, marker: Option<string>, group: Option<int>,
    state: JobState, exitCode: Option<int>, finalized: bool)

  /** The claim file of a runner; its fields are whatever the file says. */
  datatype Claim = Claim(
    jobId: Id, runnerIdentity: Id, runnerPid: Option<int>, runnerGroup: Option<int>, runnerMarker: Option<string>,
    targetPid: Option<int>, targetGroup: Option<int>, targetMarker: Option<string>)

  datatype ResultFile = ResultFile(jobId: Id, runnerIdentity: Id, state: JobState, exitCode: Option<int>)

  /** A result file that `readRunnerResult` accepts. */
  type RunnerResult = r: ResultFile | ResultState(r.state) witness ResultFile(0, 0, Succeeded, None)

  datatype Error =
    | InvalidRequest | CapabilityDenied | PreconditionFailed | PersistenceFailure | ProcessOwnershipAmbiguous | Foreign

  datatype Outcome = Returned(job: Job) | Done | Threw(error: Error) | Died

  // ---- jobs ------------------------------------------------------------------------------

  predicate Terminal(s: JobState) {
    s == Succeeded || s == Failed || s == Cancelled || s == Lost || s == Interrupted
  }

  predicate Review(j: Job) {
    j.work.profile == "codex-review"
  }

  predicate ResultState(s: JobState) {
    s == Succeeded || s == Failed || s == Cancelled
  }

  predicate Trusted(r: RunnerResult, j: Job) {
    r.jobId == j.jobId && r.runnerIdentity == j.runnerIdentity
  }

  predicate PersistedIdentityMatches(j: Job, c: Claim) {
    && j.runnerPid == c.runnerPid && j.runnerMarker == c.runnerMarker
    && j.pid == c.targetPid && j.marker == c.targetMarker && j.group == c.targetGroup
  }

  /** Both processes were looked up; a field that is missing is never found alive. */
  predicate Verified(c: Claim, j: Job, alive: bool) {
    && c.jobId == j.jobId && c.runnerIdentity == j.runnerIdentity && c.runnerGroup == c.runnerPid
    && c.runnerPid.Some? && c.runnerMarker.Some? && c.targetPid.Some? && c.targetMarker.Some? && c.targetGroup.Some?
    && alive
  }

  // ---- what becomes of one job -----------------------------------------------------------

  /** What can go wrong before a terminal write: registering the logs and cleaning up when a job is
      finished, cleaning up when it is marked as lost. */
  datatype Trouble = Trouble(finishing: bool, losing: bool)

  /** What the job's files and processes look like during one reconciliation: the claim, whether its
      processes are alive, the result file at three moments, and what goes wrong. */
  datatype Sight = Sight(claim: Option<Claim>, alive: bool, first: Option<RunnerResult>, retry: Option<RunnerResult>,
                         waited: Option<RunnerResult>, trouble: Trouble)

  datatype Decision = Keep | Replace(job: Job) | Throw(error: Error)

  function MarkLost(j: Job, trouble: Trouble): Decision {
    if trouble.losing then Throw(PersistenceFailure)
    else Replace(j.(state := if j.state == Queued then Interrupted else Lost))
  }

  function FinishFromRunner(j: Job, r: RunnerResult, trouble: Trouble): Decision {
    if !Trusted(r, j) then MarkLost(j, trouble)
    else if trouble.finishing then Throw(PersistenceFailure)
    else Replace(j.(state := r.state, exitCode := r.exitCode))
  }

  function Claimed(j: Job, c: Claim): Job {
    j.(state := Running, runnerPid := c.runnerPid, runnerMarker := c.runnerMarker,
       pid := c.targetPid, marker := c.targetMarker, group := c.targetGroup)
  }

  /** Without a running process: a late result, or none. */
  function ReconcileEnded(j: Job, s: Sight, matches: bool): Decision {
    if s.retry.Some? then FinishFromRunner(j, s.retry.value, s.trouble)
    else if matches && s.waited.Some? then
      if !Trusted(s.waited.value, j) then Throw(ProcessOwnershipAmbiguous)
      else FinishFromRunner(j, s.waited.value, s.trouble)
    else MarkLost(j, s.trouble)
  }

  function Reconcile(j: Job, s: Sight): Decision {
    if Terminal(j.state) then Keep
    else
      var matches := s.claim.Some? && PersistedIdentityMatches(j, s.claim.value);
      if j.state == Running && j.pid.Some? && !matches then MarkLost(j, s.trouble)
      else if s.first.Some? then FinishFromRunner(j, s.first.value, s.trouble)
      else if s.claim.Some? && Verified(s.claim.value, j, s.alive) then
        if j.state == Queued || j.pid.None? then Replace(Claimed(j, s.claim.value))
        else if matches then Keep
        else ReconcileEnded(j, s, matches)
      else ReconcileEnded(j, s, matches)
  }

  /** How far the launch of a new job got: not to a verified runner; to a runner without a target
      claim; or to a claim for this job and runner. `waited` is the result waited for after that. */
  datatype Launch =
    | NotLaunched
    | Unclaimed(waited: Option<RunnerResult>)
    | Launched(spawnedPid: int, claim: Claim, alive: bool, waited: Option<RunnerResult>)

  predicate TrustedResult(r: Option<RunnerResult>, j: Job) {
    r.Some? && Trusted(r.value, j)
  }

  /** What `start` makes of the queued job; a throw is followed by marking the job as lost. */
  function Launching(queued: Job, l: Launch, trouble: Trouble): Decision {
    match l
    case NotLaunched => Throw(ProcessOwnershipAmbiguous)
    case Unclaimed(waited) =>
      if TrustedResult(waited, queued) then FinishFromRunner(queued, waited.value, trouble)
      else Throw(ProcessOwnershipAmbiguous)
    case Launched(spawnedPid, claim, alive, waited) =>
      if claim.jobId != queued.jobId || claim.runnerIdentity != queued.runnerIdentity then
        Throw(ProcessOwnershipAmbiguous)
      else if Verified(claim, queued, alive) && claim.runnerPid == Some(spawnedPid) then Replace(Claimed(queued, claim))
      else if claim.runnerPid == Some(spawnedPid) && TrustedResult(waited, queued) then
        FinishFromRunner(queued, waited.value, trouble)
      else Throw(ProcessOwnershipAmbiguous)
  }

  // ---- the store -------------------------------------------------------------------------

  function Find(jobs: seq<Job>, jobId: Id): (j: Option<Job>)
    ensures j.None? ==> forall k :: k in jobs ==> k.jobId != jobId
    ensures j.Some? ==> j.value in jobs && j.value.jobId == jobId
  {
    if jobs == [] then None
    else if jobs[0].jobId == jobId then Some(jobs[0])
    else Find(jobs[1..], jobId)
  }

  function FindRequest(jobs: seq<Job>, projectId: Id, requestId: string): (j: Option<Job>)
    ensures j.None? ==> forall k :: k in jobs ==> !(k.projectId == projectId && k.requestId == requestId)
    ensures j.Some? ==> j.value in jobs && j.value.projectId == projectId && j.value.requestId == requestId
  {
    if jobs == [] then None
    else if jobs[0].projectId == projectId && jobs[0].requestId == requestId then Some(jobs[0])
    else FindRequest(jobs[1..], projectId, requestId)
  }

  function ReplaceJob(jobs: seq<Job>, j: Job): (replaced: seq<Job>)
    ensures |replaced| == |jobs|
    ensures forall i :: 0 <= i < |jobs| ==> replaced[i] == if jobs[i].jobId == j.jobId then j else jobs[i]
  {
    if jobs == [] then []
    else
      var n := |jobs| - 1;
      ReplaceJob(jobs[..n], j) + [if jobs[n].jobId == j.jobId then j else jobs[n]]
  }

  /** Only a job that is over, and a review only once it was finalized, may make room. */
  predicate Evictable(j: Job) {
    Terminal(j.state) && (!Review(j) || j.finalized)
  }

  function FirstEvictable(jobs: seq<Job>): (k: nat)
    ensures k <= |jobs| && (k < |jobs| ==> Evictable(jobs[k]))
    ensures forall i :: 0 <= i < k ==> !Evictable(jobs[i])
  {
    if jobs == [] then 0 else if Evictable(jobs[0]) then 0 else 1 + FirstEvictable(jobs[1..])
  }

  function Append(jobs: seq<Job>, j: Job): Result<seq<Job>, Error> {
    if |jobs| < MAX_DURABLE_JOBS then Success(jobs + [j])
    else
      var k := FirstEvictable(jobs);
      if k == |jobs| then Failure(CapabilityDenied) else Success(jobs[..k] + jobs[k + 1..] + [j])
  }

  function Save(saved: seq<Job>, next: seq<Job>, fate: Fate, outcome: Outcome): (seq<Job>, Outcome) {
    match fate
    case Written => (next, outcome)
    case Refused => (saved, Threw(PersistenceFailure))
    case CrashBefore => (saved, Died)
    case CrashAfter => (next, Died)
  }

  function Decide(jobs: seq<Job>, j: Job, d: Decision, fate: Fate): (seq<Job>, Outcome) {
    match d
    case Keep => (jobs, Returned(j))
    case Throw(error) => (jobs, Threw(error))
    case Replace(next) => Save(jobs, ReplaceJob(jobs, next), fate, Returned(next))
  }

  // ---- calls -----------------------------------------------------------------------------

  datatype Order = Order(requestId: string, projectId: Id, missionId: Option<Id>, work: Work, fingerprint: string)

  predicate LegacyCompatible(j: Job, o: Order) {
    j.fingerprint.None? && o.work.profile != "codex-review" && j.work == o.work
  }

  function QueuedJob(jobId: Id, runnerIdentity: Id, o: Order): Job {
    Job(jobId, o.requestId, o.projectId, o.missionId, o.work, Some(o.fingerprint), runnerIdentity,
        None, None, None, None, None, Queued, None, false)
  }

  /** The job is in the store; the launch follows, and on any throw the job is marked as lost. */
  function LaunchQueued(jobs: seq<Job>, queued: Job, l: Launch, trouble: Trouble, second: Fate,
                        third: Fate): (seq<Job>, Outcome) {
    var d := Launching(queued, l, trouble);
    var (next, outcome) := Decide(jobs, queued, d, second);
    if !outcome.Threw? then (next, outcome)
    else
      var (after, final) := Decide(next, queued, MarkLost(queued, trouble), third);
      (after, if final.Returned? then outcome else final)
  }

  /** An order whose request id the project already has. */
  function StartAgain(jobs: seq<Job>, existing: Job, o: Order, s: Sight, fate: Fate): (seq<Job>, Outcome) {
    if !LegacyCompatible(existing, o) && existing.fingerprint != Some(o.fingerprint) then
      (jobs, Threw(PreconditionFailed))
    else Decide(jobs, existing, Reconcile(existing, s), fate)
  }

  /** An order whose request id is new for its project. */
  function StartNew(jobs: seq<Job>, queued: Job, l: Launch, trouble: Trouble, first: Fate, second: Fate,
                    third: Fate): (seq<Job>, Outcome) {
    match Append(jobs, queued)
    case Failure(error) => (jobs, Threw(error))
    case Success(appended) =>
      var (saved, outcome) := Save(jobs, appended, first, Done);
      if outcome != Done then (saved, outcome) else LaunchQueued(saved, queued, l, trouble, second, third)
  }

  function Start(jobs: seq<Job>, jobId: Id, runnerIdentity: Id, o: Order, s: Sight, l: Launch, first: Fate,
                 second: Fate, third: Fate): (seq<Job>, Outcome) {
    match FindRequest(jobs, o.projectId, o.requestId)
    case Some(existing) => StartAgain(jobs, existing, o, s, first)
    case None => StartNew(jobs, QueuedJob(jobId, runnerIdentity, o), l, s.trouble, first, second, third)
  }

  function Owned(jobs: seq<Job>, projectId: Id, jobId: Id, active: bool, review: bool): Result<Job, Error> {
    match Find(jobs, jobId)
    case None => Failure(InvalidRequest)
    case Some(j) =>
      if j.projectId != projectId then Failure(CapabilityDenied)
      else if !active then Failure(Foreign)
      else if Review(j) != review then Failure(CapabilityDenied)
      else Success(j)
  }

  /** `status`, `logs` and `result`, and their code-review counterparts. */
  function Observe(jobs: seq<Job>, projectId: Id, jobId: Id, active: bool, review: bool, s: Sight,
                   fate: Fate): (seq<Job>, Outcome) {
    match Owned(jobs, projectId, jobId, active, review)
    case Failure(error) => (jobs, Threw(error))
    case Success(j) => Decide(jobs, j, Reconcile(j, s), fate)
  }

  /** `cancel`: the job that is still running is checked once more against a fresh claim. */
  function CancelJob(jobs: seq<Job>, projectId: Id, jobId: Id, active: bool, s: Sight, again: Option<Claim>,
                     alive: bool, first: Fate, second: Fate): (seq<Job>, Outcome) {
    var (next, outcome) := Observe(jobs, projectId, jobId, active, false, s, first);
    if !outcome.Returned? || outcome.job.state != Running then (next, outcome)
    else
      var j := outcome.job;
      if again.None? || !Verified(again.value, j, alive)
        || again.value.targetPid != j.pid || again.value.targetMarker != j.marker || again.value.targetGroup != j.group
      then Decide(next, j, MarkLost(j, s.trouble), second)
      else (next, outcome)
  }

  function Finalize(jobs: seq<Job>, projectId: Id, jobId: Id, active: bool, fate: Fate): (seq<Job>, Outcome) {
    match Owned(jobs, projectId, jobId, active, true)
    case Failure(error) => (jobs, Threw(error))
    case Success(j) =>
      if !Terminal(j.state) then (jobs, Threw(PreconditionFailed))
      else if j.finalized then (jobs, Done)
      else Save(jobs, ReplaceJob(jobs, j.(finalized := true)), fate, Done)
  }

  /** `assertMissionCodeReviewsFinalized` lets the mission be completed. */
  predicate GuardPasses(jobs: seq<Job>, missionId: Id) {
    forall j :: j in jobs ==> !(Review(j) && j.missionId == Some(missionId) && !j.finalized)
  }

  // ---- events and runs -------------------------------------------------------------------

  /** `next` is the next job id. Here calls are taken one at a time. */
  datatype World = World(jobs: seq<Job>, next: Id)

  datatype Event =
    | StartEvent(order: Order, runnerIdentity: Id, sight: Sight, launch: Launch, first: Fate, second: Fate, third: Fate)
    | ObserveEvent(projectId: Id, jobId: Id, active: bool, review: bool, sight: Sight, first: Fate)
    | CancelEvent(projectId: Id, jobId: Id, active: bool, sight: Sight, again: Option<Claim>, alive: bool, first: Fate,
                  second: Fate)
    | FinalizeEvent(projectId: Id, jobId: Id, active: bool, first: Fate)

  function StepJobs(w: World, e: Event): seq<Job> {
    match e
    case StartEvent(order, runnerIdentity, sight, launch, first, second, third) =>
      Start(w.jobs, w.next, runnerIdentity, order, sight, launch, first, second, third).0
    case ObserveEvent(projectId, jobId, active, review, sight, first) =>
      Observe(w.jobs, projectId, jobId, active, review, sight, first).0
    case CancelEvent(projectId, jobId, active, sight, again, alive, first, second) =>
      CancelJob(w.jobs, projectId, jobId, active, sight, again, alive, first, second).0
    case FinalizeEvent(projectId, jobId, active, first) => Finalize(w.jobs, projectId, jobId, active, first).0
  }

  function Step(w: World, e: Event): World {
    World(StepJobs(w, e), if e.StartEvent? then w.next + 1 else w.next)
  }

  function Run(w: World, events: seq<Event>): World
    decreases |events|
  {
    if events == [] then w else Run(Step(w, events[0]), events[1..])
  }
}
