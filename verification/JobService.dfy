/** The job manager as it runs: the document is read again before every rewrite, and each call does
    exactly what its step function says. */
module JobService {
  import opened Storage
  import opened Wrappers
  import opened DurableJobs

  class DurableJobManager {
    /** The stored jobs. */
    var jobs: seq<Job>
    /** Job ids are handed out in order, so none is used twice. */
    var nextId: Id

    constructor ()
      ensures jobs == [] && nextId == 0
    {
      jobs, nextId := [], 0;
    }

    /** One atomic write of the document. */
    method WriteDocument(next: seq<Job>, fate: Fate) returns (stop: Option<Outcome>)
      modifies this`jobs
      ensures forall outcome ::
        Save(old(jobs), next, fate, outcome) == (jobs, if stop.Some? then stop.value else outcome)
      ensures stop.Some? ==> stop.value == Threw(PersistenceFailure) || stop.value == Died
    {
      match fate
      case Written => jobs := next; return None;
      case Refused => return Some(Threw(PersistenceFailure));
      case CrashBefore => return Some(Died);
      case CrashAfter => jobs := next; return Some(Died);
    }

    /** `appendJob`. */
    method AppendJob(job: Job, fate: Fate) returns (stop: Option<Outcome>)
      modifies this`jobs
      ensures match Append(old(jobs), job)
        case Failure(error) => jobs == old(jobs) && stop == Some(Threw(error))
        case Success(next) => Save(old(jobs), next, fate, Done) == (jobs, if stop.Some? then stop.value else Done)
      ensures stop.Some? ==> stop.value.Threw? || stop.value == Died
    {
      var next := jobs;
      if |next| >= MAX_DURABLE_JOBS {
        var evictable := FirstEvictable(next);
        if evictable == |next| {
          return Some(Threw(CapabilityDenied));
        }
        next := next[..evictable] + next[evictable + 1..];
      }
      next := next + [job];
      stop := WriteDocument(next, fate);
      if stop.None? {
        assert Save(old(jobs), next, fate, Done) == (jobs, Done);
      }
    }

    /** `replaceJob`, with the walk over the stored jobs. */
    method StoreJob(job: Job, fate: Fate) returns (stop: Option<Outcome>)
      modifies this`jobs
      ensures forall outcome ::
        Save(old(jobs), ReplaceJob(old(jobs), job), fate, outcome) == (jobs, if stop.Some? then stop.value else outcome)
    {
      var next: seq<Job> := [];
      for i := 0 to |jobs|
        invariant jobs == old(jobs) && next == ReplaceJob(jobs, job)[..i]
      {
        next := next + [if jobs[i].jobId == job.jobId then job else jobs[i]];
      }
      assert next == ReplaceJob(jobs, job);
      stop := WriteDocument(next, fate);
    }

    method LoseJob(job: Job, trouble: Trouble, fate: Fate) returns (o: Outcome)
      modifies this`jobs
      ensures (jobs, o) == Decide(old(jobs), job, MarkLost(job, trouble), fate)
    {
      if trouble.losing {
        return Threw(PersistenceFailure);
      }
      var lost := job.(state := if job.state == Queued then Interrupted else Lost);
      var stop := StoreJob(lost, fate);
      return if stop.Some? then stop.value else Returned(lost);
    }

    method FinishJob(job: Job, result: RunnerResult, trouble: Trouble, fate: Fate) returns (o: Outcome)
      modifies this`jobs
      ensures (jobs, o) == Decide(old(jobs), job, FinishFromRunner(job, result, trouble), fate)
    {
      if result.jobId != job.jobId || result.runnerIdentity != job.runnerIdentity {
        o := LoseJob(job, trouble, fate);
        return;
      }
      if trouble.finishing {
        return Threw(PersistenceFailure);
      }
      var finished := job.(state := result.state, exitCode := result.exitCode);
      var stop := StoreJob(finished, fate);
      return if stop.Some? then stop.value else Returned(finished);
    }

    method RunJob(job: Job, claim: Claim, fate: Fate) returns (o: Outcome)
      modifies this`jobs
      ensures (jobs, o) == Decide(old(jobs), job, Replace(Claimed(job, claim)), fate)
    {
      var running := job.(state := Running, runnerPid := claim.runnerPid, runnerMarker := claim.runnerMarker,
                          pid := claim.targetPid, marker := claim.targetMarker, group := claim.targetGroup);
      var stop := StoreJob(running, fate);
      return if stop.Some? then stop.value else Returned(running);
    }

    method ReconcileJob(job: Job, s: Sight, fate: Fate) returns (o: Outcome)
      modifies this`jobs
      ensures (jobs, o) == Decide(old(jobs), job, Reconcile(job, s), fate)
    {
      if Terminal(job.state) {
        return Returned(job);
      }
      var matches := s.claim.Some? && PersistedIdentityMatches(job, s.claim.value);
      if job.state == Running && job.pid.Some? && !matches {
        o := LoseJob(job, s.trouble, fate);
        return;
      }
      if s.first.Some? {
        o := FinishJob(job, s.first.value, s.trouble, fate);
        return;
      }
      if s.claim.Some? && Verified(s.claim.value, job, s.alive) {
        if job.state == Queued || job.pid.None? {
          o := RunJob(job, s.claim.value, fate);
          return;
        }
        if matches {
          return Returned(job);
        }
      }
      if s.retry.Some? {
        o := FinishJob(job, s.retry.value, s.trouble, fate);
        return;
      }
      if matches && s.waited.Some? {
        if s.waited.value.jobId != job.jobId || s.waited.value.runnerIdentity != job.runnerIdentity {
          return Threw(ProcessOwnershipAmbiguous);
        }
        o := FinishJob(job, s.waited.value, s.trouble, fate);
        return;
      }
      o := LoseJob(job, s.trouble, fate);
    }

    /** The try block of `start` once the job is stored. */
    method LaunchJob(queued: Job, l: Launch, trouble: Trouble, fate: Fate) returns (o: Outcome)
      modifies this`jobs
      ensures (jobs, o) == Decide(old(jobs), queued, Launching(queued, l, trouble), fate)
    {
      if l.NotLaunched? {
        return Threw(ProcessOwnershipAmbiguous);
      }
      if l.Unclaimed? || l.claim.jobId != queued.jobId || l.claim.runnerIdentity != queued.runnerIdentity {
        if l.Unclaimed? && TrustedResult(l.waited, queued) {
          o := FinishJob(queued, l.waited.value, trouble, fate);
          return;
        }
        return Threw(ProcessOwnershipAmbiguous);
      }
      if !Verified(l.claim, queued, l.alive) || l.claim.runnerPid != Some(l.spawnedPid) {
        if l.claim.runnerPid == Some(l.spawnedPid) && TrustedResult(l.waited, queued) {
          o := FinishJob(queued, l.waited.value, trouble, fate);
          return;
        }
        return Threw(ProcessOwnershipAmbiguous);
      }
      o := RunJob(queued, l.claim, fate);
    }

    /** The rest of `start`, with its catch block. */
    method LaunchOrLose(queued: Job, l: Launch, trouble: Trouble, second: Fate, third: Fate) returns (o: Outcome)
      modifies this`jobs
      ensures (jobs, o) == LaunchQueued(old(jobs), queued, l, trouble, second, third)
    {
      o := LaunchJob(queued, l, trouble, second);
      if o.Threw? {
        var lost := LoseJob(queued, trouble, third);
        if !lost.Returned? {
          o := lost;
        }
      }
    }

    method AnswerAgain(existing: Job, order: Order, s: Sight, fate: Fate) returns (o: Outcome)
      modifies this`jobs
      ensures (jobs, o) == StartAgain(old(jobs), existing, order, s, fate)
    {
      if !LegacyCompatible(existing, order) && existing.fingerprint != Some(order.fingerprint) {
        return Threw(PreconditionFailed);
      }
      o := ReconcileJob(existing, s, fate);
    }

    method StartQueued(queued: Job, l: Launch, trouble: Trouble, first: Fate, second: Fate,
                       third: Fate) returns (o: Outcome)
      modifies this`jobs
      ensures (jobs, o) == StartNew(old(jobs), queued, l, trouble, first, second, third)
    {
      var stop := AppendJob(queued, first);
      if stop.Some? {
        return stop.value;
      }
      o := LaunchOrLose(queued, l, trouble, second, third);
    }

    method StartJob(order: Order, runnerIdentity: Id, s: Sight, l: Launch, first: Fate, second: Fate,
                    third: Fate) returns (o: Outcome)
      modifies this`jobs, this`nextId
      ensures (jobs, o) == Start(old(jobs), old(nextId), runnerIdentity, order, s, l, first, second, third)
      ensures nextId == old(nextId) + 1
    {
      var jobId := nextId;
      nextId := nextId + 1;
      var existing := FindRequest(jobs, order.projectId, order.requestId);
      if existing.Some? {
        o := AnswerAgain(existing.value, order, s, first);
        return;
      }
      o := StartQueued(QueuedJob(jobId, runnerIdentity, order), l, s.trouble, first, second, third);
    }

    method ObserveJob(projectId: Id, jobId: Id, active: bool, review: bool, s: Sight, fate: Fate) returns (o: Outcome)
      modifies this`jobs
      ensures (jobs, o) == Observe(old(jobs), projectId, jobId, active, review, s, fate)
    {
      var owned := Owned(jobs, projectId, jobId, active, review);
      if owned.Failure? {
        return Threw(owned.error);
      }
      o := ReconcileJob(owned.value, s, fate);
    }

    method CancelRunning(projectId: Id, jobId: Id, active: bool, s: Sight, again: Option<Claim>, alive: bool,
                         first: Fate, second: Fate) returns (o: Outcome)
      modifies this`jobs
      ensures (jobs, o) == CancelJob(old(jobs), projectId, jobId, active, s, again, alive, first, second)
    {
      o := ObserveJob(projectId, jobId, active, false, s, first);
      if !o.Returned? || o.job.state != Running {
        return;
      }
      var job := o.job;
      if again.None? || !Verified(again.value, job, alive)
        || again.value.targetPid != job.pid || again.value.targetMarker != job.marker
           || again.value.targetGroup != job.group {
        o := LoseJob(job, s.trouble, second);
      }
    }

    method MarkCodeReviewFinalized(projectId: Id, jobId: Id, active: bool, fate: Fate) returns (o: Outcome)
      modifies this`jobs
      ensures (jobs, o) == Finalize(old(jobs), projectId, jobId, active, fate)
    {
      var owned := Owned(jobs, projectId, jobId, active, true);
      if owned.Failure? {
        return Threw(owned.error);
      }
      if !Terminal(owned.value.state) {
        return Threw(PreconditionFailed);
      }
      if owned.value.finalized {
        return Done;
      }
      var stop := StoreJob(owned.value.(finalized := true), fate);
      return if stop.Some? then stop.value else Done;
    }

    /** `assertMissionCodeReviewsFinalized`. */
    method MissionCodeReviewsFinalized(missionId: Id) returns (passes: bool)
      ensures passes <==> GuardPasses(jobs, missionId)
    {
      for i := 0 to |jobs|
        invariant forall k :: 0 <= k < i ==>
          !(Review(jobs[k]) && jobs[k].missionId == Some(missionId) && !jobs[k].finalized)
      {
        if Review(jobs[i]) && jobs[i].missionId == Some(missionId) && !jobs[i].finalized {
          assert jobs[i] in jobs;
          return false;
        }
      }
      return true;
    }
  }
}
