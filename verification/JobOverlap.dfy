/** The calls of the job manager in flight. Every `await` ends a step, so between a call's reading of the
    store, its waiting for files and processes, and its write, any other call may run. */
module JobOverlap {
  import opened Storage
  import opened Wrappers
  import opened DurableJobs
  import opened JobSafety
  import opened JobWrites
  import JobRuns

  /** Where a call goes on after its write: nowhere, to the catch block of `start` if the write fails, or
      to the check of `cancel`. */
  datatype Then = Stop | LoseOnFailure(queued: Job) | CheckForCancel

  /** Where a call is, with the copies of jobs that it still holds. */
  datatype Call =
    | Ordering(order: Order, runnerIdentity: Id)
    | Appending(order: Order, runnerIdentity: Id)
    | LaunchingJob(queued: Job)
    | Losing(copy: Job)
    | Observing(projectId: Id, jobId: Id, review: bool, cancels: bool)
    | Reconciling(copy: Job, cancels: bool)
    | Cancelling(copy: Job)
    | Finalizing(projectId: Id, jobId: Id)
    | Storing(copy: Job, job: Job, after: Then)
    | Over

  /** What one step of a call meets. */
  datatype Meets = Meets(active: bool, sight: Sight, launch: Launch, again: Option<Claim>, alive: bool, fate: Fate)

  /** What one step of a call does to the store, and where the call is then; `died` says that the process
      died with it. */
  datatype Stepped = Stepped(write: Option<Write>, next: Call, died: bool)

  function Goes(next: Call): Stepped {
    Stepped(None, next, false)
  }

  function StepOrdering(s: Store, order: Order, runnerIdentity: Id): Stepped {
    match FindRequest(s.jobs, order.projectId, order.requestId)
    case None => Goes(Appending(order, runnerIdentity))
    case Some(existing) =>
      if !LegacyCompatible(existing, order) && existing.fingerprint != Some(order.fingerprint) then Goes(Over)
      else Goes(Reconciling(existing, false))
  }

  function StepAppending(s: Store, order: Order, runnerIdentity: Id, fate: Fate): Stepped {
    var queued := QueuedJob(s.next, runnerIdentity, order);
    Stepped(Some(AppendWrite(order, runnerIdentity, fate)),
            if fate == Written && Append(s.jobs, queued).Success? then LaunchingJob(queued) else Over,
            Append(s.jobs, queued).Success? && (fate == CrashBefore || fate == CrashAfter))
  }

  function StepStoring(copy: Job, job: Job, after: Then, fate: Fate): Stepped {
    match fate
    case Written =>
      Stepped(Some(ReplaceWrite(copy, job, fate)),
              if after.CheckForCancel? && job.state == Running then Cancelling(job) else Over, false)
    case Refused =>
      Stepped(Some(ReplaceWrite(copy, job, fate)), if after.LoseOnFailure? then Losing(after.queued) else Over, false)
    case _ => Stepped(Some(ReplaceWrite(copy, job, fate)), Over, true)
  }

  /** A decision about a copy: nothing to write, an exception, or a write. */
  function Decided(copy: Job, d: Decision, kept: Call, thrown: Call, after: Then): Stepped {
    match d
    case Keep => Goes(kept)
    case Throw(_) => Goes(thrown)
    case Replace(job) => Goes(Storing(copy, job, after))
  }

  function StepFinalizing(s: Store, projectId: Id, jobId: Id, active: bool): Stepped {
    match Owned(s.jobs, projectId, jobId, active, true)
    case Failure(_) => Goes(Over)
    case Success(j) =>
      if !Terminal(j.state) || j.finalized then Goes(Over) else Goes(Storing(j, j.(finalized := true), Stop))
  }

  function StepCall(s: Store, c: Call, m: Meets): Stepped {
    match c
    case Ordering(order, runnerIdentity) => StepOrdering(s, order, runnerIdentity)
    case Appending(order, runnerIdentity) => StepAppending(s, order, runnerIdentity, m.fate)
    case LaunchingJob(queued) =>
      Decided(queued, Launching(queued, m.launch, m.sight.trouble), Over, Losing(queued), LoseOnFailure(queued))
    case Losing(copy) => Decided(copy, MarkLost(copy, m.sight.trouble), Over, Over, Stop)
    case Observing(projectId, jobId, review, cancels) =>
      (match Owned(s.jobs, projectId, jobId, m.active, review)
       case Failure(_) => Goes(Over)
       case Success(j) => Goes(Reconciling(j, cancels)))
    case Reconciling(copy, cancels) =>
      Decided(copy, Reconcile(copy, m.sight), if cancels && copy.state == Running then Cancelling(copy) else Over, Over,
              if cancels then CheckForCancel else Stop)
    case Cancelling(copy) =>
      if m.again.None? || !Verified(m.again.value, copy, m.alive)
        || m.again.value.targetPid != copy.pid || m.again.value.targetMarker != copy.marker
           || m.again.value.targetGroup != copy.group
      then Goes(Losing(copy)) else Goes(Over)
    case Finalizing(projectId, jobId) => StepFinalizing(s, projectId, jobId, m.active)
    case Storing(copy, job, after) => StepStoring(copy, job, after, m.fate)
    case Over => Goes(Over)
  }

  function After(s: Store, stepped: Stepped): Store {
    if stepped.write.Some? then StepWrite(s, stepped.write.value) else s
  }

  // ---- any interleaving ------------------------------------------------------------------

  datatype System = System(store: Store, calls: seq<Call>)

  datatype Event =
    | Begin(call: Call)
    | Resume(i: nat, meets: Meets)
    | Crash

  /** How a call begins: `start`, an observation, `cancel`, or a finalization. `recover` reads the document
      once and then reconciles its jobs, so it begins as a reconciliation of a stored job. */
  predicate Begins(s: Store, c: Call) {
    c.Ordering? || c.Observing? || c.Finalizing? || (c.Reconciling? && c.copy in s.jobs)
  }

  function Apply(s: System, e: Event): System {
    match e
    case Begin(call) => if Begins(s.store, call) then s.(calls := s.calls + [call]) else s
    case Crash => s.(calls := [])
    case Resume(i, meets) =>
      if i >= |s.calls| then s
      else
        var stepped := StepCall(s.store, s.calls[i], meets);
        System(After(s.store, stepped), if stepped.died then [] else s.calls[i := stepped.next])
  }

  function Run(s: System, events: seq<Event>): System
    decreases |events|
  {
    if events == [] then s else Run(Apply(s, events[0]), events[1..])
  }

  // ---- every call is a sequence of allowed writes ----------------------------------------

  /** The copies a call holds are of jobs that were once stored. */
  ghost predicate Holds(s: Store, c: Call) {
    match c
    case LaunchingJob(queued) => Known(s, queued) && queued.state == Queued
    case Losing(copy) => Known(s, copy) && !DurableJobs.Terminal(copy.state)
    case Reconciling(copy, _) => Known(s, copy)
    case Cancelling(copy) => Known(s, copy) && copy.state == Running
    case Storing(copy, job, after) =>
      Known(s, job) && JobInv(copy) && Moves(copy, job)
      && (after.LoseOnFailure? ==> Known(s, after.queued) && after.queued.state == Queued)
    case _ => true
  }

  lemma KnownLater(s: Store, x: Store, j: Job)
    requires Known(s, j) && s.versions <= x.versions
    ensures Known(x, j)
  {
  }

  lemma HoldsLater(s: Store, x: Store, c: Call)
    requires Holds(s, c) && s.versions <= x.versions
    ensures Holds(x, c)
  {
  }

  lemma StoredIsKnown(s: Store, j: Job)
    requires StoreKept(s) && j in s.jobs
    ensures Known(s, j)
  {
    assert SameJob(j, j);
  }

  lemma KnownThen(s: Store, j: Job, k: Job)
    requires Known(s, j) && SameJob(j, k) && JobInv(k)
    ensures Known(s, k)
  {
    var v :| v in s.versions && SameJob(v, j);
    assert SameJob(v, k);
  }

  /** A sound decision about a copy leads to a call that holds what it may. */
  lemma DecidedHolds(s: Store, j: Job, d: Decision, kept: Call, thrown: Call, after: Then)
    requires Known(s, j) && Sound(j, d) && Holds(s, kept) && Holds(s, thrown)
    requires after.LoseOnFailure? ==> Known(s, after.queued) && after.queued.state == Queued
    ensures Holds(s, Decided(j, d, kept, thrown, after).next) && Decided(j, d, kept, thrown, after).write.None?
  {
    if d.Replace? {
      KnownThen(s, j, d.job);
    }
  }

  lemma AppendedIsKnown(s: Store, queued: Job)
    requires StoreKept(s) && JobInv(queued) && queued.jobId == s.next && Append(s.jobs, queued).Success?
    ensures Known(Remember(s, Append(s.jobs, queued).value, s.next + 1), queued)
  {
    AppendedMembers(s.jobs, queued);
    assert queued in Append(s.jobs, queued).value && SameJob(queued, queued);
  }

  /** One step makes at most one write, an allowed one, and the call goes on with copies of stored jobs. */
  lemma StepAllowed(s: Store, c: Call, m: Meets)
    requires StoreKept(s) && Holds(s, c)
    ensures var x := StepCall(s, c, m); (x.write.Some? ==> Allowed(s, x.write.value)) && Holds(After(s, x), x.next)
  {
    match c
    case Ordering(order, runnerIdentity) =>
      var existing := FindRequest(s.jobs, order.projectId, order.requestId);
      if existing.Some? {
        StoredIsKnown(s, existing.value);
      }
    case Appending(order, runnerIdentity) =>
      var queued := QueuedJob(s.next, runnerIdentity, order);
      if m.fate == Written && Append(s.jobs, queued).Success? {
        AppendedIsKnown(s, queued);
      }
    case LaunchingJob(queued) =>
      LaunchSound(queued, m.launch, m.sight.trouble);
      DecidedHolds(s, queued, Launching(queued, m.launch, m.sight.trouble), Over, Losing(queued),
                   LoseOnFailure(queued));
    case Losing(copy) =>
      LostSound(copy, m.sight.trouble);
      DecidedHolds(s, copy, MarkLost(copy, m.sight.trouble), Over, Over, Stop);
    case Observing(projectId, jobId, review, cancels) =>
      var owned := Owned(s.jobs, projectId, jobId, m.active, review);
      if owned.Success? {
        StoredIsKnown(s, owned.value);
      }
    case Reconciling(copy, cancels) =>
      ReconcileSound(copy, m.sight);
      DecidedHolds(s, copy, Reconcile(copy, m.sight),
                   if cancels && copy.state == Running then Cancelling(copy) else Over, Over,
                   if cancels then CheckForCancel else Stop);
    case Cancelling(copy) =>
    case Finalizing(projectId, jobId) => FinalizingAllowed(s, projectId, jobId, m.active);
    case Storing(copy, job, after) => StoringAllowed(s, copy, job, after, m.fate);
    case Over =>
  }

  lemma FinalizingAllowed(s: Store, projectId: Id, jobId: Id, active: bool)
    requires StoreKept(s)
    ensures var x := StepFinalizing(s, projectId, jobId, active); x.write.None? && Holds(s, x.next)
  {
    var owned := Owned(s.jobs, projectId, jobId, active, true);
    if owned.Success? && DurableJobs.Terminal(owned.value.state) {
      StoredIsKnown(s, owned.value);
      KnownThen(s, owned.value, owned.value.(finalized := true));
    }
  }

  lemma StoringAllowed(s: Store, copy: Job, job: Job, after: Then, fate: Fate)
    requires StoreKept(s) && Holds(s, Storing(copy, job, after))
    ensures var x := StepStoring(copy, job, after, fate); Allowed(s, x.write.value) && Holds(After(s, x), x.next)
  {
    var x := After(s, StepStoring(copy, job, after, fate));
    KnownLater(s, x, job);
    if after.LoseOnFailure? {
      KnownLater(s, x, after.queued);
    }
  }

  ghost predicate SystemInv(s: System) {
    StoreKept(s.store) && forall i :: 0 <= i < |s.calls| ==> Holds(s.store, s.calls[i])
  }

  lemma EventKeeps(s: System, e: Event)
    requires SystemInv(s)
    ensures SystemInv(Apply(s, e)) && s.store.versions <= Apply(s, e).store.versions
    ensures Apply(s, e).store == s.store || exists w ::
      Allowed(s.store, w) && Apply(s, e).store == StepWrite(s.store, w)
  {
    match e
    case Begin(call) =>
      if call.Reconciling? && call.copy in s.store.jobs {
        StoredIsKnown(s.store, call.copy);
      }
    case Crash =>
    case Resume(i, meets) =>
      if i < |s.calls| {
        var stepped := StepCall(s.store, s.calls[i], meets);
        StepAllowed(s.store, s.calls[i], meets);
        if stepped.write.Some? {
          WriteKeeps(s.store, stepped.write.value);
        }
        forall k | 0 <= k < |s.calls| ensures Holds(After(s.store, stepped), s.calls[k]) || k == i {
          HoldsLater(s.store, After(s.store, stepped), s.calls[k]);
        }
      }
  }

  /** Whatever calls overlap, and wherever the process dies, what happens to the store is a sequence of
      allowed writes. */
  lemma {:induction false} RunsAreWrites(s: System, events: seq<Event>) returns (writes: seq<Write>)
    requires SystemInv(s)
    ensures SystemInv(Run(s, events)) && AllAllowed(s.store, writes)
    ensures Run(s, events).store == RunWrites(s.store, writes)
    decreases |events|
  {
    if events == [] {
      return [];
    }
    EventKeeps(s, events[0]);
    var x := Apply(s, events[0]);
    var rest := RunsAreWrites(x, events[1..]);
    if x.store == s.store {
      return rest;
    }
    var w :| Allowed(s.store, w) && x.store == StepWrite(s.store, w);
    assert ([w] + rest)[1..] == rest;
    return [w] + rest;
  }

  /** So the completion guard holds over every interleaving of calls: when it lets a mission through,
      every review job that was ever stored for the mission was finalized. */
  lemma GuardUnderOverlap(s: System, events: seq<Event>, missionId: Id, review: Job)
    requires Init(s.store) && s.calls == [] && GuardPasses(Run(s, events).store.jobs, missionId)
    requires review in Run(s, events).store.versions && Review(review) && review.missionId == Some(missionId)
    ensures exists v ::
      v in Run(s, events).store.versions && SameJob(review, v) && v.finalized && DurableJobs.Terminal(v.state)
  {
    var writes := RunsAreWrites(s, events);
    GuardMeansFinalized(s.store, writes, missionId, review);
  }

  /** Over every interleaving the store stays within bounds, with unique ids, a running or lost job carries
      all five fields of its processes' identity, and a queued or interrupted one none; only a job that
      ended as its runner said has an exit code. */
  lemma StoreUnderOverlap(s: System, events: seq<Event>)
    requires Init(s.store) && s.calls == []
    ensures var jobs := Run(s, events).store.jobs;
      && |jobs| <= MAX_DURABLE_JOBS && UniqueJobs(jobs)
      && (forall j :: j in jobs && (j.state == Running || j.state == Lost) ==> Identified(j))
      && (forall j :: j in jobs && (j.state == Queued || j.state == Interrupted) ==> Unidentified(j))
      && (forall j :: j in jobs && j.exitCode.Some? ==> ResultState(j.state))
  {
    var writes := RunsAreWrites(s, events);
    var x := Run(s, events).store;
    assert forall j :: j in x.jobs ==> j in x.versions;
  }

  // ---- writes that find their copy -------------------------------------------------------

  /** If the step is a write that persists, it finds stored the very copy it was decided from. */
  predicate FindsItsCopy(s: System, e: Event) {
    e.Resume? && e.i < |s.calls| && s.calls[e.i].Storing? && Persists(e.meets.fate) ==>
      s.calls[e.i].copy in s.store.jobs
  }

  predicate AllFindTheirs(s: System, events: seq<Event>)
    decreases |events|
  {
    events != [] ==> FindsItsCopy(s, events[0]) && AllFindTheirs(Apply(s, events[0]), events[1..])
  }

  /** Only a call that is storing a decided job replaces one, and what it stores is one move from its copy. */
  lemma ReplacesItsJob(s: Store, c: Call, m: Meets)
    requires Holds(s, c)
    ensures var x := StepCall(s, c, m);
      x.write.Some? && x.write.value.ReplaceWrite? ==>
        && c.Storing? && x.write.value == ReplaceWrite(c.copy, c.job, m.fate)
        && JobInv(c.job) && Moves(c.copy, c.job)
  {
  }

  lemma StoringLeaves(s: Store, c: Call, m: Meets)
    requires c.Storing?
    ensures After(s, StepCall(s, c, m))
      == Remember(s, if Persists(m.fate) then ReplaceJob(s.jobs, c.job) else s.jobs, s.next)
  {
  }

  lemma OnlyThoseWrite(s: Store, c: Call, m: Meets)
    requires !c.Appending? && !c.Storing?
    ensures StepCall(s, c, m).write.None?
  {
  }

  lemma EventMovesOn(s: System, e: Event)
    requires SystemInv(s) && FindsItsCopy(s, e)
    ensures JobRuns.Later(WorldOf(s.store), WorldOf(Apply(s, e).store))
  {
    SameLater(s.store, s.store.next);
    if e.Resume? && e.i < |s.calls| {
      var stepped := StepCall(s.store, s.calls[e.i], e.meets);
      if stepped.write.Some? {
        ReplacesItsJob(s.store, s.calls[e.i], e.meets);
        FreshStep(s.store, stepped.write.value);
      }
    }
  }

  lemma {:induction false} RunMovesOn(s: System, events: seq<Event>)
    requires SystemInv(s) && AllFindTheirs(s, events)
    ensures JobRuns.Later(WorldOf(s.store), WorldOf(Run(s, events).store))
    decreases |events|
  {
    if events == [] {
      SameLater(s.store, s.store.next);
    } else {
      var x := Apply(s, events[0]);
      EventKeeps(s, events[0]);
      EventMovesOn(s, events[0]);
      RunMovesOn(x, events[1..]);
      JobRuns.LaterTrans(WorldOf(s.store), WorldOf(x.store), WorldOf(Run(s, events).store));
    }
  }

  /** States only advance over every interleaving in which each write finds stored the copy it was decided
      from, whatever was written back before: then a job that is over never changes again but for being
      finalized, and a running one keeps its processes' identity. */
  lemma AdvanceWhileFresh(s: System, before: seq<Event>, after: seq<Event>, j: Job, k: Job)
    requires Init(s.store) && s.calls == [] && AllFindTheirs(Run(s, before), after)
    requires j in Run(s, before).store.jobs && k in Run(Run(s, before), after).store.jobs && k.jobId == j.jobId
    ensures Advances(j, k)
  {
    var x := Run(s, before);
    var writes := RunsAreWrites(s, before);
    RunMovesOn(x, after);
    LaterAdvances(x.store, Run(x, after).store, j, k);
  }

  // ---- a call that runs alone ------------------------------------------------------------

  /** One call with no other in between, from step to step. */
  function Alone(s: Store, c: Call, meets: seq<Meets>): Store
    decreases |meets|
  {
    if meets == [] then s
    else
      var stepped := StepCall(s, c, meets[0]);
      Alone(After(s, stepped), stepped.next, meets[1..])
  }

  lemma AloneOver(s: Store, meets: seq<Meets>)
    ensures Alone(s, Over, meets) == s
    decreases |meets|
  {
    if meets != [] {
      AloneOver(s, meets[1..]);
    }
  }

  lemma AloneStep(s: Store, c: Call, m: Meets, rest: seq<Meets>)
    ensures var stepped := StepCall(s, c, m); Alone(s, c, [m] + rest) == Alone(After(s, stepped), stepped.next, rest)
  {
    assert ([m] + rest)[1..] == rest;
  }

  /** The write of a decided job, when nothing follows it. */
  lemma StoredAlone(s: Store, copy: Job, job: Job, m: Meets, rest: seq<Meets>)
    ensures Alone(s, Storing(copy, job, Stop), [m] + rest).jobs
      == if Persists(m.fate) then ReplaceJob(s.jobs, job) else s.jobs
  {
    AloneStep(s, Storing(copy, job, Stop), m, rest);
    AloneOver(After(s, StepStoring(copy, job, Stop, m.fate)), rest);
  }

  lemma LostAlone(s: Store, copy: Job, m: Meets, n: Meets)
    ensures Alone(s, Losing(copy), [m] + [n]).jobs == Decide(s.jobs, copy, MarkLost(copy, m.sight.trouble), n.fate).0
  {
    AloneStep(s, Losing(copy), m, [n]);
    AloneOver(s, [n]);
    if !m.sight.trouble.losing {
      StoredAlone(s, copy, MarkLost(copy, m.sight.trouble).job, n, []);
      assert [n] + [] == [n];
    }
  }

  lemma ReconciledAlone(s: Store, copy: Job, m: Meets, n: Meets)
    ensures Alone(s, Reconciling(copy, false), [m] + [n]).jobs
      == Decide(s.jobs, copy, Reconcile(copy, m.sight), n.fate).0
  {
    AloneStep(s, Reconciling(copy, false), m, [n]);
    AloneOver(s, [n]);
    if Reconcile(copy, m.sight).Replace? {
      StoredAlone(s, copy, Reconcile(copy, m.sight).job, n, []);
      assert [n] + [] == [n];
    }
  }

  /** Alone, an observation does what its step function says. */
  lemma ObservedAlone(s: Store, projectId: Id, jobId: Id, review: bool, a: Meets, b: Meets, c: Meets)
    ensures Alone(s, Observing(projectId, jobId, review, false), [a] + ([b] + [c])).jobs
         == Observe(s.jobs, projectId, jobId, a.active, review, b.sight, c.fate).0
  {
    AloneStep(s, Observing(projectId, jobId, review, false), a, [b] + [c]);
    var owned := Owned(s.jobs, projectId, jobId, a.active, review);
    if owned.Success? {
      ReconciledAlone(s, owned.value, b, c);
    } else {
      AloneOver(s, [b] + [c]);
    }
  }

  /** Alone, a finalization does what its step function says. */
  lemma FinalizedAlone(s: Store, projectId: Id, jobId: Id, a: Meets, b: Meets)
    ensures Alone(s, Finalizing(projectId, jobId), [a] + [b]).jobs
      == Finalize(s.jobs, projectId, jobId, a.active, b.fate).0
  {
    AloneStep(s, Finalizing(projectId, jobId), a, [b]);
    AloneOver(s, [b]);
    var owned := Owned(s.jobs, projectId, jobId, a.active, true);
    if owned.Success? {
      StoredAlone(s, owned.value, owned.value.(finalized := true), b, []);
      assert [b] + [] == [b];
    }
  }

  /** The check of `cancel`: without a claim that still names its processes the job is lost. */
  function Checked(jobs: seq<Job>, j: Job, again: Option<Claim>, alive: bool, trouble: Trouble, fate: Fate): seq<Job> {
    if again.None? || !Verified(again.value, j, alive)
      || again.value.targetPid != j.pid || again.value.targetMarker != j.marker || again.value.targetGroup != j.group
    then Decide(jobs, j, MarkLost(j, trouble), fate).0 else jobs
  }

  lemma CheckedAlone(s: Store, j: Job, a: Meets, b: Meets, c: Meets)
    ensures Alone(s, Cancelling(j), [a] + ([b] + [c])).jobs
      == Checked(s.jobs, j, a.again, a.alive, b.sight.trouble, c.fate)
  {
    AloneStep(s, Cancelling(j), a, [b] + [c]);
    LostAlone(s, j, b, c);
    AloneOver(s, [b] + [c]);
  }

  /** Alone, an order whose request id is there does what its step function says. */
  lemma AnsweredAlone(s: Store, o: Order, runnerIdentity: Id, a: Meets, b: Meets, c: Meets)
    requires FindRequest(s.jobs, o.projectId, o.requestId).Some?
    ensures Alone(s, Ordering(o, runnerIdentity), [a] + ([b] + [c])).jobs
         == StartAgain(s.jobs, FindRequest(s.jobs, o.projectId, o.requestId).value, o, b.sight, c.fate).0
  {
    AloneStep(s, Ordering(o, runnerIdentity), a, [b] + [c]);
    ReconciledAlone(s, FindRequest(s.jobs, o.projectId, o.requestId).value, b, c);
    AloneOver(s, [b] + [c]);
  }

  lemma WrittenAlone(s: Store, job: Job, queued: Job, second: Meets, b: Meets, third: Meets)
    ensures Alone(s, Storing(queued, job, LoseOnFailure(queued)), [second] + ([b] + [third])).jobs
         == (match second.fate
             case Written => ReplaceJob(s.jobs, job)
             case Refused => Decide(s.jobs, queued, MarkLost(queued, b.sight.trouble), third.fate).0
             case CrashBefore => s.jobs
             case CrashAfter => ReplaceJob(s.jobs, job))
  {
    var stepped := StepStoring(queued, job, LoseOnFailure(queued), second.fate);
    AloneStep(s, Storing(queued, job, LoseOnFailure(queued)), second, [b] + [third]);
    LostAlone(After(s, stepped), queued, b, third);
    AloneOver(After(s, stepped), [b] + [third]);
  }

  /** What a launch meets: the wait, the write of what it decided, if anything, and after an exception the
      marking as lost with its write. */
  function LaunchMeets(queued: Job, a: Meets, second: Meets, b: Meets, third: Meets): seq<Meets> {
    [a] + (if Launching(queued, a.launch, a.sight.trouble).Replace? then [second] + ([b] + [third]) else [b] + [third])
  }

  lemma LaunchedAs(jobs: seq<Job>, queued: Job, l: Launch, trouble: Trouble, second: Fate, third: Fate)
    ensures var d := Launching(queued, l, trouble);
      var lost := Decide(jobs, queued, MarkLost(queued, trouble), third).0;
      LaunchQueued(jobs, queued, l, trouble, second, third).0
        == (match d
            case Keep => jobs
            case Throw(_) => lost
            case Replace(job) =>
              match second
              case Written => ReplaceJob(jobs, job)
              case Refused => lost
              case CrashBefore => jobs
              case CrashAfter => ReplaceJob(jobs, job))
  {
  }

  /** Alone, the launch of a stored job does what its step function says. */
  lemma LaunchedAlone(s: Store, queued: Job, a: Meets, second: Meets, b: Meets, third: Meets)
    requires a.sight.trouble == b.sight.trouble
    ensures Alone(s, LaunchingJob(queued), LaunchMeets(queued, a, second, b, third)).jobs
         == LaunchQueued(s.jobs, queued, a.launch, a.sight.trouble, second.fate, third.fate).0
  {
    LaunchedAs(s.jobs, queued, a.launch, a.sight.trouble, second.fate, third.fate);
    match Launching(queued, a.launch, a.sight.trouble)
    case Replace(job) =>
      AloneStep(s, LaunchingJob(queued), a, [second] + ([b] + [third]));
      WrittenAlone(s, job, queued, second, b, third);
    case Throw(_) =>
      AloneStep(s, LaunchingJob(queued), a, [b] + [third]);
      LostAlone(s, queued, b, third);
    case Keep =>
      AloneStep(s, LaunchingJob(queued), a, [b] + [third]);
      AloneOver(s, [b] + [third]);
  }

  /** What `start` leaves once its look-up found nothing. */
  function StartLeaves(jobs: seq<Job>, queued: Job, l: Launch, trouble: Trouble, first: Fate, second: Fate,
                       third: Fate): seq<Job> {
    var appended := Append(jobs, queued);
    if appended.Failure? || !Persists(first) then jobs
    else if first == CrashAfter then appended.value
    else LaunchQueued(appended.value, queued, l, trouble, second, third).0
  }

  lemma StartAs(jobs: seq<Job>, queued: Job, l: Launch, trouble: Trouble, first: Fate, second: Fate, third: Fate)
    ensures StartNew(jobs, queued, l, trouble, first, second, third).0
      == StartLeaves(jobs, queued, l, trouble, first, second, third)
  {
  }

  lemma AppendedAlone(s: Store, o: Order, runnerIdentity: Id, first: Meets, a: Meets, second: Meets, b: Meets,
                      third: Meets)
    requires a.sight.trouble == b.sight.trouble
    ensures var queued := QueuedJob(s.next, runnerIdentity, o);
      Alone(s, Appending(o, runnerIdentity), [first] + LaunchMeets(queued, a, second, b, third)).jobs
        == StartLeaves(s.jobs, queued, a.launch, a.sight.trouble, first.fate, second.fate, third.fate)
  {
    var queued := QueuedJob(s.next, runnerIdentity, o);
    var rest := LaunchMeets(queued, a, second, b, third);
    AloneStep(s, Appending(o, runnerIdentity), first, rest);
    var stepped := StepAppending(s, o, runnerIdentity, first.fate);
    if stepped.next.LaunchingJob? {
      LaunchedAlone(After(s, stepped), queued, a, second, b, third);
    } else {
      AloneOver(After(s, stepped), rest);
    }
  }

  /** Alone, an order with a new request id does what its step function says. */
  lemma StartedAlone(s: Store, o: Order, runnerIdentity: Id, look: Meets, first: Meets, a: Meets, second: Meets,
                     b: Meets, third: Meets)
    requires FindRequest(s.jobs, o.projectId, o.requestId).None? && a.sight.trouble == b.sight.trouble
    ensures var queued := QueuedJob(s.next, runnerIdentity, o);
      Alone(s, Ordering(o, runnerIdentity), [look] + ([first] + LaunchMeets(queued, a, second, b, third))).jobs
        == StartNew(s.jobs, queued, a.launch, a.sight.trouble, first.fate, second.fate, third.fate).0
  {
    var queued := QueuedJob(s.next, runnerIdentity, o);
    AloneStep(s, Ordering(o, runnerIdentity), look, [first] + LaunchMeets(queued, a, second, b, third));
    AppendedAlone(s, o, runnerIdentity, first, a, second, b, third);
    StartAs(s.jobs, queued, a.launch, a.sight.trouble, first.fate, second.fate, third.fate);
  }

  /** What `cancel` leaves of a job that it owns. */
  function CancelLeaves(jobs: seq<Job>, j: Job, s: Sight, again: Option<Claim>, alive: bool, first: Fate,
                        second: Fate): seq<Job> {
    var d := Reconcile(j, s);
    if d.Throw? then jobs
    else if d.Keep? then (if j.state == Running then Checked(jobs, j, again, alive, s.trouble, second) else jobs)
    else CancelStores(jobs, d.job, s, again, alive, first, second)
  }

  function CancelStores(jobs: seq<Job>, job: Job, s: Sight, again: Option<Claim>, alive: bool, first: Fate,
                        second: Fate): seq<Job> {
    if first == Written && job.state == Running then
      Checked(ReplaceJob(jobs, job), job, again, alive, s.trouble, second)
    else if Persists(first) then ReplaceJob(jobs, job) else jobs
  }

  lemma CancelAs(jobs: seq<Job>, projectId: Id, jobId: Id, active: bool, s: Sight, again: Option<Claim>, alive: bool,
                 first: Fate, second: Fate)
    requires Owned(jobs, projectId, jobId, active, false).Success?
    ensures CancelJob(jobs, projectId, jobId, active, s, again, alive, first, second).0
         == CancelLeaves(jobs, Owned(jobs, projectId, jobId, active, false).value, s, again, alive, first, second)
  {
  }

  lemma CancelWritten(s: Store, copy: Job, job: Job, m: Meets, w: Meets, a: Meets, b: Meets, c: Meets)
    requires m.sight.trouble == b.sight.trouble
    ensures Alone(s, Storing(copy, job, CheckForCancel), [w] + ([a] + ([b] + [c]))).jobs
         == CancelStores(s.jobs, job, m.sight, a.again, a.alive, w.fate, c.fate)
  {
    var stepped := StepStoring(copy, job, CheckForCancel, w.fate);
    AloneStep(s, Storing(copy, job, CheckForCancel), w, [a] + ([b] + [c]));
    AloneOver(After(s, stepped), [a] + ([b] + [c]));
    CheckedAlone(After(s, stepped), job, a, b, c);
  }

  /** What a cancellation meets from its reconciliation on. */
  function CancelMeets(j: Job, m: Meets, w: Meets, a: Meets, b: Meets, c: Meets): seq<Meets> {
    [m] + (if Reconcile(j, m.sight).Replace? then [w] + ([a] + ([b] + [c])) else [a] + ([b] + [c]))
  }

  lemma CancelReconciled(s: Store, j: Job, m: Meets, w: Meets, a: Meets, b: Meets, c: Meets)
    requires m.sight.trouble == b.sight.trouble
    ensures Alone(s, Reconciling(j, true), CancelMeets(j, m, w, a, b, c)).jobs
         == CancelLeaves(s.jobs, j, m.sight, a.again, a.alive, w.fate, c.fate)
  {
    var check := [a] + ([b] + [c]);
    match Reconcile(j, m.sight)
    case Keep =>
      AloneStep(s, Reconciling(j, true), m, check);
      CheckedAlone(s, j, a, b, c);
      AloneOver(s, check);
    case Throw(_) =>
      AloneStep(s, Reconciling(j, true), m, check);
      AloneOver(s, check);
    case Replace(job) =>
      AloneStep(s, Reconciling(j, true), m, [w] + check);
      CancelWritten(s, j, job, m, w, a, b, c);
  }

  /** Alone, a cancellation does what its step function says. */
  lemma CancelledAlone(s: Store, projectId: Id, jobId: Id, look: Meets, m: Meets, w: Meets, a: Meets, b: Meets,
                       c: Meets)
    requires m.sight.trouble == b.sight.trouble && Owned(s.jobs, projectId, jobId, look.active, false).Success?
    ensures var j := Owned(s.jobs, projectId, jobId, look.active, false).value;
      Alone(s, Observing(projectId, jobId, false, true), [look] + CancelMeets(j, m, w, a, b, c)).jobs
        == CancelJob(s.jobs, projectId, jobId, look.active, m.sight, a.again, a.alive, w.fate, c.fate).0
  {
    var j := Owned(s.jobs, projectId, jobId, look.active, false).value;
    AloneStep(s, Observing(projectId, jobId, false, true), look, CancelMeets(j, m, w, a, b, c));
    CancelReconciled(s, j, m, w, a, b, c);
    CancelAs(s.jobs, projectId, jobId, look.active, m.sight, a.again, a.alive, w.fate, c.fate);
  }

  // ---- what overlap does break -----------------------------------------------------------

  lemma RunTwo(s: System, a: Event, b: Event)
    ensures Run(s, [a, b]) == Apply(Apply(s, a), b)
  {
    assert [a, b][1..] == [b] && [b][1..] == [];
    assert Run(s, [a, b]) == Run(Apply(s, a), [b]) == Run(Apply(Apply(s, a), b), []);
  }

  lemma StoringStep(s: Store, c: Call, m: Meets)
    requires c.Storing? && !c.after.CheckForCancel? && m.fate == Written
    ensures StepCall(s, c, m) == Stepped(Some(ReplaceWrite(c.copy, c.job, Written)), Over, false)
  {
  }

  /** The write of a decided job, by one of several calls. */
  lemma StoredByOne(s: Store, calls: seq<Call>, i: nat, m: Meets)
    requires i < |calls| && calls[i].Storing? && !calls[i].after.CheckForCancel? && m.fate == Written
    ensures Apply(System(s, calls), Resume(i, m))
      == System(Remember(s, ReplaceJob(s.jobs, calls[i].job), s.next), calls[i := Over])
  {
    StoringStep(s, calls[i], m);
  }

  lemma OnlyJobReplaced(j: Job, k: Job)
    requires j.jobId == k.jobId
    ensures ReplaceJob([j], k) == [k]
  {
  }

  /** A look that finds the job's claim and a successful result, and one that finds neither. */
  function SeenDone(j: Job): Sight {
    Sight(Some(ClaimOf(j)), false, Some(ResultFile(j.jobId, j.runnerIdentity, Succeeded, Some(0))), None, None,
          Trouble(false, false))
  }

  lemma DecidesBoth(j: Job)
    requires JobInv(j) && j.state == Running
    ensures Reconcile(j, SeenDone(j)) == Replace(j.(state := Succeeded, exitCode := Some(0)))
    ensures Reconcile(j, SEEN_NOTHING) == Replace(j.(state := Lost))
  {
  }

  /** Two reconciliations that read the same running job: one finds its result, the other no claim. The
      job is stored as succeeded, and then as lost. */
  lemma TerminalOverwritten(j: Job, s: Store, seen: Meets, unseen: Meets)
    requires JobInv(j) && j.state == Running && s.jobs == [j]
    requires seen.sight == SeenDone(j) && unseen.sight == SEEN_NOTHING && seen.fate == Written && unseen.fate == Written
    ensures var decided :=
      Run(System(s, [Reconciling(j, false), Reconciling(j, false)]), [Resume(0, seen), Resume(1, unseen)]);
      && Apply(decided, Resume(0, seen)).store.jobs == [j.(state := Succeeded, exitCode := Some(0))]
      && Run(decided, [Resume(0, seen), Resume(1, unseen)]).store.jobs == [j.(state := Lost)]
  {
    var read := System(s, [Reconciling(j, false), Reconciling(j, false)]);
    var succeeded, lost := j.(state := Succeeded, exitCode := Some(0)), j.(state := Lost);
    DecidesBoth(j);
    RunTwo(read, Resume(0, seen), Resume(1, unseen));
    var decided := System(s, [Storing(j, succeeded, Stop), Storing(j, lost, Stop)]);
    assert Run(read, [Resume(0, seen), Resume(1, unseen)]) == decided;
    RunTwo(decided, Resume(0, seen), Resume(1, unseen));
    StoredByOne(s, decided.calls, 0, seen);
    OnlyJobReplaced(j, succeeded);
    StoredByOne(Remember(s, [succeeded], s.next), [Over, Storing(j, lost, Stop)], 1, unseen);
    OnlyJobReplaced(succeeded, lost);
  }

  lemma DecidesLaunch(j: Job, l: Launch, trouble: Trouble)
    requires JobInv(j) && j.state == Queued && LaunchProven(j, l)
    ensures Reconcile(j, SEEN_NOTHING) == Replace(j.(state := Interrupted))
    ensures Launching(j, l, trouble) == Replace(Claimed(j, l.claim))
  {
  }

  lemma InterruptedThere(j: Job, s: Store, unseen: Meets)
    requires JobInv(j) && j.state == Queued && s.jobs == [j] && unseen.sight == SEEN_NOTHING && unseen.fate == Written
    ensures var interrupted := j.(state := Interrupted);
      Run(System(s, [LaunchingJob(j), Reconciling(j, false)]), [Resume(1, unseen), Resume(1, unseen)])
        == System(Remember(s, [interrupted], s.next), [LaunchingJob(j), Over])
  {
    var read, interrupted := System(s, [LaunchingJob(j), Reconciling(j, false)]), j.(state := Interrupted);
    RunTwo(read, Resume(1, unseen), Resume(1, unseen));
    var decided := [LaunchingJob(j), Storing(j, interrupted, Stop)];
    assert Apply(read, Resume(1, unseen)) == System(s, decided);
    StoredByOne(s, decided, 1, unseen);
    OnlyJobReplaced(j, interrupted);
    assert decided[1 := Over] == [LaunchingJob(j), Over];
  }

  /** While a launch waits for its runner, a repeated order finds no claim yet and stores the job as
      interrupted; the launch then finds its claim and stores the same job as running. */
  lemma InterruptionOverwritten(j: Job, s: Store, unseen: Meets, claimed: Meets)
    requires JobInv(j) && j.state == Queued && s.jobs == [j] && LaunchProven(j, claimed.launch)
    requires unseen.sight == SEEN_NOTHING && unseen.fate == Written && claimed.fate == Written
    ensures var both := System(s, [LaunchingJob(j), Reconciling(j, false)]);
      var interrupted := Run(both, [Resume(1, unseen), Resume(1, unseen)]);
      && interrupted.store.jobs == [j.(state := Interrupted)]
      && Run(interrupted, [Resume(0, claimed), Resume(0, claimed)]).store.jobs == [Claimed(j, claimed.launch.claim)]
  {
    var x, running := Remember(s, [j.(state := Interrupted)], s.next), Claimed(j, claimed.launch.claim);
    InterruptedThere(j, s, unseen);
    DecidesLaunch(j, claimed.launch, claimed.sight.trouble);
    RunTwo(System(x, [LaunchingJob(j), Over]), Resume(0, claimed), Resume(0, claimed));
    var decided := [Storing(j, running, LoseOnFailure(j)), Over];
    assert Apply(System(x, [LaunchingJob(j), Over]), Resume(0, claimed)) == System(x, decided);
    StoredByOne(x, decided, 0, claimed);
    OnlyJobReplaced(j.(state := Interrupted), running);
  }

  lemma FinalizesFirst(copy: Job, s: Store, calls: seq<Call>, finish: Meets)
    requires Review(copy) && DurableJobs.Terminal(copy.state) && !copy.finalized && s.jobs == [copy] && finish.active
    requires calls != [] && calls[0] == Finalizing(copy.projectId, copy.jobId)
    ensures Apply(System(s, calls), Resume(0, finish))
      == System(s, calls[0 := Storing(copy, copy.(finalized := true), Stop)])
  {
    assert Find([copy], copy.jobId) == Some(copy);
  }

  lemma FinalizedThere(copy: Job, s: Store, calls: seq<Call>, finish: Meets)
    requires Review(copy) && DurableJobs.Terminal(copy.state) && !copy.finalized && s.jobs == [copy]
    requires finish.active && finish.fate == Written && calls != []
    requires calls[0] == Finalizing(copy.projectId, copy.jobId)
    ensures var done := copy.(finalized := true);
      Run(System(s, calls), [Resume(0, finish), Resume(0, finish)])
        == System(Remember(s, [done], s.next), calls[0 := Over])
  {
    var done := copy.(finalized := true);
    RunTwo(System(s, calls), Resume(0, finish), Resume(0, finish));
    FinalizesFirst(copy, s, calls, finish);
    StoredByOne(s, calls[0 := Storing(copy, done, Stop)], 0, finish);
    OnlyJobReplaced(copy, done);
    assert calls[0 := Storing(copy, done, Stop)][0 := Over] == calls[0 := Over];
  }

  lemma LostThere(copy: Job, stored: Job, s: Store, unseen: Meets)
    requires JobInv(copy) && copy.state == Running && s.jobs == [stored] && stored.jobId == copy.jobId
    requires unseen.sight == SEEN_NOTHING && unseen.fate == Written
    ensures Run(System(s, [Over, Reconciling(copy, false)]), [Resume(1, unseen), Resume(1, unseen)]).store.jobs
      == [copy.(state := Lost)]
  {
    var lost := copy.(state := Lost);
    DecidesBoth(copy);
    RunTwo(System(s, [Over, Reconciling(copy, false)]), Resume(1, unseen), Resume(1, unseen));
    assert Apply(System(s, [Over, Reconciling(copy, false)]), Resume(1, unseen))
      == System(s, [Over, Storing(copy, lost, Stop)]);
    StoredByOne(s, [Over, Storing(copy, lost, Stop)], 1, unseen);
    OnlyJobReplaced(stored, lost);
  }

  /** A review is finalized while another call still holds a copy of it as running: the copy is stored as
      lost, and the review is no longer finalized. */
  lemma FinalizationUndone(copy: Job, s: Store, finish: Meets, unseen: Meets)
    requires JobInv(copy) && copy.state == Running && Review(copy) && s.jobs == [copy.(state := Succeeded)]
    requires finish.active && finish.fate == Written && unseen.fate == Written && unseen.sight == SEEN_NOTHING
    ensures var both := System(s, [Finalizing(copy.projectId, copy.jobId), Reconciling(copy, false)]);
      var finalized := Run(both, [Resume(0, finish), Resume(0, finish)]);
      && finalized.store.jobs == [copy.(state := Succeeded, finalized := true)]
      && Run(finalized, [Resume(1, unseen), Resume(1, unseen)]).store.jobs == [copy.(state := Lost)]
  {
    var calls := [Finalizing(copy.projectId, copy.jobId), Reconciling(copy, false)];
    var done := copy.(state := Succeeded, finalized := true);
    FinalizedThere(copy.(state := Succeeded), s, calls, finish);
    assert calls[0 := Over] == [Over, Reconciling(copy, false)];
    LostThere(copy, done, Remember(s, [done], s.next), unseen);
  }
}
