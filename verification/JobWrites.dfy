/** The job store under overlapping calls. Only a single append or replacement is serialized, so another
    call may run between any two of them, and a replacement may carry a copy that is long out of date. */
module JobWrites {
  import opened Storage
  import opened Wrappers
  import opened DurableJobs
  import opened JobSafety
  import JobRuns

  /** One serialized section of the store: `appendJob` of a new job, or `replaceJob`. The copy that a
      replacement was decided from is history, not something the store sees. */
  datatype Write =
    | AppendWrite(order: Order, runnerIdentity: Id, fate: Fate)
    | ReplaceWrite(copy: Job, job: Job, fate: Fate)

  /** `versions` is the history of every version of a job that was ever stored. */
  datatype Store = Store(jobs: seq<Job>, next: Id, versions: set<Job>)

  function Remember(s: Store, jobs: seq<Job>, next: Id): Store {
    Store(jobs, next, s.versions + (set j | j in jobs))
  }

  function StepWrite(s: Store, w: Write): Store {
    match w
    case AppendWrite(order, runnerIdentity, fate) =>
      var appended := Append(s.jobs, QueuedJob(s.next, runnerIdentity, order));
      Remember(s, if appended.Success? && Persists(fate) then appended.value else s.jobs, s.next + 1)
    case ReplaceWrite(copy, job, fate) =>
      Remember(s, if Persists(fate) then ReplaceJob(s.jobs, job) else s.jobs, s.next)
  }

  function RunWrites(s: Store, writes: seq<Write>): Store
    decreases |writes|
  {
    if writes == [] then s else RunWrites(StepWrite(s, writes[0]), writes[1..])
  }

  predicate Init(s: Store) {
    s.jobs == [] && s.versions == {}
  }

  // ---- which writes the calls make -------------------------------------------------------

  /** The job is some version that was ever stored, with the fields changed that calls change. */
  ghost predicate Known(s: Store, j: Job) {
    JobInv(j) && exists v :: v in s.versions && SameJob(v, j)
  }

  /** A replacement carries a job decided from any copy, however old. */
  ghost predicate Allowed(s: Store, w: Write) {
    w.ReplaceWrite? ==> Known(s, w.job)
  }

  ghost predicate AllAllowed(s: Store, writes: seq<Write>)
    decreases |writes|
  {
    writes != [] ==> Allowed(s, writes[0]) && AllAllowed(StepWrite(s, writes[0]), writes[1..])
  }

  // ---- the invariant ---------------------------------------------------------------------

  /** Some version of the job was finalized. */
  ghost predicate EverFinalized(s: Store, id: Id) {
    exists v :: v in s.versions && v.jobId == id && v.finalized
  }

  ghost predicate Stored(s: Store, v: Job) {
    exists j :: j in s.jobs && SameJob(v, j)
  }

  /** What is stored are versions of different jobs, within bounds. */
  predicate Listed(s: Store) {
    |s.jobs| <= MAX_DURABLE_JOBS && UniqueJobs(s.jobs) && forall j :: j in s.jobs ==> j in s.versions
  }

  /** All versions of a job agree on what it is. */
  ghost predicate Consistent(s: Store) {
    && (forall v :: v in s.versions ==> v.jobId < s.next && JobInv(v))
    && (forall v, u :: v in s.versions && u in s.versions && v.jobId == u.jobId ==> SameJob(v, u))
  }

  ghost predicate Accounted(s: Store, v: Job) {
    EverFinalized(s, v.jobId) || Stored(s, v)
  }

  /** A review that was ever stored was finalized at some time, or is still stored. */
  ghost predicate StoreKept(s: Store) {
    Listed(s) && Consistent(s) && forall v :: v in s.versions && Review(v) ==> Accounted(s, v)
  }

  // ---- every write keeps it --------------------------------------------------------------

  lemma RefusedKeeps(s: Store, next: Id)
    requires StoreKept(s) && s.next <= next
    ensures StoreKept(Remember(s, s.jobs, next))
  {
    var x := Remember(s, s.jobs, next);
    assert x.versions == s.versions;
    forall v | v in x.versions && Review(v) ensures Accounted(x, v) {
      assert Accounted(s, v);
    }
  }

  lemma ReplacedMembers(jobs: seq<Job>, job: Job)
    ensures forall k :: k in ReplaceJob(jobs, job) ==> k == job || k in jobs
    ensures forall j :: j in jobs ==> (if j.jobId == job.jobId then job else j) in ReplaceJob(jobs, job)
    ensures job in ReplaceJob(jobs, job) ==> exists j :: j in jobs && j.jobId == job.jobId
  {
    forall j | j in jobs ensures (if j.jobId == job.jobId then job else j) in ReplaceJob(jobs, job) {
      var i :| 0 <= i < |jobs| && jobs[i] == j;
      assert ReplaceJob(jobs, job)[i] in ReplaceJob(jobs, job);
    }
    if job in ReplaceJob(jobs, job) {
      var i :| 0 <= i < |jobs| && ReplaceJob(jobs, job)[i] == job;
      assert jobs[i] in jobs;
    }
  }

  lemma ReplaceLists(s: Store, job: Job)
    requires Listed(s)
    ensures Listed(Remember(s, ReplaceJob(s.jobs, job), s.next))
  {
    var jobs := ReplaceJob(s.jobs, job);
    forall i, k | 0 <= i < k < |jobs| ensures jobs[i].jobId != jobs[k].jobId {
      assert jobs[i].jobId == s.jobs[i].jobId && jobs[k].jobId == s.jobs[k].jobId;
    }
  }

  lemma OneMore(s: Store, known: Job, job: Job, versions: set<Job>)
    requires Consistent(s) && known in s.versions && SameJob(known, job) && JobInv(job)
    requires versions <= s.versions + {job}
    ensures Consistent(s.(versions := versions))
  {
  }

  lemma ReplaceKeeps(s: Store, job: Job)
    requires StoreKept(s) && Known(s, job)
    ensures StoreKept(Remember(s, ReplaceJob(s.jobs, job), s.next))
  {
    var x := Remember(s, ReplaceJob(s.jobs, job), s.next);
    var known :| known in s.versions && SameJob(known, job);
    ReplacedMembers(s.jobs, job);
    ReplaceLists(s, job);
    OneMore(s, known, job, x.versions);
    assert Consistent(x);
    forall v | v in x.versions && Review(v) ensures Accounted(x, v) {
      if v in s.versions {
        ReplacedStays(s, job, v);
      } else {
        ReplacedStays(s, job, known);
        SameAccount(x, known, v);
      }
    }
  }

  lemma SameAccount(s: Store, v: Job, u: Job)
    requires Accounted(s, v) && SameJob(v, u)
    ensures Accounted(s, u)
  {
    if Stored(s, v) {
      var j :| j in s.jobs && SameJob(v, j);
      assert SameJob(u, j);
    }
  }

  lemma ReplacedStays(s: Store, job: Job, v: Job)
    requires Accounted(s, v) && Known(s, job) && Consistent(s) && v in s.versions
    ensures Accounted(Remember(s, ReplaceJob(s.jobs, job), s.next), v)
  {
    var x := Remember(s, ReplaceJob(s.jobs, job), s.next);
    if Stored(s, v) {
      var j :| j in s.jobs && SameJob(v, j);
      ReplacedMembers(s.jobs, job);
      if j.jobId == job.jobId {
        ReplacementIs(s, job, v);
        assert job in x.jobs;
      } else {
        assert j in x.jobs;
      }
    } else {
      StillFinalized(s, x, v.jobId);
    }
  }

  lemma ReplacementIs(s: Store, job: Job, v: Job)
    requires Known(s, job) && Consistent(s) && v in s.versions && v.jobId == job.jobId
    ensures SameJob(v, job)
  {
    var known :| known in s.versions && SameJob(known, job);
    assert SameJob(v, known);
  }

  lemma StillFinalized(s: Store, x: Store, id: Id)
    requires EverFinalized(s, id) && s.versions <= x.versions
    ensures EverFinalized(x, id)
  {
    var v :| v in s.versions && v.jobId == id && v.finalized;
    assert v in x.versions;
  }

  /** An append evicts at most one job, and only one that needs nothing more. */
  lemma AppendedMembers(jobs: seq<Job>, queued: Job)
    requires UniqueJobs(jobs) && |jobs| <= MAX_DURABLE_JOBS && (forall j :: j in jobs ==> j.jobId != queued.jobId)
    requires Append(jobs, queued).Success?
    ensures var next := Append(jobs, queued).value;
      && |next| <= MAX_DURABLE_JOBS && UniqueJobs(next) && queued in next
         && (forall j :: j in next ==> j == queued || j in jobs)
      && (forall j :: j in jobs ==> j in next || Evictable(j))
  {
    var k := if |jobs| < MAX_DURABLE_JOBS then |jobs| else FirstEvictable(jobs);
    var kept := jobs[..k] + (if k < |jobs| then jobs[k + 1..] else []);
    KeptMembers(jobs, k, kept);
    KeptIds(jobs, k, kept);
    var next := Append(jobs, queued).value;
    assert next == kept + [queued];
    forall i, n | 0 <= i < n < |next| ensures next[i].jobId != next[n].jobId {
      assert next[i] in kept;
    }
  }

  lemma KeptIds(jobs: seq<Job>, k: nat, kept: seq<Job>)
    requires UniqueJobs(jobs) && k <= |jobs| && kept == jobs[..k] + (if k < |jobs| then jobs[k + 1..] else [])
    ensures UniqueJobs(kept)
  {
    forall i, n | 0 <= i < n < |kept| ensures kept[i].jobId != kept[n].jobId {
      assert kept[i] == jobs[if i < k then i else i + 1] && kept[n] == jobs[if n < k then n else n + 1];
    }
  }

  lemma OneNew(s: Store, queued: Job, versions: set<Job>)
    requires Consistent(s) && JobInv(queued) && queued.jobId == s.next && versions <= s.versions + {queued}
    ensures Consistent(Store(s.jobs, s.next + 1, versions))
  {
  }

  lemma AppendKeepsStore(s: Store, queued: Job)
    requires StoreKept(s) && JobInv(queued) && queued.jobId == s.next && Append(s.jobs, queued).Success?
    ensures StoreKept(Remember(s, Append(s.jobs, queued).value, s.next + 1))
  {
    var x := Remember(s, Append(s.jobs, queued).value, s.next + 1);
    AppendedMembers(s.jobs, queued);
    OneNew(s, queued, x.versions);
    assert Consistent(x);
    forall v | v in x.versions && Review(v) ensures Accounted(x, v) {
      if v == queued {
        assert queued in x.jobs && SameJob(v, queued);
      } else {
        EvictedWasFinalized(s, queued, v);
      }
    }
  }

  lemma EvictedWasFinalized(s: Store, queued: Job, v: Job)
    requires StoreKept(s) && queued.jobId == s.next && Append(s.jobs, queued).Success? && v in s.versions && Review(v)
    ensures Accounted(Remember(s, Append(s.jobs, queued).value, s.next + 1), v)
  {
    var x := Remember(s, Append(s.jobs, queued).value, s.next + 1);
    AppendedMembers(s.jobs, queued);
    if Stored(s, v) {
      var j :| j in s.jobs && SameJob(v, j);
      if j !in x.jobs {
        assert j in x.versions && Evictable(j) && Review(j);
      }
    } else {
      StillFinalized(s, x, v.jobId);
    }
  }

  lemma WriteKeeps(s: Store, w: Write)
    requires StoreKept(s) && Allowed(s, w)
    ensures StoreKept(StepWrite(s, w))
  {
    match w
    case AppendWrite(order, runnerIdentity, fate) =>
      var queued := QueuedJob(s.next, runnerIdentity, order);
      RefusedKeeps(s, s.next + 1);
      if Append(s.jobs, queued).Success? && Persists(fate) {
        AppendKeepsStore(s, queued);
      }
    case ReplaceWrite(copy, job, fate) =>
      RefusedKeeps(s, s.next);
      ReplaceKeeps(s, job);
  }

  lemma {:induction false} WritesKeep(s: Store, writes: seq<Write>)
    requires StoreKept(s) && AllAllowed(s, writes)
    ensures StoreKept(RunWrites(s, writes)) && s.versions <= RunWrites(s, writes).versions
    decreases |writes|
  {
    if writes != [] {
      WriteKeeps(s, writes[0]);
      WritesKeep(StepWrite(s, writes[0]), writes[1..]);
    }
  }

  // ---- results ---------------------------------------------------------------------------

  /** Eviction cannot defeat the completion guard, whatever stale copies are written back in between:
      when it lets a mission through, every review job ever stored for the mission was finalized. */
  lemma GuardMeansFinalized(s: Store, writes: seq<Write>, missionId: Id, review: Job)
    requires Init(s) && AllAllowed(s, writes) && GuardPasses(RunWrites(s, writes).jobs, missionId)
    requires review in RunWrites(s, writes).versions && Review(review) && review.missionId == Some(missionId)
    ensures exists v :: v in RunWrites(s, writes).versions && SameJob(review, v) && v.finalized && Terminal(v.state)
  {
    WritesKeep(s, writes);
    KeptMeansFinalized(RunWrites(s, writes), missionId, review);
  }

  lemma KeptMeansFinalized(s: Store, missionId: Id, review: Job)
    requires StoreKept(s) && GuardPasses(s.jobs, missionId) && review in s.versions && Review(review)
    requires review.missionId == Some(missionId)
    ensures exists v :: v in s.versions && SameJob(review, v) && v.finalized && Terminal(v.state)
  {
    if Stored(s, review) {
      var j :| j in s.jobs && SameJob(review, j);
      assert j.finalized && j in s.versions;
    }
    assert EverFinalized(s, review.jobId);
    var v :| v in s.versions && v.jobId == review.jobId && v.finalized;
    assert SameJob(review, v) && JobInv(v);
  }

  // ---- stale copies ----------------------------------------------------------------------

  /** A copy of a job that is not over may be reconciled and written back, whatever its files say, exactly
      when the store still holds that copy: otherwise some decision would undo what another call stored. */
  lemma StaleCopyIff(copy: Job, current: Job)
    requires JobInv(copy) && JobInv(current) && !Terminal(copy.state) && Advances(copy, current)
    ensures (forall s: Sight :: Reconcile(copy, s).Replace? ==> Advances(current, Reconcile(copy, s).job))
      <==> current == copy
  {
    if current == copy {
      forall s: Sight | Reconcile(copy, s).Replace? ensures Advances(current, Reconcile(copy, s).job) {
        ReconcileSound(copy, s);
        MovesAdvances(copy, Reconcile(copy, s).job);
      }
    } else {
      var s := Contrary(copy, current);
      assert Reconcile(copy, s).Replace? && !Advances(current, Reconcile(copy, s).job);
    }
  }

  /** A result file for a copy that says another end than the one stored. */
  function OtherEnd(copy: Job, current: Job): RunnerResult {
    ResultFile(copy.jobId, copy.runnerIdentity, if current.state == Cancelled then Succeeded else Cancelled, None)
  }

  function ClaimOf(j: Job): Claim {
    Claim(j.jobId, j.runnerIdentity, j.runnerPid, j.runnerPid, j.runnerMarker, j.pid, j.group, j.marker)
  }

  const SEEN_NOTHING := Sight(None, false, None, None, None, Trouble(false, false))

  /** Files under which a stale copy is decided against what is stored. */
  function Contrary(copy: Job, current: Job): Sight {
    if current.state == Running then SEEN_NOTHING
    else Sight(Some(ClaimOf(copy)), false, Some(OtherEnd(copy, current)), None, None, Trouble(false, false))
  }

  /** What a launch makes of its queued job, whatever it finds, may be written exactly when the store still
      holds the queued job. */
  lemma StaleLaunchIff(copy: Job, current: Job)
    requires JobInv(copy) && JobInv(current) && copy.state == Queued && Advances(copy, current)
    ensures (forall l: Launch, t: Trouble ::
               Launching(copy, l, t).Replace? ==> Advances(current, Launching(copy, l, t).job))
      <==> current == copy
  {
    if current == copy {
      forall l: Launch, t: Trouble | Launching(copy, l, t).Replace?
        ensures Advances(current, Launching(copy, l, t).job)
      {
        LaunchSound(copy, l, t);
        MovesAdvances(copy, Launching(copy, l, t).job);
      }
    } else {
      var l, t := Unclaimed(Some(OtherEnd(copy, current))), Trouble(false, false);
      assert Launching(copy, l, t).Replace? && !Advances(current, Launching(copy, l, t).job);
    }
  }

  /** The catch block of `start` and the check of `cancel` may mark their copy as lost exactly when the
      store still holds the copy, or has it marked already. */
  lemma StaleLossIff(copy: Job, current: Job, trouble: Trouble)
    requires JobInv(copy) && JobInv(current) && !Terminal(copy.state) && Advances(copy, current) && !trouble.losing
    ensures Advances(current, MarkLost(copy, trouble).job)
      <==> current == copy || current == MarkLost(copy, trouble).job
  {
  }

  /** A review that was read as over may be written as finalized exactly when what is stored leads to the
      copy, so once the stored job is over itself, when it is still the copy or is finalized already. */
  lemma StaleFinalizationIff(copy: Job, current: Job)
    requires JobInv(copy) && JobInv(current) && Terminal(copy.state) && Review(copy) && !copy.finalized
    ensures Advances(current, copy.(finalized := true))
      <==> Advances(current, copy) || current == copy.(finalized := true)
    ensures Terminal(current.state) ==> (Advances(current, copy) <==> current == copy)
  {
  }

  // ---- replacements that find their copy -------------------------------------------------

  /** The replacement is one move away from its copy, and still finds that copy stored. */
  predicate Fresh(s: Store, w: Write) {
    w.ReplaceWrite? && Persists(w.fate) ==> w.copy in s.jobs && JobInv(w.job) && Moves(w.copy, w.job)
  }

  predicate AllFresh(s: Store, writes: seq<Write>)
    decreases |writes|
  {
    writes != [] ==> Fresh(s, writes[0]) && AllFresh(StepWrite(s, writes[0]), writes[1..])
  }

  function WorldOf(s: Store): World {
    World(s.jobs, s.next)
  }

  lemma SameLater(s: Store, next: Id)
    requires Listed(s) && s.next <= next
    ensures JobRuns.Later(WorldOf(s), World(s.jobs, next))
  {
    forall k | k in s.jobs ensures AdvancesIn(s.jobs, k) {
      Found(s.jobs, k);
    }
  }

  lemma AppendedLater(s: Store, queued: Job)
    requires StoreKept(s) && queued.jobId == s.next && Append(s.jobs, queued).Success?
    ensures JobRuns.Later(WorldOf(s), World(Append(s.jobs, queued).value, s.next + 1))
  {
    AppendedMembers(s.jobs, queued);
    SameLater(s, s.next);
  }

  lemma ReplacedLater(s: Store, copy: Job, job: Job)
    requires StoreKept(s) && copy in s.jobs && JobInv(job) && Moves(copy, job)
    ensures Known(s, job) && JobRuns.Later(WorldOf(s), World(ReplaceJob(s.jobs, job), s.next))
  {
    ReplacedMembers(s.jobs, job);
    SameLater(s, s.next);
    Found(s.jobs, copy);
    MovesAdvances(copy, job);
  }

  /** A write that is fresh moves the stored jobs along. */
  lemma FreshStep(s: Store, w: Write)
    requires StoreKept(s) && Fresh(s, w)
    ensures StoreKept(StepWrite(s, w)) && JobRuns.Later(WorldOf(s), WorldOf(StepWrite(s, w)))
  {
    match w
    case AppendWrite(order, runnerIdentity, fate) =>
      var queued := QueuedJob(s.next, runnerIdentity, order);
      WriteKeeps(s, w);
      SameLater(s, s.next + 1);
      if Append(s.jobs, queued).Success? {
        AppendedLater(s, queued);
      }
    case ReplaceWrite(copy, job, fate) =>
      RefusedKeeps(s, s.next);
      SameLater(s, s.next);
      if Persists(fate) {
        ReplacedLater(s, copy, job);
        ReplaceKeeps(s, job);
      }
  }

  lemma {:induction false} FreshRuns(s: Store, writes: seq<Write>)
    requires StoreKept(s) && AllFresh(s, writes)
    ensures StoreKept(RunWrites(s, writes)) && JobRuns.Later(WorldOf(s), WorldOf(RunWrites(s, writes)))
    decreases |writes|
  {
    if writes == [] {
      SameLater(s, s.next);
    } else {
      var x := StepWrite(s, writes[0]);
      FreshStep(s, writes[0]);
      FreshRuns(x, writes[1..]);
      JobRuns.LaterTrans(WorldOf(s), WorldOf(x), WorldOf(RunWrites(s, writes)));
    }
  }

  lemma LaterAdvances(s: Store, x: Store, j: Job, k: Job)
    requires StoreKept(s) && JobRuns.Later(WorldOf(s), WorldOf(x)) && j in s.jobs && k in x.jobs && k.jobId == j.jobId
    ensures Advances(j, k)
  {
    Found(s.jobs, j);
    assert s.next <= k.jobId || AdvancesIn(s.jobs, k);
  }

  /** As long as every replacement finds stored the copy it was decided from, states only advance, whatever
      was written back before. */
  lemma FreshWritesAdvance(s: Store, before: seq<Write>, after: seq<Write>, j: Job, k: Job)
    requires Init(s) && AllAllowed(s, before) && AllFresh(RunWrites(s, before), after)
    requires j in RunWrites(s, before).jobs && k in RunWrites(RunWrites(s, before), after).jobs && k.jobId == j.jobId
    ensures Advances(j, k)
  {
    WritesKeep(s, before);
    FreshRuns(RunWrites(s, before), after);
    LaterAdvances(RunWrites(s, before), RunWrites(RunWrites(s, before), after), j, k);
  }
}
