/** Room for missions: what `ensureMission` stores, what leaves a full document, what is archived, and when
    an archive file blocks a mission for good. */
module MissionArchive {
  import opened Storage
  import opened Wrappers
  import opened MissionLifecycle
  import opened MissionRecord
  import opened MissionWorld
  import opened MissionHistory
  import opened MissionRuns

  // ---- ensureMission and capacity --------------------------------------------------------

  lemma AbsentFromFewer(records: seq<Record>, fewer: seq<Record>, m: Id)
    requires IndexOf(records, m) == |records| && forall r :: r in fewer ==> r in records
    ensures IndexOf(fewer, m) == |fewer|
  {
    forall k | 0 <= k < |fewer| ensures fewer[k].missionId != m {
      assert fewer[k] in records;
    }
  }

  lemma StillAbsent(w: World, m: Id, archiving: ArchiveFate, fate: Fate)
    requires IndexOf(w.records, m) == |w.records|
    ensures var x := Reclaim(w, archiving, fate).world; IndexOf(x.records, m) == |x.records|
  {
    AbsentFromFewer(w.records, Reclaim(w, archiving, fate).world.records, m);
  }

  lemma ReclaimReturnsNothing(w: World, archiving: ArchiveFate, fate: Fate)
    ensures var stop := Reclaim(w, archiving, fate).stop; stop.Some? ==> !stop.value.Returned?
  {
  }

  /** A record that `ensureMission` returned was there, or is the new one that it appended. */
  lemma EnsureReturned(w: World, m: Id, goal: Option<string>, env: Env, archiving: ArchiveFate)
    requires Ensure(w, m, goal, env, archiving).1.Returned?
    ensures var k := IndexOf(w.records, m);
      k < |w.records| ==>
        Ensure(w, m, goal, env, archiving) == (w, Returned(w.records[k]))
          && (goal.Some? ==> goal.value == w.records[k].goal)
    ensures IndexOf(w.records, m) == |w.records| ==>
      var mission, y := MissionOf(w, m, env.mission), Reclaim(w, archiving, env.first).world;
      && mission.Some? && !mission.value.terminal && mission.value.projectId.Some?
      && var r := NewRecord(m, mission.value.projectId.value, if goal.Some? then goal.value else mission.value.title);
         Ensure(w, m, goal, env, archiving) == Append(w, r, env.second)
           || Ensure(w, m, goal, env, archiving) == Append(y, r, env.second)
  {
    ReclaimReturnsNothing(w, archiving, env.first);
  }

  lemma AppendedIsLast(w: World, r: Record, fate: Fate)
    requires IndexOf(w.records, r.missionId) == |w.records| && Append(w, r, fate).1.Returned?
    ensures var (x, outcome) := Append(w, r, fate);
      outcome == Returned(r) && IndexOf(x.records, r.missionId) < |x.records|
        && x.records[IndexOf(x.records, r.missionId)] == r
  {
    IndexAppend(w.records, r, r.missionId);
  }

  /** What `ensureMission` returns is stored under that mission, with the goal that was asked for; a new
      record is a created one at revision one, with the title of the mission when no goal was given. */
  lemma EnsuredIsStored(w: World, m: Id, goal: Option<string>, env: Env, archiving: ArchiveFate)
    ensures var (x, outcome) := Ensure(w, m, goal, env, archiving);
      outcome.Returned? ==>
        && IndexOf(x.records, m) < |x.records| && x.records[IndexOf(x.records, m)] == outcome.record
        && (goal.Some? ==> outcome.record.goal == goal.value)
        && (IndexOf(w.records, m) == |w.records| ==>
              && MissionOf(w, m, env.mission).Some? && !MissionOf(w, m, env.mission).value.terminal
              && outcome.record.state == Created && outcome.record.revision == 1 && outcome.record.operations == []
              && MissionOf(w, m, env.mission).value.projectId == Some(outcome.record.projectId)
              && (goal.None? ==> outcome.record.goal == MissionOf(w, m, env.mission).value.title))
  {
    if Ensure(w, m, goal, env, archiving).1.Returned? {
      EnsureReturned(w, m, goal, env, archiving);
      if IndexOf(w.records, m) == |w.records| {
        var mission, y := MissionOf(w, m, env.mission).value, Reclaim(w, archiving, env.first).world;
        var r := NewRecord(m, mission.projectId.value, if goal.Some? then goal.value else mission.title);
        StillAbsent(w, m, archiving, env.first);
        if Ensure(w, m, goal, env, archiving) == Append(w, r, env.second) {
          AppendedIsLast(w, r, env.second);
        } else {
          AppendedIsLast(y, r, env.second);
        }
      }
    }
  }

  lemma {:induction false} WithoutNone(records: seq<Record>, id: Id)
    requires forall r :: r in records ==> r.missionId != id
    ensures Without(records, id) == records
    decreases |records|
  {
    if records != [] {
      var front, last := records[..|records| - 1], records[|records| - 1];
      assert records == front + [last];
      assert last in records && last.missionId != id;
      WithoutNone(front, id);
      assert Without(records, id) == Without(front, id) + [last];
    }
  }

  lemma {:induction false} WithoutOne(records: seq<Record>, k: nat)
    requires UniqueMissions(records) && k < |records|
    ensures |Without(records, records[k].missionId)| == |records| - 1
    decreases |records|
  {
    var n, id := |records| - 1, records[k].missionId;
    var front := records[..n];
    assert Without(records, id) == Without(front, id) + (if k == n then [] else [records[n]]);
    if k < n {
      assert front[k] == records[k];
      WithoutOne(front, k);
    } else {
      WithoutNone(front, id);
    }
  }

  /** The archive can take the record: its file is not there, or holds exactly this record. */
  predicate Archivable(w: World, r: Record) {
    r.missionId in w.archive ==> w.archive[r.missionId] == Stored(r)
  }

  /** Publishing the record succeeds: the very file is there, or none is and it is written. */
  predicate Publishes(w: World, r: Record, archiving: ArchiveFate) {
    Archivable(w, r) && (r.missionId !in w.archive ==> archiving == Published)
  }

  lemma ReclaimIff(w: World, k: nat, archiving: ArchiveFate, fate: Fate)
    requires (forall r :: r in w.records ==> Valid(r)) && Oldest(w.records, w.retired) == Some(k)
    ensures var x := Reclaim(w, archiving, fate);
      if Publishes(w, w.records[k], archiving) && fate == Written
      then x.stop.None? && x.world.records == Without(w.records, w.records[k].missionId)
      else x.stop.Some? && !x.stop.value.Returned?
  {
  }

  lemma EnsureNew(w: World, m: Id, goal: Option<string>, env: Env, archiving: ArchiveFate)
    requires IndexOf(w.records, m) == |w.records| == MAX_RECORDS && MissionOf(w, m, env.mission).Some? && env.registered
    requires !MissionOf(w, m, env.mission).value.terminal && MissionOf(w, m, env.mission).value.projectId.Some?
    ensures var x, y := Ensure(w, m, goal, env, archiving), Reclaim(w, archiving, env.first);
      if y.stop.Some? then x == (y.world, y.stop.value)
      else if |y.world.records| >= MAX_RECORDS then x == (y.world, Threw(CapabilityDenied))
      else x.1.Returned? <==> env.second == Written
  {
  }

  /** In a full store a new mission gets its record exactly when some record is reclaimable, the archive
      takes the oldest such, and both rewrites of the document go through; nothing else makes room. */
  lemma FullStoreIff(w: World, m: Id, goal: Option<string>, env: Env, archiving: ArchiveFate)
    requires WorldInv(w) && |w.records| == MAX_RECORDS && (forall r :: r in w.records ==> Valid(r))
    requires IndexOf(w.records, m) == |w.records| && MissionOf(w, m, env.mission).Some? && env.registered
    requires !MissionOf(w, m, env.mission).value.terminal && MissionOf(w, m, env.mission).value.projectId.Some?
    ensures var oldest := Oldest(w.records, w.retired);
      Ensure(w, m, goal, env, archiving).1.Returned? <==>
        oldest.Some? && Publishes(w, w.records[oldest.value], archiving) && env.first == Written
          && env.second == Written
    ensures (forall r :: r in w.records ==> !Reclaimable(r, w.retired)) ==>
      Ensure(w, m, goal, env, archiving) == (w, Threw(CapabilityDenied))
  {
    var oldest := Oldest(w.records, w.retired);
    EnsureNew(w, m, goal, env, archiving);
    if oldest.Some? {
      assert w.records[oldest.value] in w.records;
      ReclaimIff(w, oldest.value, archiving, env.first);
      WithoutOne(w.records, oldest.value);
    } else {
      assert Reclaim(w, archiving, env.first) == Reclaimed(w, None);
    }
  }

  // ---- what is archived ------------------------------------------------------------------

  /** Nothing is under way, and no worker could still be resumed: the mission never started, or ended. */
  predicate Quiet(r: Record) {
    && (forall o :: o in r.operations ==> o.status != Pending)
    && (r.state == Created || r.state == Ready || Terminal(r))
    && (r.binding.Some? ==> Terminal(r) && !r.binding.value.resumable)
  }

  lemma QuietIffEligible(r: Record)
    ensures ArchiveEligible(r) <==> Quiet(r)
  {
  }

  ghost predicate QuietArchive(archive: map<Id, ArchiveFile>) {
    forall m :: m in archive && archive[m].Stored? ==> Quiet(archive[m].lifecycle)
  }

  lemma PublishQuiet(archive: map<Id, ArchiveFile>, r: Record, fate: ArchiveFate)
    requires QuietArchive(archive) && Quiet(r)
    ensures QuietArchive(Publish(archive, r, fate).0)
  {
  }

  lemma ReclaimQuiet(w: World, archiving: ArchiveFate, fate: Fate)
    requires QuietArchive(w.archive)
    ensures QuietArchive(Reclaim(w, archiving, fate).world.archive)
  {
    var k := Oldest(w.records, w.retired);
    if k.Some? {
      QuietIffEligible(w.records[k.value]);
      PublishQuiet(w.archive, w.records[k.value], archiving);
    }
  }

  lemma StepQuiet(w: World, e: Event)
    requires QuietArchive(w.archive)
    ensures QuietArchive(Apply(w, e).archive)
  {
    if e.EnsureMission? {
      ReclaimQuiet(w, e.archiving, e.env.first);
      EnsureArchive(w, e.missionId, e.goal, e.env, e.archiving);
    }
  }

  lemma EnsureArchive(w: World, m: Id, goal: Option<string>, env: Env, archiving: ArchiveFate)
    ensures var x := Ensure(w, m, goal, env, archiving).0;
      x.archive == w.archive || x.archive == Reclaim(w, archiving, env.first).world.archive
  {
  }

  /** Over every run only quiet missions are ever archived. */
  lemma {:induction false} OnlyQuietIsArchived(w: World, events: seq<Event>)
    requires QuietArchive(w.archive)
    ensures QuietArchive(Run(w, events).archive)
    decreases |events|
  {
    if events != [] {
      StepQuiet(w, events[0]);
      OnlyQuietIsArchived(Apply(w, events[0]), events[1..]);
    }
  }

  /** Among the reclaimable records the chosen one was updated first, and has the least id of those. */
  lemma OldestIsFirst(records: seq<Record>, retired: map<Id, RetiredMission>, k: nat, r: Record)
    requires Oldest(records, retired) == Some(k) && r in records && Reclaimable(r, retired)
    ensures var first, other := retired[records[k].missionId].updatedAt, retired[r.missionId].updatedAt;
      first < other || (first == other && records[k].missionId <= r.missionId)
  {
  }

  // ---- how records come and go -----------------------------------------------------------

  predicate Live(w: World, m: Id) {
    IndexOf(w.records, m) < |w.records|
  }

  function LiveRecord(w: World, m: Id): Record
    requires Live(w, m)
  {
    w.records[IndexOf(w.records, m)]
  }

  /** What a reclaim does to the document and the archive: nothing; only the archive file of one retired
      record; or both, the file then holding exactly the record that leaves. */
  predicate Reclaims(w: World, x: World, k: Option<nat>, archiving: ArchiveFate) {
    || (x.records == w.records && x.archive == w.archive)
    || (k.Some? && k.value < |w.records|
        && x.archive == Publish(w.archive, w.records[k.value], archiving).0
        && (x.records == w.records
            || (x.records == Without(w.records, w.records[k.value].missionId)
                && Publish(w.archive, w.records[k.value], archiving).1.None?)))
  }

  lemma ReclaimReclaims(w: World, archiving: ArchiveFate, fate: Fate)
    ensures Reclaims(w, Reclaim(w, archiving, fate).world, Oldest(w.records, w.retired), archiving)
  {
    if Oldest(w.records, w.retired).Some? {
      ReclaimShape(w, Oldest(w.records, w.retired).value, archiving, fate);
    }
  }

  predicate Adds(before: seq<Record>, m: Id, after: seq<Record>) {
    |after| == |before| + 1 && after[..|before|] == before && after[|before|].missionId == m
  }

  /** `y` is the store after the reclaim, `x` after the new record was added, if it was. */
  predicate EnsuresBy(w: World, y: World, x: World, m: Id, archiving: ArchiveFate) {
    && Reclaims(w, y, Oldest(w.records, w.retired), archiving) && x.archive == y.archive && x.retired == w.retired
    && (y.records != w.records ==> |w.records| >= MAX_RECORDS)
    && (x.records == y.records || (!Live(w, m) && Ledger(w, m).None? && Adds(y.records, m, x.records)))
  }

  lemma EnsureWithRoom(w: World, m: Id, goal: Option<string>, env: Env, archiving: ArchiveFate)
    requires |w.records| < MAX_RECORDS
    ensures var x, mission := Ensure(w, m, goal, env, archiving).0, MissionOf(w, m, env.mission);
      && x.archive == w.archive
      && (x.records == w.records
          || (!Live(w, m) && mission.Some? && !mission.value.terminal && Adds(w.records, m, x.records)))
  {
  }

  lemma RetiredStays(w: World, m: Id, goal: Option<string>, env: Env, archiving: ArchiveFate)
    ensures Ensure(w, m, goal, env, archiving).0.retired == w.retired
    ensures Reclaim(w, archiving, env.first).world.retired == w.retired
  {
  }

  lemma AppendIs(w: World, r: Record, fate: Fate)
    ensures var x := Append(w, r, fate).0; x == w || x == w.(records := w.records + [r])
  {
  }

  lemma EnsureEnsures(w: World, m: Id, goal: Option<string>, env: Env, archiving: ArchiveFate) returns (y: World)
    requires WorldInv(w)
    ensures EnsuresBy(w, y, Ensure(w, m, goal, env, archiving).0, m, archiving)
  {
    var x, mission := Ensure(w, m, goal, env, archiving).0, MissionOf(w, m, env.mission);
    RetiredStays(w, m, goal, env, archiving);
    if !Live(w, m) && mission.Some? && !mission.value.terminal {
      EnsuredIsNew(w, m, env.mission);
    }
    if |w.records| < MAX_RECORDS {
      EnsureWithRoom(w, m, goal, env, archiving);
      return w;
    }
    EnsureShape(w, m, goal, env, archiving);
    if x == w {
      return w;
    }
    y := Reclaim(w, archiving, env.first).world;
    ReclaimReclaims(w, archiving, env.first);
    if x != y {
      AppendIs(y, NewRecord(m, mission.value.projectId.value, if goal.Some? then goal.value else mission.value.title),
               env.second);
    }
  }

  lemma AddedOnly(before: seq<Record>, m: Id, after: seq<Record>, n: Id)
    requires Adds(before, m, after)
    ensures IndexOf(after, n) < |after| <==> IndexOf(before, n) < |before| || n == m
  {
    var next := before + [after[|before|]];
    assert after == next;
    IndexAppend(before, after[|before|], n);
    assert IndexOf(next, n) < |next| <==> IndexOf(before, n) < |before| || n == m;
  }

  lemma LiveIff(records: seq<Record>, m: Id)
    ensures IndexOf(records, m) < |records| <==> exists r :: r in records && r.missionId == m
  {
    if r :| r in records && r.missionId == m {
      var j :| 0 <= j < |records| && records[j] == r;
    } else {
      assert forall j :: 0 <= j < |records| ==> records[j] in records;
    }
  }

  lemma RemovedOnly(records: seq<Record>, id: Id, m: Id)
    ensures IndexOf(Without(records, id), m) < |Without(records, id)| <==> IndexOf(records, m) < |records| && m != id
  {
    LiveIff(records, m);
    LiveIff(Without(records, id), m);
  }

  /** A record leaves the document only to make room in a full one, archived exactly as it is, and as the
      one whose retired mission was updated before all others that could be reclaimed; the rest stays. */
  lemma OnlyOldestLeaves(w: World, e: Event, m: Id)
    requires WorldInv(w) && Live(w, m) && !Live(Apply(w, e), m)
    ensures e.EnsureMission? && |w.records| == MAX_RECORDS
    ensures var r, x := LiveRecord(w, m), Apply(w, e);
      && Reclaimable(r, w.retired) && m in x.archive && x.archive[m] == Stored(r)
      && (forall s :: s in w.records && Reclaimable(s, w.retired) ==>
            var first, other := w.retired[m].updatedAt, w.retired[s.missionId].updatedAt;
              first < other || (first == other && m <= s.missionId))
      && (forall s :: s in w.records && s.missionId != m ==> s in x.records)
  {
    var x := Apply(w, e);
    if !e.EnsureMission? {
      StaysUnless(w, e, m);
    }
    var y := EnsureEnsures(w, e.missionId, e.goal, e.env, e.archiving);
    if x.records != y.records {
      AddedOnly(y.records, e.missionId, x.records, m);
    }
    var k := Oldest(w.records, w.retired).value;
    RemovedOnly(w.records, w.records[k].missionId, m);
    UniqueIndex(w.records, w.records[k]);
    PublishStep(w, k, e.archiving);
    forall s | s in w.records && Reclaimable(s, w.retired)
      ensures var first, other := w.retired[m].updatedAt, w.retired[s.missionId].updatedAt;
        first < other || (first == other && m <= s.missionId)
    {
      OldestIsFirst(w.records, w.retired, k, s);
    }
  }

  lemma RecoverKeepsIds(w: World, looks: seq<Look>, m: Id)
    requires WorldInv(w)
    ensures IndexOf(RecoverFrom(w.records, w.records, 0, looks).0, m) == IndexOf(w.records, m)
    ensures |RecoverFrom(w.records, w.records, 0, looks).0| == |w.records|
  {
    AlignedSelf(w.records);
    RecoverAligned(w.records, w.records, w.records, 0, looks);
    SameIds(w.records, RecoverFrom(w.records, w.records, 0, looks).0, m);
  }

  lemma CallKeepsIds(w: World, q: Request, env: Env, m: Id)
    requires WorldInv(w)
    ensures IndexOf(ServeCall(w, q, env).0.records, m) == IndexOf(w.records, m)
    ensures |ServeCall(w, q, env).0.records| == |w.records|
  {
    var k := IndexOf(w.records, q.missionId);
    if k < |w.records| {
      ServeFacts(w.records[k], q, env);
      SameIds(w.records, ServeCall(w, q, env).0.records, m);
    }
  }

  /** Which missions are live changes only by `ensureMission`. */
  lemma StaysUnless(w: World, e: Event, m: Id)
    requires WorldInv(w) && !e.EnsureMission?
    ensures (Live(Apply(w, e), m) <==> Live(w, m)) && Apply(w, e).archive == w.archive
  {
    match e
    case Call(q, env) => CallKeepsIds(w, q, env, m);
    case Recover(looks) => RecoverKeepsIds(w, looks, m);
    case Retire(_, _) =>
  }

  /** Making room changes no mission's record: it is live or archived as it was. */
  lemma EnsureKeepsLedger(w: World, e: Event, m: Id)
    requires WorldInv(w) && e.EnsureMission? && Ledger(w, m).Some?
    ensures Ledger(Apply(w, e), m) == Ledger(w, m)
  {
    var x := Apply(w, e);
    Step(w, e);
    if !Live(w, m) {
      if Live(x, m) {
        BecomesLive(w, e, m);
      }
    } else if Live(x, m) {
      var y := EnsureEnsures(w, e.missionId, e.goal, e.env, e.archiving);
      LiveId(x, m);
      OldIsThere(w, y, x, e.missionId, e.archiving, LiveRecord(x, m));
      UniqueIndex(w.records, LiveRecord(x, m));
    } else {
      OnlyOldestLeaves(w, e, m);
    }
  }

  /** A record of a mission that was live is one of those that were there. */
  lemma OldIsThere(w: World, y: World, x: World, n: Id, archiving: ArchiveFate, r: Record)
    requires EnsuresBy(w, y, x, n, archiving) && r in x.records && Live(w, r.missionId)
    ensures r in w.records
  {
    assert r in y.records ==> r in w.records;
    if x.records != y.records {
      assert x.records == y.records + [x.records[|y.records|]];
    }
  }

  // ---- an archive file that no longer fits -----------------------------------------------

  /** A live record evolved from what was archived of it. */
  predicate PastOf(w: World, m: Id) {
    Live(w, m) && m in w.archive && w.archive[m].Stored? ==> Evolves(w.archive[m].lifecycle, LiveRecord(w, m))
  }

  ghost predicate Past(w: World) {
    forall m :: PastOf(w, m)
  }

  lemma PublishOnlyThat(archive: map<Id, ArchiveFile>, r: Record, fate: ArchiveFate, m: Id)
    requires m !in archive && m in Publish(archive, r, fate).0
    ensures m == r.missionId && (Publish(archive, r, fate).0[m].Stored? ==> Publish(archive, r, fate).0[m] == Stored(r))
  {
  }

  /** A new archive file holds the record that was live. */
  lemma NewlyArchived(w: World, e: Event, m: Id)
    requires WorldInv(w) && m !in w.archive && m in Apply(w, e).archive
    ensures Live(w, m) && (Apply(w, e).archive[m].Stored? ==> Apply(w, e).archive[m] == Stored(LiveRecord(w, m)))
  {
    if !e.EnsureMission? {
      StaysUnless(w, e, m);
    }
    var y := EnsureEnsures(w, e.missionId, e.goal, e.env, e.archiving);
    var k := Oldest(w.records, w.retired).value;
    PublishOnlyThat(w.archive, w.records[k], e.archiving, m);
    UniqueIndex(w.records, w.records[k]);
  }

  lemma ReclaimsFewer(w: World, y: World, k: Option<nat>, archiving: ArchiveFate, m: Id)
    requires Reclaims(w, y, k, archiving) && !Live(w, m)
    ensures !Live(y, m)
  {
    if y.records != w.records {
      RemovedOnly(w.records, w.records[k.value].missionId, m);
    }
  }

  /** A mission that becomes live had no record anywhere. */
  lemma BecomesLive(w: World, e: Event, m: Id)
    requires WorldInv(w) && !Live(w, m) && Live(Apply(w, e), m)
    ensures Ledger(w, m).None?
  {
    if !e.EnsureMission? {
      StaysUnless(w, e, m);
    }
    var y := EnsureEnsures(w, e.missionId, e.goal, e.env, e.archiving);
    ReclaimsFewer(w, y, Oldest(w.records, w.retired), e.archiving, m);
    if Apply(w, e).records != y.records {
      AddedOnly(y.records, e.missionId, Apply(w, e).records, m);
    }
  }

  lemma LiveGrows(w: World, x: World, m: Id)
    requires LedgerGrows(w, x) && Live(w, m) && Live(x, m)
    ensures Evolves(LiveRecord(w, m), LiveRecord(x, m))
  {
    assert Ledger(w, m).Some?;
  }

  lemma PastAfter(w: World, x: World, m: Id)
    requires Grows(w, x) && PastOf(w, m) && (Live(x, m) && !Live(w, m) ==> Ledger(w, m).None?)
    requires m !in w.archive && m in x.archive ==>
      Live(w, m) && (x.archive[m].Stored? ==> x.archive[m] == Stored(LiveRecord(w, m)))
    ensures PastOf(x, m)
  {
    if Live(x, m) && m in x.archive && x.archive[m].Stored? {
      LiveGrows(w, x, m);
      EvolvesTrans(x.archive[m].lifecycle, LiveRecord(w, m), LiveRecord(x, m));
    }
  }

  lemma PastStep(w: World, e: Event)
    requires WorldInv(w) && Past(w)
    ensures Past(Apply(w, e))
  {
    var x := Apply(w, e);
    Step(w, e);
    forall m ensures PastOf(x, m) {
      assert PastOf(w, m);
      if m !in w.archive && m in x.archive {
        NewlyArchived(w, e, m);
      }
      if !Live(w, m) && Live(x, m) {
        BecomesLive(w, e, m);
      }
      PastAfter(w, x, m);
    }
  }

  /** The archive cannot take the live record of this mission. */
  predicate Blocked(w: World, m: Id) {
    Live(w, m) && !Archivable(w, LiveRecord(w, m))
  }

  lemma LiveId(w: World, m: Id)
    requires Live(w, m)
    ensures LiveRecord(w, m).missionId == m && LiveRecord(w, m) in w.records
  {
  }

  lemma BlockedAfter(w: World, x: World, m: Id)
    requires Grows(w, x) && PastOf(w, m) && Blocked(w, m) && Live(x, m)
    ensures Blocked(x, m)
  {
    LiveId(w, m);
    LiveId(x, m);
    LiveGrows(w, x, m);
  }

  lemma BlockedStep(w: World, e: Event, m: Id)
    requires WorldInv(w) && Past(w) && Blocked(w, m)
    ensures Blocked(Apply(w, e), m)
  {
    var x := Apply(w, e);
    LiveId(w, m);
    Step(w, e);
    assert PastOf(w, m);
    if Live(x, m) {
      BlockedAfter(w, x, m);
    } else {
      OnlyOldestLeaves(w, e, m);
    }
  }

  lemma {:induction false} PastAlways(w: World, events: seq<Event>)
    requires WorldInv(w) && Past(w)
    ensures Past(Run(w, events))
    decreases |events|
  {
    if events != [] {
      PastStep(w, events[0]);
      Step(w, events[0]);
      PastAlways(Apply(w, events[0]), events[1..]);
    }
  }

  /** In every reachable store a live mission is blocked exactly when its archive file is there but torn,
      or when the record was changed after it was written into that file. */
  lemma BlockedIff(w: World, events: seq<Event>, m: Id)
    requires Init(w) && Live(Run(w, events), m)
    ensures var x := Run(w, events);
      Blocked(x, m) <==>
        m in x.archive && (x.archive[m].Torn? || x.archive[m].lifecycle.revision < LiveRecord(x, m).revision)
  {
    Reachable(w, []);
    PastAlways(w, events);
    LiveId(Run(w, events), m);
    assert PastOf(Run(w, events), m);
  }

  /** Once blocked, a mission stays in the live document for good, and blocked. */
  lemma {:induction false} BlockedForever(w: World, events: seq<Event>, m: Id)
    requires WorldInv(w) && Past(w) && Blocked(w, m)
    ensures Blocked(Run(w, events), m)
    decreases |events|
  {
    if events != [] {
      BlockedStep(w, events[0], m);
      PastStep(w, events[0]);
      Step(w, events[0]);
      BlockedForever(Apply(w, events[0]), events[1..], m);
    }
  }

  // ---- how a mission becomes blocked -----------------------------------------------------

  /** A new mission asks for room in a full document. */
  predicate AsksForRoom(w: World, n: Id, env: Env) {
    && |w.records| == MAX_RECORDS && (forall r :: r in w.records ==> Valid(r)) && !Live(w, n)
    && MissionOf(w, n, env.mission).Some? && !MissionOf(w, n, env.mission).value.terminal
    && MissionOf(w, n, env.mission).value.projectId.Some? && env.registered
  }

  predicate IsOldest(w: World, m: Id) {
    Oldest(w.records, w.retired).Some? && w.records[Oldest(w.records, w.retired).value].missionId == m
  }

  lemma OldestIsLive(w: World, m: Id)
    requires WorldInv(w) && IsOldest(w, m)
    ensures Live(w, m) && LiveRecord(w, m) == w.records[Oldest(w.records, w.retired).value]
  {
    UniqueIndex(w.records, w.records[Oldest(w.records, w.retired).value]);
  }

  /** A publication that does not go through, or a rewrite that is not made after it, ends the call there. */
  lemma StopsThere(w: World, n: Id, goal: Option<string>, env: Env, archiving: ArchiveFate, m: Id)
    requires AsksForRoom(w, n, env) && IsOldest(w, m)
    ensures var r := w.records[Oldest(w.records, w.retired).value];
      var (archive, stop) := Publish(w.archive, r, archiving);
      stop.Some? || env.first == Refused || env.first == CrashBefore ==>
        Ensure(w, n, goal, env, archiving).0 == w.(archive := archive)
  {
  }

  lemma TornOnlyThen(archive: map<Id, ArchiveFile>, r: Record, archiving: ArchiveFate)
    requires r.missionId !in archive
    ensures var after := Publish(archive, r, archiving).0;
      r.missionId in after && after[r.missionId].Torn? <==> archiving == LeftTorn || archiving == CrashTorn
  {
  }

  /** Making room blocks the mission it wanted to reclaim exactly when its archive file is left torn. */
  lemma TornBlocks(w: World, n: Id, goal: Option<string>, env: Env, archiving: ArchiveFate, m: Id)
    requires WorldInv(w) && AsksForRoom(w, n, env) && IsOldest(w, m) && m !in w.archive
    ensures Blocked(Apply(w, EnsureMission(n, goal, env, archiving)), m)
      <==> archiving == LeftTorn || archiving == CrashTorn
  {
    var e, r := EnsureMission(n, goal, env, archiving), w.records[Oldest(w.records, w.retired).value];
    OldestIsLive(w, m);
    TornOnlyThen(w.archive, r, archiving);
    if archiving == LeftTorn || archiving == CrashTorn {
      StopsThere(w, n, goal, env, archiving, m);
    } else {
      var y := EnsureEnsures(w, n, goal, env, archiving);
      EnsureKeepsLedger(w, e, m);
      if Live(Apply(w, e), m) && m in Apply(w, e).archive {
        NewlyArchived(w, e, m);
      }
    }
  }

  /** A call on a mission whose record is in the archive as it is blocks it exactly when it changes it. */
  lemma ChangeBlocks(w: World, q: Request, env: Env)
    requires WorldInv(w) && Live(w, q.missionId)
    requires q.missionId in w.archive && w.archive[q.missionId] == Stored(LiveRecord(w, q.missionId))
    ensures var r := LiveRecord(w, q.missionId);
      Blocked(Apply(w, Call(q, env)), q.missionId) <==> Serve(r, q, env).record != r
  {
    var m, x := q.missionId, Apply(w, Call(q, env));
    CallKeepsIds(w, q, env, m);
    LiveId(w, m);
    LiveId(x, m);
  }

  /** A rewrite that is not made after its archive file was published leaves the mission live; evidence
      that is then appended to it blocks it, exactly when it is let through and persists. */
  lemma EvidenceBlocks(w: World, n: Id, goal: Option<string>, env: Env, archiving: ArchiveFate, q: Request, later: Env)
    requires WorldInv(w) && AsksForRoom(w, n, env) && IsOldest(w, q.missionId) && q.missionId !in w.archive
    requires archiving == CrashPublished
          || (archiving == Published && (env.first == Refused || env.first == CrashBefore))
    requires q.EvidenceRequest?
    ensures var r, x := LiveRecord(w, q.missionId), Apply(w, EnsureMission(n, goal, env, archiving));
      && !Blocked(x, q.missionId)
      && (Blocked(Apply(x, Call(q, later)), q.missionId)
          <==> && Unbound(later.mission, later.registered, r.projectId).None? && Admit(r, q) == Admitted
               && Persists(later.first))
  {
    var e, m := EnsureMission(n, goal, env, archiving), q.missionId;
    OldestIsLive(w, m);
    var r, x := LiveRecord(w, m), w.(archive := w.archive[m := Stored(LiveRecord(w, m))]);
    StopsThere(w, n, goal, env, archiving, m);
    assert Apply(w, e) == x;
    Step(w, e);
    ChangeBlocks(x, q, later);
    EvidenceChanges(r, q, later);
  }

  lemma EvidenceChanges(r: Record, q: Request, env: Env)
    requires Inv(r) && Valid(r) && q.EvidenceRequest?
    ensures Serve(r, q, env).record != r
      <==> && Unbound(env.mission, env.registered, r.projectId).None? && Admit(r, q) == Admitted
           && Persists(env.first)
  {
    if Admit(r, q) == Admitted {
      EvidenceValid(r, q);
      assert AtOnce(r, q).revision == r.revision + 1;
    }
  }

  lemma EvidenceValid(r: Record, q: Request)
    requires Valid(r) && q.EvidenceRequest? && Admit(r, q) == Admitted
    ensures Valid(AtOnce(r, q))
  {
  }

  /** As long as a blocked mission is the one to be reclaimed, a full store takes no new mission, whatever
      is tried. */
  lemma BlockedRefusesRoom(w: World, m: Id, n: Id, goal: Option<string>, env: Env, archiving: ArchiveFate)
    requires WorldInv(w) && Blocked(w, m) && |w.records| == MAX_RECORDS && (forall r :: r in w.records ==> Valid(r))
    requires Oldest(w.records, w.retired).Some? && w.records[Oldest(w.records, w.retired).value].missionId == m
    requires !Live(w, n)
    ensures !Ensure(w, n, goal, env, archiving).1.Returned? && Ensure(w, n, goal, env, archiving).0.records == w.records
  {
    var k := Oldest(w.records, w.retired).value;
    UniqueIndex(w.records, w.records[k]);
    ReclaimIff(w, k, archiving, env.first);
    StopsAtReclaim(w, n, goal, env, archiving);
    ReclaimKeeps(w, k, archiving, env.first);
  }

  lemma ReclaimKeeps(w: World, k: nat, archiving: ArchiveFate, fate: Fate)
    requires Oldest(w.records, w.retired) == Some(k) && !Archivable(w, w.records[k])
    ensures Reclaim(w, archiving, fate).world.records == w.records
  {
  }

  lemma StopsAtReclaim(w: World, n: Id, goal: Option<string>, env: Env, archiving: ArchiveFate)
    requires !Live(w, n) && |w.records| >= MAX_RECORDS && Reclaim(w, archiving, env.first).stop.Some?
    requires !Reclaim(w, archiving, env.first).stop.value.Returned?
    ensures var x, y := Ensure(w, n, goal, env, archiving), Reclaim(w, archiving, env.first);
      !x.1.Returned? && (x.0 == w || x.0 == y.world)
  {
  }
}
