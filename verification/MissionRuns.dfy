/** The main results about the durable mission lifecycle, each for every run from an empty store. */
module MissionRuns {
  import opened Storage
  import opened Wrappers
  import opened MissionLifecycle
  import opened MissionRecord
  import opened MissionWorld
  import opened MissionHistory

  // ---- every event keeps the invariant ---------------------------------------------------

  lemma StoreUnchanged(w: World)
    requires WorldInv(w)
    ensures Grows(w, w)
  {
    AlignedSelf(w.records);
    AlignedStep(w, w.records);
  }

  /** A mission that may be ensured has no record anywhere: an archived one is terminal. */
  lemma EnsuredIsNew(w: World, m: Id, answer: Option<Mission>)
    requires WorldInv(w) && IndexOf(w.records, m) == |w.records|
    requires MissionOf(w, m, answer).Some? && !MissionOf(w, m, answer).value.terminal
    ensures Ledger(w, m).None?
  {
  }

  lemma AppendedStep(w: World, x: World, m: Id, projectId: Id, goal: string, fate: Fate)
    requires WorldInv(w) && Grows(w, x) && WorldInv(x) && Ledger(x, m).None? && |x.records| < MAX_RECORDS
    ensures var y := Append(x, NewRecord(m, projectId, goal), fate).0;
      WorldInv(y) && Grows(w, y)
  {
    var r := NewRecord(m, projectId, goal);
    NewRecordInv(m, projectId, goal);
    AppendStep(x, r);
    GrowsTrans(w, x, x.(records := x.records + [r]));
  }

  lemma FewerRecords(w: World, x: World, m: Id)
    requires Ledger(w, m).None? && (forall r :: r in x.records ==> r in w.records)
    requires m in x.archive && x.archive[m].Stored? ==> m in w.archive && w.archive[m] == x.archive[m]
    ensures Ledger(x, m).None?
  {
    var k := IndexOf(x.records, m);
    assert k < |x.records| ==> x.records[k] in w.records;
  }

  lemma ReclaimedIsNew(w: World, m: Id, archiving: ArchiveFate, fate: Fate)
    requires WorldInv(w) && Ledger(w, m).None?
    ensures Ledger(Reclaim(w, archiving, fate).world, m).None?
  {
    var k := Oldest(w.records, w.retired);
    if k.Some? {
      ReclaimShape(w, k.value, archiving, fate);
      assert w.records[k.value].missionId != m;
    }
    FewerRecords(w, Reclaim(w, archiving, fate).world, m);
  }

  lemma EnsureShape(w: World, m: Id, goal: Option<string>, env: Env, archiving: ArchiveFate)
    ensures var x := Ensure(w, m, goal, env, archiving).0;
      var y := Reclaim(w, archiving, env.first).world;
      var mission := MissionOf(w, m, env.mission);
      || x == w || x == y
      || (IndexOf(w.records, m) == |w.records| && mission.Some? && !mission.value.terminal
          && mission.value.projectId.Some?
          && var r :=
             NewRecord(m, mission.value.projectId.value, if goal.Some? then goal.value else mission.value.title);
             || (|w.records| < MAX_RECORDS && x == Append(w, r, env.second).0)
             || (|y.records| < MAX_RECORDS && x == Append(y, r, env.second).0))
  {
  }

  lemma EnsureStep(w: World, m: Id, goal: Option<string>, env: Env, archiving: ArchiveFate)
    requires WorldInv(w)
    ensures var x := Ensure(w, m, goal, env, archiving).0; WorldInv(x) && Grows(w, x)
  {
    var x, y := Ensure(w, m, goal, env, archiving).0, Reclaim(w, archiving, env.first).world;
    EnsureShape(w, m, goal, env, archiving);
    StoreUnchanged(w);
    ReclaimStep(w, archiving, env.first);
    if x != w && x != y {
      var mission := MissionOf(w, m, env.mission).value;
      var text := if goal.Some? then goal.value else mission.title;
      EnsuredIsNew(w, m, env.mission);
      ReclaimedIsNew(w, m, archiving, env.first);
      if |w.records| < MAX_RECORDS {
        AppendedStep(w, w, m, mission.projectId.value, text, env.second);
      }
      if |y.records| < MAX_RECORDS {
        AppendedStep(w, y, m, mission.projectId.value, text, env.second);
      }
    }
  }

  lemma RetireStep(w: World, m: Id, mission: RetiredMission)
    requires WorldInv(w) && m !in w.retired
    ensures var x := w.(retired := w.retired[m := mission]); WorldInv(x) && Grows(w, x)
  {
    var x := w.(retired := w.retired[m := mission]);
    forall n ensures Ledger(x, n) == Ledger(w, n) {}
    LedgerSame(w, x);
    CallsStayKnown(w, x);
  }

  lemma Step(w: World, e: Event)
    requires WorldInv(w)
    ensures WorldInv(Apply(w, e)) && Grows(w, Apply(w, e))
  {
    match e
    case Call(request, env) => CallStep(w, request, env);
    case EnsureMission(missionId, goal, env, archiving) => EnsureStep(w, missionId, goal, env, archiving);
    case Recover(looks) =>
      AlignedSelf(w.records);
      RecoverAligned(w.records, w.records, w.records, 0, looks);
      AlignedStep(w, RecoverFrom(w.records, w.records, 0, looks).0);
    case Retire(missionId, mission) =>
      StoreUnchanged(w);
      if missionId !in w.retired {
        RetireStep(w, missionId, mission);
      }
  }

  lemma {:induction false} RunKeeps(w: World, events: seq<Event>)
    requires WorldInv(w)
    ensures WorldInv(Run(w, events)) && Grows(w, Run(w, events))
    decreases |events|
  {
    StoreUnchanged(w);
    if events != [] {
      Step(w, events[0]);
      RunKeeps(Apply(w, events[0]), events[1..]);
      GrowsTrans(w, Apply(w, events[0]), Run(w, events));
    }
  }

  lemma Reachable(w: World, events: seq<Event>)
    requires Init(w)
    ensures WorldInv(Run(w, events))
  {
    RunKeeps(w, events);
  }

  // ---- worker calls ----------------------------------------------------------------------

  /** Over every run of calls, retries, failures, crashes and recoveries, no operation reaches the
      worker twice. */
  lemma AtMostOnceCalls(w: World, events: seq<Event>)
    requires Init(w)
    ensures var calls := Run(w, events).calls; forall i, j :: 0 <= i < j < |calls| ==> calls[i] != calls[j]
  {
    Reachable(w, events);
  }

  lemma EnsureCallsNobody(w: World, m: Id, goal: Option<string>, env: Env, archiving: ArchiveFate)
    ensures Ensure(w, m, goal, env, archiving).0.calls == w.calls
  {
    var x, y, mission := Ensure(w, m, goal, env, archiving).0, Reclaim(w, archiving, env.first).world,
      MissionOf(w, m, env.mission);
    EnsureShape(w, m, goal, env, archiving);
    ReclaimCallsNobody(w, archiving, env.first);
    if x != w && x != y {
      var r := NewRecord(m, mission.value.projectId.value, if goal.Some? then goal.value else mission.value.title);
      AppendCallsNobody(w, r, env.second);
      AppendCallsNobody(y, r, env.second);
    }
  }

  lemma AppendCallsNobody(w: World, r: Record, fate: Fate)
    ensures Append(w, r, fate).0.calls == w.calls
  {
  }

  lemma ReclaimCallsNobody(w: World, archiving: ArchiveFate, fate: Fate)
    ensures Reclaim(w, archiving, fate).world.calls == w.calls
  {
  }

  predicate CallAllowed(w: World, c: WorkerCall) {
    && Ledger(w, c.missionId).Some?
    && var r := Ledger(w, c.missionId).value; r.state != Completed && (Ended(r) ==> c.kind == Cancel)
  }

  lemma CallOfRequest(w: World, q: Request, env: Env)
    requires WorldInv(w)
    ensures var x := ServeCall(w, q, env).0;
      x.calls == w.calls || (|x.calls| == |w.calls| + 1 && w.calls <= x.calls && CallAllowed(w, x.calls[|w.calls|]))
  {
    var k := IndexOf(w.records, q.missionId);
    if k < |w.records| {
      ServeFacts(w.records[k], q, env);
    }
  }

  /** A step that calls the worker calls it once, for a mission that is not completed; once a mission
      has failed or was cancelled it can only be a cancellation. */
  lemma CallsOfStep(w: World, e: Event)
    requires WorldInv(w)
    ensures var x := Apply(w, e);
      x.calls == w.calls || (|x.calls| == |w.calls| + 1 && w.calls <= x.calls && CallAllowed(w, x.calls[|w.calls|]))
  {
    match e
    case Call(request, env) => CallOfRequest(w, request, env);
    case EnsureMission(missionId, goal, env, archiving) => EnsureCallsNobody(w, missionId, goal, env, archiving);
    case _ =>
  }

  ghost predicate CompletedSince(w: World, x: World, m: Id) {
    && Ledger(w, m).Some? && Ledger(x, m).Some? && Ledger(x, m).value.state == Completed
    && Ledger(x, m).value.operations == Ledger(w, m).value.operations
    && w.calls <= x.calls && forall i :: |w.calls| <= i < |x.calls| ==> x.calls[i].missionId != m
  }

  lemma CompletedSinceTrans(w: World, x: World, y: World, m: Id)
    requires Ledger(w, m).Some? && Ledger(w, m).value.state == Completed && Grows(w, x) && CompletedSince(x, y, m)
    requires x.calls == w.calls || (|x.calls| == |w.calls| + 1 && CallAllowed(w, x.calls[|w.calls|]))
    ensures CompletedSince(w, y, m)
  {
  }

  /** A completed mission stays completed with the same operations, and its worker is never called
      again. */
  lemma {:induction false} CompletedIsFinal(w: World, events: seq<Event>, m: Id)
    requires WorldInv(w) && Ledger(w, m).Some? && Ledger(w, m).value.state == Completed
    ensures CompletedSince(w, Run(w, events), m)
    decreases |events|
  {
    if events != [] {
      var next := Apply(w, events[0]);
      Step(w, events[0]);
      CallsOfStep(w, events[0]);
      CompletedIsFinal(next, events[1..], m);
      CompletedSinceTrans(w, next, Run(w, events), m);
    }
  }

  // ---- revisions -------------------------------------------------------------------------

  predicate TakesEffect(w: World, q: Request, env: Env) {
    ServeCall(w, q, env).0 != w
  }

  lemma EffectNeedsRevision(w: World, q: Request, env: Env)
    requires WorldInv(w) && TakesEffect(w, q, env)
    ensures var x := ServeCall(w, q, env).0;
      Ledger(w, q.missionId).Some? && Ledger(x, q.missionId).Some?
        && Ledger(w, q.missionId).value.revision == q.revision < Ledger(x, q.missionId).value.revision
  {
    var k := IndexOf(w.records, q.missionId);
    assert w.records[k := w.records[k]] == w.records;
    ServeFacts(w.records[k], q, env);
    SameIds(w.records, ServeCall(w, q, env).0.records, q.missionId);
  }

  /** Of all requests on one mission that carry the same expected revision, at most one ever changes
      the store or reaches the worker. */
  lemma OneEffectPerRevision(w: World, first: Request, env: Env, between: seq<Event>, second: Request, env': Env)
    requires WorldInv(w) && TakesEffect(w, first, env)
    requires second.missionId == first.missionId && second.revision == first.revision
    ensures !TakesEffect(Run(ServeCall(w, first, env).0, between), second, env')
  {
    EffectNeedsRevision(w, first, env);
    CallStep(w, first, env);
    var x := ServeCall(w, first, env).0;
    RunKeeps(x, between);
    if TakesEffect(Run(x, between), second, env') {
      EffectNeedsRevision(Run(x, between), second, env');
    }
  }

  // ---- the log and its accounts ----------------------------------------------------------

  /** The operation log is a serial history: each operation but a pending last one finished before the
      next began, and there is a pending one exactly while the mission is resuming or validating. */
  predicate SerialHistory(r: Record) {
    && (forall i, j :: 0 <= i < j < |r.operations| ==>
          && r.operations[i].status != Pending && r.operations[i].result.Some?
          && r.operations[i].basedOn < r.operations[i].result.value <= r.operations[j].basedOn)
    && (HasPending(r.operations) <==> r.state == Resuming || r.state == Validating)
    && (forall o :: o in r.operations ==> o.basedOn < r.revision)
  }

  lemma {:induction false} SerialOrder(ops: seq<Operation>, revision: nat, i: nat)
    requires Serial(ops, revision) && i < |ops|
    ensures ops[i].status != Pending && ops[i].result.Some? && ops[i].basedOn < ops[i].result.value <= revision
    ensures forall j :: i < j < |ops| ==> ops[i].result.value <= ops[j].basedOn
    decreases |ops|
  {
    if i < |ops| - 1 {
      SerialOrder(Front(ops), Last(ops).basedOn, i);
      forall j | i < j < |ops| ensures ops[i].result.value <= ops[j].basedOn {
        if j < |ops| - 1 {
          assert Front(ops)[j] == ops[j];
        }
      }
    }
  }

  lemma SerialIsHistory(r: Record)
    requires !Busy(r.state) && Serial(r.operations, r.revision)
    ensures SerialHistory(r)
  {
    NothingPending(r.operations, r.revision);
    forall i | 0 <= i < |r.operations|
      ensures r.operations[i].status != Pending && r.operations[i].result.Some?
      ensures r.operations[i].basedOn < r.operations[i].result.value <= r.revision
      ensures forall j :: i < j < |r.operations| ==> r.operations[i].result.value <= r.operations[j].basedOn
    {
      SerialOrder(r.operations, r.revision, i);
    }
  }

  lemma OpenIsHistory(r: Record)
    requires Open(r)
    ensures SerialHistory(r)
  {
    var ops := r.operations;
    var n := |ops| - 1;
    assert ops[n] in ops;
    forall i | 0 <= i < n
      ensures ops[i].status != Pending && ops[i].result.Some? && ops[i].basedOn < ops[i].result.value <= ops[n].basedOn
      ensures forall j :: i < j < n ==> ops[i].result.value <= ops[j].basedOn
    {
      SerialOrder(Front(ops), Last(ops).basedOn, i);
      assert forall j :: 0 <= j < n ==> Front(ops)[j] == ops[j];
    }
  }

  lemma InvIsSerial(r: Record)
    requires Inv(r)
    ensures SerialHistory(r)
  {
    if Busy(r.state) {
      OpenIsHistory(r);
    } else {
      SerialIsHistory(r);
    }
  }

  function CountOperations(ops: seq<Operation>, kind: Kind, status: Status): nat {
    if ops == [] then 0
    else
      CountOperations(Front(ops), kind, status)
      + (if Last(ops).kind == kind && Last(ops).status == status then 1 else 0)
  }

  /** Checkpoints are the succeeded checkpoint operations, numbered from one; applied directives are as
      many as succeeded resumes; and every step of the revision is accounted for. */
  ghost predicate Accounted(r: Record) {
    && CheckpointIds(r.checkpoints) == SucceededIds(r.operations, Checkpoint)
    && |r.checkpoints| == CountOperations(r.operations, Checkpoint, Succeeded)
    && (forall i :: 0 <= i < |r.checkpoints| ==> r.checkpoints[i].sequence == i + 1)
    && AppliedCount(r.directives) == CountOperations(r.operations, Resume, Succeeded)
    && r.revision
       == 1 + 2 * Finished(r.operations) + (if HasPending(r.operations) then 1 else 0) + Completions(r.operations)
                     + |r.directives| + |r.evidence| + r.probes
  }

  function Completions(ops: seq<Operation>): nat {
    if ops == [] then 0 else Completions(Front(ops)) + (if Last(ops).kind == Complete then 1 else 0)
  }

  /** How many worker operations are finished. */
  function Finished(ops: seq<Operation>): nat {
    if ops == [] then 0
    else Finished(Front(ops)) + (if Last(ops).kind != Complete && Last(ops).status != Pending then 1 else 0)
  }

  lemma {:induction false} CountSucceeded(ops: seq<Operation>, kind: Kind)
    ensures |SucceededIds(ops, kind)| == CountOperations(ops, kind, Succeeded)
    decreases |ops|
  {
    if ops != [] {
      CountSucceeded(Front(ops), kind);
    }
  }

  lemma {:induction false} CountIds(checkpoints: seq<CheckpointEntry>)
    ensures |CheckpointIds(checkpoints)| == |checkpoints|
    decreases |checkpoints|
  {
    if checkpoints != [] {
      CountIds(checkpoints[..|checkpoints| - 1]);
    }
  }

  lemma {:induction false} WeightFinished(ops: seq<Operation>, revision: nat)
    requires Serial(ops, revision)
    ensures Weight(ops) == 2 * Finished(ops) + Completions(ops)
    decreases |ops|
  {
    if ops != [] {
      WeightFinished(Front(ops), Last(ops).basedOn);
    }
  }

  lemma InvIsAccounted(r: Record)
    requires Inv(r)
    ensures Accounted(r)
  {
    CountSucceeded(r.operations, Checkpoint);
    CountSucceeded(r.operations, Resume);
    CountIds(r.checkpoints);
    InvIsSerial(r);
    if Busy(r.state) {
      WeightFinished(Front(r.operations), Last(r.operations).basedOn);
    } else {
      WeightFinished(r.operations, r.revision);
    }
  }

  /** A failed operation ends the mission: it failed, was cancelled, or is being cancelled. */
  predicate FailureEnds(r: Record) {
    (exists o :: o in r.operations && o.status == Unsuccessful) ==> Ended(r)
  }

  lemma InvFailureEnds(r: Record)
    requires Inv(r)
    ensures FailureEnds(r) && r.state != Checkpointed
  {
    if r.operations != [] {
      assert r.operations == Front(r.operations) + [Last(r.operations)];
    }
  }

  /** Every record a run can leave, live or archived, is a serial history, is accounted for, and has
      ended if one of its operations failed; the state CHECKPOINTED never occurs. */
  lemma EveryRecord(w: World, events: seq<Event>, m: Id)
    requires Init(w) && Ledger(Run(w, events), m).Some?
    ensures var r := Ledger(Run(w, events), m).value;
      r.missionId == m && SerialHistory(r) && Accounted(r) && FailureEnds(r) && r.state != Checkpointed
  {
    Reachable(w, events);
    var r := Ledger(Run(w, events), m).value;
    InvIsSerial(r);
    InvIsAccounted(r);
    InvFailureEnds(r);
  }

  // ---- capacity reclaim ------------------------------------------------------------------

  /** No mission is lost and no archived record is rewritten, whatever happens between archiving and
      rewriting the document; the document keeps unique missions and its bound. */
  lemma NoMissionIsLost(w: World, before: seq<Event>, after: seq<Event>, m: Id)
    requires Init(w) && Ledger(Run(w, before), m).Some?
    ensures var x, y := Run(w, before), Run(Run(w, before), after);
      && Ledger(y, m).Some? && Evolves(Ledger(x, m).value, Ledger(y, m).value)
      && (m in x.archive ==> m in y.archive && y.archive[m] == x.archive[m])
      && UniqueMissions(y.records) && |y.records| <= MAX_RECORDS
  {
    Reachable(w, before);
    RunKeeps(Run(w, before), after);
  }
}
