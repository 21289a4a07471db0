/** The lifecycle service and the restart recovery as they run: the document is read, rewritten before
    and after each worker call, and every exit on the way is an early return. Each method is proved to
    do exactly what the step functions say. */
module MissionService {
  import opened Storage
  import opened Wrappers
  import opened MissionLifecycle
  import opened MissionRecord
  import opened MissionWorld
  import opened MissionHistory

  /** `validDocumentShape`, which every write checks. */
  predicate ValidShape(records: seq<Record>) {
    |records| <= MAX_RECORDS && UniqueMissions(records)
  }

  lemma ReplacedShape(records: seq<Record>, k: nat, r: Record)
    requires ValidShape(records) && k < |records| && r.missionId == records[k].missionId
    ensures ValidShape(records[k := r]) && IndexOf(records[k := r], r.missionId) == IndexOf(records, r.missionId) == k
  {
    SameIds(records, records[k := r], r.missionId);
    UniqueIndex(records, records[k]);
  }

  lemma AppendedShape(before: seq<Record>, records: seq<Record>, r: Record)
    requires ValidShape(records) && |records| < MAX_RECORDS && IndexOf(before, r.missionId) == |before|
    requires forall s :: s in records ==> s in before
    ensures ValidShape(records + [r])
  {
    forall i | 0 <= i < |records| ensures records[i].missionId != r.missionId {
      assert records[i] in before;
    }
  }

  /** `finishLifecycleOperation`: walks over the receipts with a `found` flag. */
  method FinishLifecycleOperation(r: Record, id: Id, status: Status) returns (finished: Result<Record, Error>)
    ensures finished == Finish(r, id, status)
  {
    var operations: seq<Operation> := [];
    var found := false;
    for i := 0 to |r.operations|
      invariant operations == FinishAll(r.operations, id, status, r.revision)[..i]
      invariant found <==> exists j :: 0 <= j < i && r.operations[j].requestId == id
      invariant forall j :: 0 <= j < i && r.operations[j].requestId == id ==> r.operations[j].status == Pending
    {
      var operation := r.operations[i];
      if operation.requestId != id {
        operations := operations + [operation];
      } else {
        found := true;
        if operation.status != Pending {
          assert operation in r.operations;
          return Failure(InvalidRequest);
        }
        operations := operations + [operation.(status := status, result := Some(r.revision))];
      }
    }
    if !found {
      return Failure(InvalidRequest);
    }
    ghost var j :| 0 <= j < |r.operations| && r.operations[j].requestId == id;
    assert r.operations[j] in r.operations && CanFinish(r.operations, id);
    assert operations == FinishAll(r.operations, id, status, r.revision);
    return Success(r.(operations := operations));
  }

  class LifecycleService {
    /** The store's document and archive, and the missions the mission ledger has archived. */
    var records: seq<Record>
    var archive: map<Id, ArchiveFile>
    var retired: map<Id, RetiredMission>
    /** The worker calls made so far. */
    var calls: seq<WorkerCall>

    function World(): World
      reads this
    {
      MissionWorld.World.World(records, archive, retired, calls)
    }

    constructor (retired: map<Id, RetiredMission>)
      ensures Init(World()) && WorldInv(World()) && World().retired == retired
    {
      this.records, this.archive, this.retired, this.calls := [], map[], retired, [];
    }

    // ---- the store -----------------------------------------------------------------------

    /** One atomic write; `stop` says why the caller does not go on. */
    method Write(document: seq<Record>, fate: Fate) returns (stop: Option<Outcome>)
      requires ValidShape(document)
      modifies this`records
      ensures records == if fate == Written || fate == CrashAfter then document else old(records)
      ensures stop == match fate case Written => None case Refused => Some(Threw(PersistenceFailure)) case _ =>
        Some(Died)
    {
      match fate
      case Written => records := document; return None;
      case Refused => return Some(Threw(PersistenceFailure));
      case CrashBefore => return Some(Died);
      case CrashAfter => records := document; return Some(Died);
    }

    method RecordFrom(document: seq<Record>, missionId: Id, env: Env) returns (k: nat, r: Result<Record, Error>)
      ensures k == IndexOf(document, missionId)
      ensures r == if k == |document| then Failure(MissionNotFound)
        else if !Valid(document[k]) then Failure(PersistenceFailure)
        else match Unbound(env.mission, env.registered, document[k].projectId)
          case Some(error) => Failure(error)
          case None => Success(document[k])
    {
      k := IndexOf(document, missionId);
      if k == |document| {
        return k, Failure(MissionNotFound);
      }
      if !Valid(document[k]) {
        return k, Failure(PersistenceFailure);
      }
      var unbound := Unbound(env.mission, env.registered, document[k].projectId);
      if unbound.Some? {
        return k, Failure(unbound.value);
      }
      return k, Success(document[k]);
    }

    // ---- worker operations ---------------------------------------------------------------

    /** The worker call of a pending operation and the record it leads to. */
    method Execute(original: Record, pending: Record, q: Request, reply: Reply) returns (done: Result<Record, Error>)
      requires AsksWorker(q) && pending == Begin(original, q) && original.missionId == q.missionId
      modifies this`calls
      ensures done == Worked(original, pending, q, reply)
      ensures calls == if Calls(original, q, reply) then old(calls) + [WorkerCall(q.missionId, KindOf(q), q.id)]
        else old(calls)
    {
      var next := pending.(revision := pending.revision + 1);
      if !q.StartRequest? && original.binding.None? {
        return if q.CancelRequest? then Success(next.(state := Cancelled)) else Failure(InvalidRequest);
      }
      if reply.NoAdapter? {
        return Failure(CapabilityDenied);
      }
      calls := calls + [WorkerCall(q.missionId, KindOf(q), q.id)];
      if reply.Raised? {
        return Failure(reply.error);
      }
      match q
      case StartRequest(_, _, _, workerType) =>
        done := Success(next.(state := Running,
                              binding :=
                                Some(Binding(workerType, reply.workerId, reply.resumeToken, reply.resumable))));
      case CheckpointRequest(_, _, id, content) =>
        var checkpoint := CheckpointEntry(id, |original.checkpoints| + 1, next.revision, reply.workerStateRef, content);
        done := Success(next.(state := WaitingForSupervisor, checkpoints := original.checkpoints + [checkpoint]));
      case ResumeRequest(_, _, _) =>
        var newest := LastAccepted(original.directives);
        if newest.None? {
          return Failure(InvalidRequest);
        }
        var binding := Binding(original.binding.value.workerType, reply.workerId, reply.resumeToken, reply.resumable);
        var directives := MarkApplied(original.directives, original.directives[newest.value].directiveId);
        done := Success(next.(state := Running, binding := Some(binding), directives := directives));
      case CancelRequest(_, _, _) =>
        done := Success(next.(state := Cancelled, binding := Some(original.binding.value.(resumable := false))));
    }

    /** The last write of a catch block. */
    method SaveFailed(document: seq<Record>, k: nat, failed: Record, ghost called: bool, error: Error,
                      fate: Fate) returns (o: Outcome)
      requires ValidShape(document) && k < |document| && records == document
      requires failed.missionId == document[k].missionId
      modifies this`records
      ensures var s := Save(document[k], failed, called, fate, Threw(error));
        records == document[k := s.record] && o == s.outcome
    {
      assert document[k := document[k]] == document;
      ReplacedShape(document, k, failed);
      var stop := Write(document[IndexOf(document, failed.missionId) := failed], fate);
      return if stop.Some? then stop.value else Threw(error);
    }

    /** The catch block: the record variable as it is then is marked as failed and written. */
    method RecordFailure(document: seq<Record>, k: nat, current: Record, q: Request, ghost called: bool, error: Error,
                         fate: Fate) returns (o: Outcome)
      requires ValidShape(document) && k < |document| && records == document
      requires current.missionId == document[k].missionId
      modifies this`records
      ensures var s := Fail(current, document[k], q, called, fate, error);
        records == document[k := s.record] && o == s.outcome
    {
      var failed := current.(state := LifecycleState.Failed, revision := current.revision + 1);
      assert document[k := document[k]] == document;
      if !Valid(failed) {
        return Threw(PersistenceFailure);
      }
      var finished := FinishLifecycleOperation(failed, q.id, Unsuccessful);
      if finished.Failure? {
        return Threw(finished.error);
      }
      o := SaveFailed(document, k, finished.value, called, error, fate);
    }

    /** The rest of the try block once the worker has answered, and the catch block after it. */
    method Conclude(document: seq<Record>, k: nat, done: Record, q: Request, ghost called: bool,
                    env: Env) returns (o: Outcome)
      requires ValidShape(document) && k < |document| && records == document && done.missionId == document[k].missionId
      modifies this`records
      ensures var s := Settle(document[k], done, q, called, env); records == document[k := s.record] && o == s.outcome
    {
      var record := document[k];
      if !Valid(done) {
        o := RecordFailure(document, k, record, q, called, PersistenceFailure, env.third);
        return;
      }
      var finished := FinishLifecycleOperation(done, q.id, Succeeded);
      if finished.Failure? {
        o := RecordFailure(document, k, record, q, called, finished.error, env.third);
        return;
      }
      ReplacedShape(document, k, finished.value);
      var stop := Write(document[IndexOf(document, finished.value.missionId) := finished.value], env.second);
      if stop.None? {
        return Returned(finished.value);
      }
      if stop.value.Died? {
        assert document[k := document[k]] == document;
        return Died;
      }
      if !q.CheckpointRequest? {
        record := finished.value;
      }
      o := RecordFailure(document, k, record, q, called, PersistenceFailure, env.third);
    }

    /** The rest of a worker operation once the pending record is written. */
    method Proceed(document: seq<Record>, k: nat, original: Record, q: Request, env: Env) returns (o: Outcome)
      requires AsksWorker(q) && ValidShape(document) && k < |document| && records == document
      requires document[k] == Begin(original, q) && original.missionId == q.missionId
      modifies this`records, this`calls
      ensures var s := AfterBegin(original, document[k], q, env); records == document[k := s.record] && o == s.outcome
      ensures calls == if Calls(original, q, env.reply) then old(calls) + [WorkerCall(q.missionId, KindOf(q), q.id)]
        else old(calls)
    {
      ghost var called := Calls(original, q, env.reply);
      var done := Execute(original, document[k], q, env.reply);
      if done.Failure? {
        o := RecordFailure(document, k, document[k], q, called, done.error, env.third);
      } else {
        o := Conclude(document, k, done.value, q, called, env);
      }
    }

    /** The write of the pending record and what follows it. */
    method BeginAndProceed(k: nat, original: Record, q: Request, env: Env) returns (o: Outcome)
      requires AsksWorker(q) && ValidShape(records) && k < |records| && records[k] == original
      requires original.missionId == q.missionId
      modifies this`records, this`calls
      ensures var s := ServeWorker(original, q, env);
        && records == old(records)[k := s.record] && o == s.outcome
        && calls == if s.called then old(calls) + [WorkerCall(q.missionId, KindOf(q), q.id)] else old(calls)
    {
      assert records[k := original] == records;
      if |original.operations| >= MAX_OPERATIONS {
        return Threw(CapabilityDenied);
      }
      var record := Begin(original, q);
      ReplacedShape(records, k, record);
      var document := records[IndexOf(records, record.missionId) := record];
      var stop := Write(document, env.first);
      if stop.Some? {
        return stop.value;
      }
      o := Proceed(document, k, original, q, env);
      AfterBeginCalls(original, record, q, env);
      assert records == old(records)[k := records[k]];
    }

    /** `start`, `resume` and `cancel`. */
    method WorkerOperation(q: Request, env: Env) returns (o: Outcome)
      requires q.StartRequest? || q.ResumeRequest? || q.CancelRequest?
      requires ValidShape(records)
      modifies this`records, this`calls
      ensures (World(), o) == ServeCall(old(World()), q, env)
    {
      var k, found := RecordFrom(records, q.missionId, env);
      assert k < |records| ==> records[k := records[k]] == records;
      if found.Failure? {
        return Threw(found.error);
      }
      var original := found.value;
      var duplicate := FindOperation(original.operations, q.id);
      if duplicate.Some? {
        if duplicate.value.kind != KindOf(q) {
          return Threw(InvalidRequest);
        }
        match duplicate.value.status
        case Succeeded => return Returned(original);
        case Pending => return Threw(ControlDenied);
        case Unsuccessful => return Threw(AgentExecutionFailed);
      }
      if HasPending(original.operations) {
        return Threw(ControlDenied);
      }
      if original.revision != q.revision {
        return Threw(InvalidRequest);
      }
      var ineligible := Ineligible(original, q);
      if ineligible.Some? {
        return Threw(ineligible.value);
      }
      o := BeginAndProceed(k, original, q, env);
    }

    method TakeCheckpoint(q: Request, env: Env) returns (o: Outcome)
      requires q.CheckpointRequest? && ValidShape(records)
      modifies this`records, this`calls
      ensures (World(), o) == ServeCall(old(World()), q, env)
    {
      var k, found := RecordFrom(records, q.missionId, env);
      assert k < |records| ==> records[k := records[k]] == records;
      if found.Failure? {
        return Threw(found.error);
      }
      var record := found.value;
      var duplicate := FindCheckpoint(record.checkpoints, q.id);
      if duplicate.Some? {
        return if duplicate.value.content == q.content then Returned(record) else Threw(InvalidRequest);
      }
      if HasPending(record.operations) {
        return Threw(ControlDenied);
      }
      if record.revision != q.revision || record.state != Running {
        return Threw(InvalidRequest);
      }
      if |record.checkpoints| >= MAX_CHECKPOINTS {
        return Threw(CapabilityDenied);
      }
      if record.binding.None? {
        return Threw(InvalidRequest);
      }
      o := BeginAndProceed(k, record, q, env);
    }

    // ---- requests that take one write ----------------------------------------------------

    method SaveNext(k: nat, record: Record, next: Record, env: Env) returns (o: Outcome)
      requires ValidShape(records) && k < |records| && records[k] == record && next.missionId == record.missionId
      modifies this`records
      ensures var s := if !Valid(next) then Served(record, false, Threw(PersistenceFailure))
                       else Save(record, next, false, env.first, Returned(next));
        records == old(records)[k := s.record] && o == s.outcome && !s.called
    {
      assert records[k := record] == records;
      if !Valid(next) {
        return Threw(PersistenceFailure);
      }
      ReplacedShape(records, k, next);
      var stop := Write(records[IndexOf(records, next.missionId) := next], env.first);
      return if stop.Some? then stop.value else Returned(next);
    }

    method AcceptDirective(q: Request, env: Env) returns (o: Outcome)
      requires q.DirectiveRequest? && ValidShape(records)
      modifies this`records
      ensures (World(), o) == ServeCall(old(World()), q, env)
    {
      var k, found := RecordFrom(records, q.missionId, env);
      assert k < |records| ==> records[k := records[k]] == records;
      if found.Failure? {
        return Threw(found.error);
      }
      var record := found.value;
      var duplicate := FindDirective(record.directives, q.id);
      if duplicate.Some? {
        return if duplicate.value.basedOn == q.revision && duplicate.value.directive == q.directive then
          Returned(record) else Threw(InvalidRequest);
      }
      if HasPending(record.operations) {
        return Threw(ControlDenied);
      }
      if record.revision != q.revision || (record.state != WaitingForSupervisor && record.state != Checkpointed) {
        return Threw(InvalidRequest);
      }
      if |record.directives| >= MAX_DIRECTIVES {
        return Threw(CapabilityDenied);
      }
      var directive := Directive(q.id, q.revision, q.directive, false);
      o := SaveNext(k, record, record.(revision := record.revision + 1, directives := record.directives + [directive]),
                    env);
    }

    method CompleteMission(q: Request, env: Env) returns (o: Outcome)
      requires q.CompleteRequest? && ValidShape(records)
      modifies this`records
      ensures (World(), o) == ServeCall(old(World()), q, env)
    {
      var k, found := RecordFrom(records, q.missionId, env);
      assert k < |records| ==> records[k := records[k]] == records;
      if found.Failure? {
        return Threw(found.error);
      }
      var record := found.value;
      var duplicate := FindOperation(record.operations, q.id);
      if duplicate.Some? {
        if duplicate.value.kind != Complete {
          return Threw(InvalidRequest);
        }
        match duplicate.value.status
        case Succeeded => return Returned(record);
        case Pending => return Threw(ControlDenied);
        case Unsuccessful => return Threw(AgentExecutionFailed);
      }
      if HasPending(record.operations) {
        return Threw(ControlDenied);
      }
      if record.revision != q.revision
        || (record.state != Running && record.state != WaitingForSupervisor && record.state != Checkpointed) {
        return Threw(InvalidRequest);
      }
      if env.guard.Some? {
        return Threw(env.guard.value);
      }
      if |record.operations| >= MAX_OPERATIONS {
        return Threw(CapabilityDenied);
      }
      var revision := record.revision + 1;
      var operation := Operation(q.id, Complete, q.revision, Some(revision), Succeeded);
      var binding := if record.binding.None? then None else Some(record.binding.value.(resumable := false));
      o := SaveNext(k, record,
                    record.(state := Completed, revision := revision, binding := binding,
                            operations := record.operations + [operation]), env);
    }

    method AppendEvidence(q: Request, env: Env) returns (o: Outcome)
      requires q.EvidenceRequest? && ValidShape(records)
      modifies this`records
      ensures (World(), o) == ServeCall(old(World()), q, env)
    {
      var k, found := RecordFrom(records, q.missionId, env);
      assert k < |records| ==> records[k := records[k]] == records;
      if found.Failure? {
        return Threw(found.error);
      }
      var record := found.value;
      var duplicate := FindEvidence(record.evidence, q.id);
      if duplicate.Some? {
        return if duplicate.value.content == q.content then Returned(record) else Threw(InvalidRequest);
      }
      if HasPending(record.operations) {
        return Threw(ControlDenied);
      }
      if record.revision != q.revision {
        return Threw(InvalidRequest);
      }
      if |record.evidence| >= MAX_EVIDENCE {
        return Threw(CapabilityDenied);
      }
      o := SaveNext(k, record,
                    record.(revision := record.revision + 1, evidence := record.evidence + [Evidence(q.id, q.content)]),
                      env);
    }

    // ---- capacity ------------------------------------------------------------------------

    /** `archiveForCapacity`: creates the archive file exclusively, or accepts an equal one. */
    method ArchiveForCapacity(record: Record, fate: ArchiveFate) returns (stop: Option<Outcome>)
      requires Valid(record) && ArchiveEligible(record)
      modifies this`archive
      ensures (archive, stop) == Publish(old(archive), record, fate)
    {
      if record.missionId in archive {
        var existing := archive[record.missionId];
        if existing.Torn? {
          return Some(Threw(PersistenceFailure));
        }
        return if existing.lifecycle == record then None else Some(Threw(PreconditionFailed));
      }
      if fate == Published || fate == CrashPublished {
        archive := archive[record.missionId := Stored(record)];
      } else if fate == LeftTorn || fate == CrashTorn {
        archive := archive[record.missionId := Torn];
      }
      match fate
      case Published => return None;
      case NotCreated => return Some(Threw(PersistenceFailure));
      case LeftTorn => return Some(Threw(PersistenceFailure));
      case _ => return Some(Died);
    }

    /** The candidate that sorts first, kept while the candidates are met. */
    method SelectOldest() returns (selected: Result<Option<nat>, Error>)
      ensures selected == if exists r ::
        r in records && !Valid(r) then Failure(PersistenceFailure) else Success(Oldest(records, retired))
    {
      var oldest: Option<nat> := None;
      for i := 0 to |records|
        invariant oldest == Oldest(records[..i], retired)
        invariant forall j :: 0 <= j < i ==> Valid(records[j])
      {
        var record := records[i];
        if !Valid(record) {
          assert record in records;
          return Failure(PersistenceFailure);
        }
        assert records[..i + 1][..i] == records[..i];
        if Reclaimable(record, retired) && (oldest.None? || Earlier(record, records[oldest.value], retired)) {
          oldest := Some(i);
        }
      }
      assert records[..|records|] == records;
      return Success(oldest);
    }

    method ReclaimArchivedCapacity(archiving: ArchiveFate, fate: Fate) returns (stop: Option<Outcome>)
      requires ValidShape(records)
      modifies this`records, this`archive
      ensures Reclaimed(World(), stop) == Reclaim(old(World()), archiving, fate)
      ensures ValidShape(records) && forall r :: r in records ==> r in old(records)
    {
      var selected := SelectOldest();
      if selected.Failure? {
        return Some(Threw(selected.error));
      }
      if selected.value.None? {
        return None;
      }
      var record := records[selected.value.value];
      stop := ArchiveForCapacity(record, archiving);
      if stop.Some? {
        return;
      }
      var next := Without(records, record.missionId);
      WithoutLast(records, record.missionId);
      stop := Write(next, fate);
    }

    method EnsureMission(missionId: Id, goal: Option<string>, env: Env, archiving: ArchiveFate) returns (o: Outcome)
      requires ValidShape(records)
      modifies this`records, this`archive
      ensures (World(), o) == Ensure(old(World()), missionId, goal, env, archiving)
    {
      var k := IndexOf(records, missionId);
      if k < |records| {
        var existing := records[k];
        if !Valid(existing) {
          return Threw(PersistenceFailure);
        }
        var unbound := Unbound(env.mission, env.registered, existing.projectId);
        if unbound.Some? {
          return Threw(unbound.value);
        }
        if goal.Some? && goal.value != existing.goal {
          return Threw(InvalidRequest);
        }
        return Returned(existing);
      }
      var mission := MissionOf(World(), missionId, env.mission);
      if mission.None? {
        return Threw(MissionNotFound);
      }
      if mission.value.terminal {
        return Threw(ControlDenied);
      }
      if mission.value.projectId.None? {
        return Threw(CapabilityDenied);
      }
      if !env.registered {
        return Threw(ControlDenied);
      }
      var text := if goal.Some? then goal.value else mission.value.title;
      if |records| >= MAX_RECORDS {
        var stopped := ReclaimArchivedCapacity(archiving, env.first);
        if stopped.Some? {
          return stopped.value;
        }
      }
      if |records| >= MAX_RECORDS {
        return Threw(CapabilityDenied);
      }
      var record := NewRecord(missionId, mission.value.projectId.value, text);
      AppendedShape(old(records), records, record);
      var stop := Write(records + [record], env.second);
      return if stop.Some? then stop.value else Returned(record);
    }
  }

  // ---- restart ---------------------------------------------------------------------------

  lemma RecoverKeepsId(r: Record, look: Look)
    requires RecoverRecord(r, look).Update?
    ensures RecoverRecord(r, look).next.missionId == r.missionId
  {
  }

  /** One turn of the recovery loop, up to its write. */
  method RecoverMission(record: Record, look: Look) returns (recovery: Recovery)
    ensures recovery == RecoverRecord(record, look)
  {
    if !Valid(record) || look.mission.None? {
      return Abort;
    }
    if look.mission.value.projectId != Some(record.projectId) || !look.registered || Terminal(record) {
      return Untouched;
    }
    var pending := FirstPending(record.operations);
    if pending.Some? {
      var failed :=
        FinishLifecycleOperation(record.(state := LifecycleState.Failed, revision := record.revision + 1),
                                 pending.value.requestId, Unsuccessful);
      return if failed.Failure? then Abort else Update(failed.value, false);
    }
    if record.binding.None? || look.probe.NoStatus? {
      return Untouched;
    }
    var binding :=
      Binding(record.binding.value.workerType, look.probe.workerId, look.probe.resumeToken, look.probe.resumable);
    return Update(record.(state := RecoveryState(record, look.probe.state, look.probe.resumable),
                          revision := record.revision + 1,
                          binding := Some(binding), probes := record.probes + 1), true);
  }

  /** `recoverDurableMissions`: walks over the records as they were read, with a local document that
      a refused probe write does not take back. */
  method RecoverDurableMissions(service: LifecycleService, looks: seq<Look>) returns (complete: bool)
    requires ValidShape(service.records)
    modifies service`records
    ensures (service.records, complete) == RecoverFrom(old(service.records), old(service.records), 0, looks)
  {
    var candidates := service.records;
    var document := candidates;
    for i := 0 to |candidates|
      invariant |document| == |candidates| && ValidShape(document)
      invariant forall j :: i <= j < |document| ==> document[j] == candidates[j]
      invariant RecoverFrom(service.records, document, i, looks) == RecoverFrom(candidates, candidates, 0, looks)
    {
      if i >= |looks| {
        return false;
      }
      var recovery := RecoverMission(candidates[i], looks[i]);
      if recovery.Abort? {
        return false;
      }
      if recovery.Update? {
        RecoverKeepsId(candidates[i], looks[i]);
        ReplacedShape(document, i, recovery.next);
        document := document[IndexOf(document, recovery.next.missionId) := recovery.next];
        var stop := service.Write(document, looks[i].fate);
        if stop.Some? && (stop.value.Died? || !recovery.isProbe) {
          return false;
        }
      }
    }
    return true;
  }
}
