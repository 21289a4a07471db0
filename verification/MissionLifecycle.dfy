/** Durable mission lifecycle: the persisted record, the operation log, and what each call leaves on
    disk and asks of the worker, for every way a store write can end and every worker answer.
    Texts are taken as already trimmed and bounded; timestamps are not modelled. */
module MissionLifecycle {
  import opened Wrappers
  import opened Storage

  const MAX_RECORDS: nat := 100
  const MAX_CHECKPOINTS: nat := 200
  const MAX_DIRECTIVES: nat := 200
  const MAX_EVIDENCE: nat := 400
  const MAX_OPERATIONS: nat := 400

  type Id = nat

  datatype LifecycleState =
    | Created | Ready | Running | Checkpointed | WaitingForSupervisor | Resuming | Validating
    | Completed | Failed | Cancelled

  datatype Kind = Start | Checkpoint | Resume | Cancel | Complete

  datatype Status = Pending | Succeeded | Unsuccessful

  datatype Operation = Operation(requestId: Id, kind: Kind, basedOn: nat, result: Option<nat>, status: Status)

  datatype Binding = Binding(workerType: string, workerId: string, resumeToken: Option<string>, resumable: bool)

  /** `content` stands for the summary and the evidence references. */
  datatype CheckpointEntry = CheckpointEntry(checkpointId: Id, sequence: nat, revision: nat, workerStateRef: string,
                                             content: string)

  datatype Directive = Directive(directiveId: Id, basedOn: nat, directive: string, applied: bool)

  datatype Evidence = Evidence(evidenceId: Id, content: string)

  /** `probes` is a history variable, not part of the file: it counts the recovery status probes
      whose answer is in the record. */
  datatype Record = Record(
    missionId: Id, projectId: Id, goal: string, state: LifecycleState, revision: nat, binding: Option<Binding>,
    checkpoints: seq<CheckpointEntry>, directives: seq<Directive>, evidence: seq<Evidence>, operations: seq<Operation>,
    probes: nat)

  datatype Error =
    | MissionNotFound | PersistenceFailure | ControlDenied | InvalidRequest | CapabilityDenied
    | AgentExecutionFailed | PreconditionFailed

  // ---- what the outside answers ----------------------------------------------------------

  /** How a worker call ends: no adapter is registered and nothing is called, or the adapter is called
      and throws (or answers with a malformed receipt), or it answers. */
  datatype Reply = NoAdapter | Raised(error: Error) | Answered(workerId: string, resumeToken: Option<string>,
                                                               resumable: bool, workerStateRef: string)

  /** What the mission ledger says of a mission. */
  datatype Mission = Mission(projectId: Option<Id>, terminal: bool, title: string)

  /** `guard` is the error of the two completion guards, if one refuses. */
  datatype Env = Env(mission: Option<Mission>, registered: bool, guard: Option<Error>, reply: Reply, first: Fate,
                     second: Fate, third: Fate)

  datatype Request =
    | StartRequest(missionId: Id, revision: nat, id: Id, workerType: string)
    | CheckpointRequest(missionId: Id, revision: nat, id: Id, content: string)
    | ResumeRequest(missionId: Id, revision: nat, id: Id)
    | CancelRequest(missionId: Id, revision: nat, id: Id)
    | CompleteRequest(missionId: Id, revision: nat, id: Id)
    | DirectiveRequest(missionId: Id, revision: nat, id: Id, directive: string)
    | EvidenceRequest(missionId: Id, revision: nat, id: Id, content: string)

  datatype Outcome = Returned(record: Record) | Threw(error: Error) | Died

  // ---- the record ------------------------------------------------------------------------

  predicate UniqueOperations(ops: seq<Operation>) {
    forall i, j :: 0 <= i < j < |ops| ==> ops[i].requestId != ops[j].requestId
  }

  predicate UniqueCheckpoints(checkpoints: seq<CheckpointEntry>) {
    forall i, j :: 0 <= i < j < |checkpoints| ==> checkpoints[i].checkpointId != checkpoints[j].checkpointId
  }

  predicate UniqueDirectives(directives: seq<Directive>) {
    forall i, j :: 0 <= i < j < |directives| ==> directives[i].directiveId != directives[j].directiveId
  }

  predicate UniqueEvidence(evidence: seq<Evidence>) {
    forall i, j :: 0 <= i < j < |evidence| ==> evidence[i].evidenceId != evidence[j].evidenceId
  }

  /** `isLifecycleRecord`, for the parts that are modelled. */
  predicate Valid(r: Record) {
    && r.revision > 0
    && |r.checkpoints| <= MAX_CHECKPOINTS && |r.directives| <= MAX_DIRECTIVES
    && |r.evidence| <= MAX_EVIDENCE && |r.operations| <= MAX_OPERATIONS
    && UniqueCheckpoints(r.checkpoints) && UniqueDirectives(r.directives)
    && UniqueEvidence(r.evidence) && UniqueOperations(r.operations)
  }

  predicate HasPending(ops: seq<Operation>) {
    exists o :: o in ops && o.status == Pending
  }

  function FindOperation(ops: seq<Operation>, id: Id): (o: Option<Operation>)
    ensures o.None? ==> forall p :: p in ops ==> p.requestId != id
    ensures o.Some? ==> o.value in ops && o.value.requestId == id
  {
    if ops == [] then None
    else if ops[0].requestId == id then Some(ops[0])
    else FindOperation(ops[1..], id)
  }

  function FindCheckpoint(checkpoints: seq<CheckpointEntry>, id: Id): (c: Option<CheckpointEntry>)
    ensures c.None? ==> forall p :: p in checkpoints ==> p.checkpointId != id
    ensures c.Some? ==> c.value in checkpoints && c.value.checkpointId == id
  {
    if checkpoints == [] then None
    else if checkpoints[0].checkpointId == id then Some(checkpoints[0])
    else FindCheckpoint(checkpoints[1..], id)
  }

  function FindDirective(directives: seq<Directive>, id: Id): (d: Option<Directive>)
    ensures d.None? ==> forall p :: p in directives ==> p.directiveId != id
    ensures d.Some? ==> d.value in directives && d.value.directiveId == id
  {
    if directives == [] then None
    else if directives[0].directiveId == id then Some(directives[0])
    else FindDirective(directives[1..], id)
  }

  function FindEvidence(evidence: seq<Evidence>, id: Id): (e: Option<Evidence>)
    ensures e.None? ==> forall p :: p in evidence ==> p.evidenceId != id
    ensures e.Some? ==> e.value in evidence && e.value.evidenceId == id
  {
    if evidence == [] then None
    else if evidence[0].evidenceId == id then Some(evidence[0])
    else FindEvidence(evidence[1..], id)
  }

  /** The newest directive that is not applied yet. */
  function LastAccepted(directives: seq<Directive>): (k: Option<nat>)
    ensures k.None? ==> forall d :: d in directives ==> d.applied
    ensures k.Some? ==> k.value < |directives| && !directives[k.value].applied
    ensures k.Some? ==> forall j :: k.value < j < |directives| ==> directives[j].applied
  {
    var n := |directives|;
    if n == 0 then None
    else if !directives[n - 1].applied then Some(n - 1)
    else LastAccepted(directives[..n - 1])
  }

  function MarkApplied(directives: seq<Directive>, id: Id): (marked: seq<Directive>)
    ensures |marked| == |directives|
    ensures forall i :: 0 <= i < |marked| ==>
      marked[i] == if directives[i].directiveId == id then directives[i].(applied := true) else directives[i]
  {
    if directives == [] then []
    else
      var n := |directives| - 1;
      var last := directives[n];
      MarkApplied(directives[..n], id) + [if last.directiveId == id then last.(applied := true) else last]
  }

  // ---- the operation log -----------------------------------------------------------------

  function KindOf(q: Request): Kind {
    match q
    case StartRequest(_, _, _, _) => Start
    case CheckpointRequest(_, _, _, _) => Checkpoint
    case ResumeRequest(_, _, _) => Resume
    case CancelRequest(_, _, _) => Cancel
    case _ => Complete
  }

  predicate AsksWorker(q: Request) {
    q.StartRequest? || q.CheckpointRequest? || q.ResumeRequest? || q.CancelRequest?
  }

  function Begin(r: Record, q: Request): Record {
    r.(state := if q.CheckpointRequest? then Validating else Resuming,
       revision := r.revision + 1,
       operations := r.operations + [Operation(q.id, KindOf(q), r.revision, None, Pending)])
  }

  /** Every receipt of `id` becomes terminal; refused when there is none or one already is. */
  predicate CanFinish(ops: seq<Operation>, id: Id) {
    && (exists o :: o in ops && o.requestId == id)
    && (forall o :: o in ops && o.requestId == id ==> o.status == Pending)
  }

  function FinishAll(ops: seq<Operation>, id: Id, status: Status, revision: nat): (finished: seq<Operation>)
    ensures |finished| == |ops|
    ensures forall i :: 0 <= i < |ops| ==>
      finished[i] == if ops[i].requestId == id then ops[i].(status := status, result := Some(revision)) else ops[i]
  {
    if ops == [] then []
    else
      var n := |ops| - 1;
      var last := ops[n];
      FinishAll(ops[..n], id, status, revision)
        + [if last.requestId == id then last.(status := status, result := Some(revision)) else last]
  }

  function Finish(r: Record, id: Id, status: Status): Result<Record, Error> {
    if CanFinish(r.operations, id) then Success(r.(operations := FinishAll(r.operations, id, status, r.revision)))
    else Failure(InvalidRequest)
  }

  // ---- which requests are let through ----------------------------------------------------

  datatype Admission = Admitted | Replayed | Rejected(error: Error)

  function DuplicateOperation(o: Operation, kind: Kind): Admission {
    if o.kind != kind then Rejected(InvalidRequest)
    else if o.status == Succeeded then Replayed
    else if o.status == Pending then Rejected(ControlDenied)
    else Rejected(AgentExecutionFailed)
  }

  function SameOrRejected(same: bool): Admission {
    if same then Replayed else Rejected(InvalidRequest)
  }

  /** What an id that is already bound means for the request. */
  function Duplicate(r: Record, q: Request): Option<Admission> {
    match q
    case CheckpointRequest(_, _, id, content) =>
      (match FindCheckpoint(r.checkpoints, id)
       case None => None
       case Some(c) => Some(SameOrRejected(c.content == content)))
    case DirectiveRequest(_, revision, id, directive) =>
      (match FindDirective(r.directives, id)
       case None => None
       case Some(d) => Some(SameOrRejected(d.basedOn == revision && d.directive == directive)))
    case EvidenceRequest(_, _, id, content) =>
      (match FindEvidence(r.evidence, id) case None => None case Some(e) => Some(SameOrRejected(e.content == content)))
    case _ =>
      (match FindOperation(r.operations, q.id) case None => None case Some(o) => Some(DuplicateOperation(o, KindOf(q))))
  }

  predicate AwaitsDirective(s: LifecycleState) {
    s == WaitingForSupervisor || s == Checkpointed
  }

  function Ineligible(r: Record, q: Request): Option<Error> {
    match q
    case StartRequest(_, _, _, _) => if r.state != Created then Some(InvalidRequest) else None
    case CheckpointRequest(_, _, _, _) =>
      if r.state != Running then Some(InvalidRequest)
      else if |r.checkpoints| >= MAX_CHECKPOINTS then Some(CapabilityDenied)
      else if r.binding.None? then Some(InvalidRequest)
      else None
    case ResumeRequest(_, _, _) =>
      if !AwaitsDirective(r.state) || r.checkpoints == [] || LastAccepted(r.directives).None? then Some(InvalidRequest)
      else None
    case CancelRequest(_, _, _) => if r.state == Completed then Some(InvalidRequest) else None
    case CompleteRequest(_, _, _) =>
      if r.state != Running && !AwaitsDirective(r.state) then Some(InvalidRequest) else None
    case DirectiveRequest(_, _, _, _) =>
      if !AwaitsDirective(r.state) then Some(InvalidRequest)
      else if |r.directives| >= MAX_DIRECTIVES then Some(CapabilityDenied)
      else None
    case EvidenceRequest(_, _, _, _) => if |r.evidence| >= MAX_EVIDENCE then Some(CapabilityDenied) else None
  }

  function Admit(r: Record, q: Request): Admission {
    match Duplicate(r, q)
    case Some(duplicate) => duplicate
    case None =>
      if HasPending(r.operations) then Rejected(ControlDenied)
      else if r.revision != q.revision then Rejected(InvalidRequest)
      else match Ineligible(r, q) case Some(error) => Rejected(error) case None => Admitted
  }

  // ---- serving one request on one record -------------------------------------------------

  /** What a request leaves persisted of the record, whether it called the worker, and how it ended. */
  datatype Served = Served(record: Record, called: bool, outcome: Outcome)

  /** One write of `next` over the saved record. */
  function Save(saved: Record, next: Record, called: bool, fate: Fate, onSuccess: Outcome): Served {
    match fate
    case Written => Served(next, called, onSuccess)
    case Refused => Served(saved, called, Threw(PersistenceFailure))
    case CrashBefore => Served(saved, called, Died)
    case CrashAfter => Served(next, called, Died)
  }

  predicate Calls(r: Record, q: Request, reply: Reply) {
    !reply.NoAdapter? && (q.StartRequest? || r.binding.Some?)
  }

  /** What the worker's answer makes of the pending record, before its receipt is finished. */
  function Worked(r: Record, pending: Record, q: Request, reply: Reply): Result<Record, Error> {
    if !q.StartRequest? && r.binding.None? then
      if q.CancelRequest? then Success(pending.(state := Cancelled, revision := pending.revision + 1))
      else Failure(InvalidRequest)
    else match reply
      case NoAdapter => Failure(CapabilityDenied)
      case Raised(error) => Failure(error)
      case Answered(workerId, resumeToken, resumable, workerStateRef) =>
        var next := pending.(revision := pending.revision + 1);
        match q
        case StartRequest(_, _, _, workerType) =>
          Success(next.(state := Running, binding := Some(Binding(workerType, workerId, resumeToken, resumable))))
        case CheckpointRequest(_, _, id, content) =>
          Success(next.(state := WaitingForSupervisor,
                        checkpoints := r.checkpoints
                          + [CheckpointEntry(id, |r.checkpoints| + 1, next.revision, workerStateRef, content)]))
        case ResumeRequest(_, _, _) =>
          (match LastAccepted(r.directives)
           case None => Failure(InvalidRequest)
           case Some(k) =>
             Success(next.(state := Running,
                           binding := Some(Binding(r.binding.value.workerType, workerId, resumeToken, resumable)),
                           directives := MarkApplied(r.directives, r.directives[k].directiveId))))
        case _ =>
          Success(next.(state := Cancelled, binding := Some(r.binding.value.(resumable := false))))
  }

  /** The catch block: `current` is the record variable at that point, `saved` what the store holds. */
  function Fail(current: Record, saved: Record, q: Request, called: bool, fate: Fate, error: Error): Served {
    var failed := current.(state := LifecycleState.Failed, revision := current.revision + 1);
    if !Valid(failed) then Served(saved, called, Threw(PersistenceFailure))
    else match Finish(failed, q.id, Unsuccessful)
      case Failure(e) => Served(saved, called, Threw(e))
      case Success(next) => Save(saved, next, called, fate, Threw(error))
  }

  /** After the worker answered: finish, save, and on trouble mark the operation as failed. The worker
      operations have by then replaced their record variable with the finished record; a checkpoint
      still has the pending one. */
  function Settle(pending: Record, done: Record, q: Request, called: bool, env: Env): Served {
    if !Valid(done) then Fail(pending, pending, q, called, env.third, PersistenceFailure)
    else match Finish(done, q.id, Succeeded)
      case Failure(e) => Fail(pending, pending, q, called, env.third, e)
      case Success(next) =>
        if env.second == Refused then
          Fail(if q.CheckpointRequest? then pending else next, pending, q, called, env.third, PersistenceFailure)
        else Save(pending, next, called, env.second, Returned(next))
  }

  /** What follows once the pending record is written. */
  function AfterBegin(r: Record, pending: Record, q: Request, env: Env): Served {
    var called := Calls(r, q, env.reply);
    match Worked(r, pending, q, env.reply)
    case Failure(error) => Fail(pending, pending, q, called, env.third, error)
    case Success(done) => Settle(pending, done, q, called, env)
  }

  function ServeWorker(r: Record, q: Request, env: Env): Served {
    if |r.operations| >= MAX_OPERATIONS then Served(r, false, Threw(CapabilityDenied))
    else if env.first != Written then Save(r, Begin(r, q), false, env.first, Died)
    else AfterBegin(r, Begin(r, q), q, env)
  }

  /** The record after a request that calls no worker. */
  function AtOnce(r: Record, q: Request): Record {
    var next := r.(revision := r.revision + 1);
    if q.DirectiveRequest? then next.(directives := r.directives + [Directive(q.id, q.revision, q.directive, false)])
    else if q.EvidenceRequest? then next.(evidence := r.evidence + [Evidence(q.id, q.content)])
    else
      next.(state := Completed,
            binding := if r.binding.None? then None else Some(r.binding.value.(resumable := false)),
            operations := r.operations + [Operation(q.id, Complete, q.revision, Some(next.revision), Succeeded)])
  }

  function ServeAtOnce(r: Record, q: Request, env: Env): Served {
    if q.CompleteRequest? && env.guard.Some? then Served(r, false, Threw(env.guard.value))
    else if q.CompleteRequest? && |r.operations| >= MAX_OPERATIONS then Served(r, false, Threw(CapabilityDenied))
    else if !Valid(AtOnce(r, q)) then Served(r, false, Threw(PersistenceFailure))
    else Save(r, AtOnce(r, q), false, env.first, Returned(AtOnce(r, q)))
  }

  function Unbound(mission: Option<Mission>, registered: bool, projectId: Id): Option<Error> {
    if mission.None? then Some(MissionNotFound)
    else if mission.value.projectId != Some(projectId) || !registered then Some(ControlDenied)
    else None
  }

  function Serve(r: Record, q: Request, env: Env): Served {
    if !Valid(r) then Served(r, false, Threw(PersistenceFailure))
    else if Unbound(env.mission, env.registered, r.projectId).Some? then
      Served(r, false, Threw(Unbound(env.mission, env.registered, r.projectId).value))
    else match Admit(r, q)
      case Replayed => Served(r, false, Returned(r))
      case Rejected(error) => Served(r, false, Threw(error))
      case Admitted => if AsksWorker(q) then ServeWorker(r, q, env) else ServeAtOnce(r, q, env)
  }
}
