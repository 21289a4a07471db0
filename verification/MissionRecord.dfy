/** What holds of every stored mission record: the operation log is a serial history, and the
    checkpoints, directives and revision are accounted for by it. */
module MissionRecord {
  import opened Storage
  import opened Wrappers
  import opened MissionLifecycle

  // ---- reading the log -------------------------------------------------------------------

  function Last(ops: seq<Operation>): Operation
    requires ops != []
  {
    ops[|ops| - 1]
  }

  function Front(ops: seq<Operation>): seq<Operation>
    requires ops != []
  {
    ops[..|ops| - 1]
  }

  /** The ids of the operations of one kind that succeeded, in order. */
  function SucceededIds(ops: seq<Operation>, kind: Kind): seq<Id> {
    if ops == [] then []
    else
      SucceededIds(Front(ops), kind)
      + (if Last(ops).kind == kind && Last(ops).status == Succeeded then [Last(ops).requestId] else [])
  }

  /** How often the operations raised the revision: a worker operation when it began and when it was
      finished, a completion once. */
  function Weight(ops: seq<Operation>): nat {
    if ops == [] then 0
    else Weight(Front(ops)) + (if Last(ops).kind == Complete || Last(ops).status == Pending then 1 else 2)
  }

  function AppliedCount(directives: seq<Directive>): nat {
    if directives == [] then 0
    else AppliedCount(directives[..|directives| - 1]) + (if directives[|directives| - 1].applied then 1 else 0)
  }

  function CheckpointIds(checkpoints: seq<CheckpointEntry>): seq<Id> {
    if checkpoints == [] then []
    else CheckpointIds(checkpoints[..|checkpoints| - 1]) + [checkpoints[|checkpoints| - 1].checkpointId]
  }

  // ---- the invariant ---------------------------------------------------------------------

  /** Every operation is finished, each after the one before it, all by `revision`. */
  predicate Serial(ops: seq<Operation>, revision: nat) {
    ops == [] ||
    (var o := Last(ops);
     && o.status != Pending && o.result.Some? && o.basedOn < o.result.value <= revision
     && Serial(Front(ops), o.basedOn))
  }

  predicate Busy(s: LifecycleState) {
    s == Resuming || s == Validating
  }

  /** The last operation is pending: exactly while the mission is resuming or validating. */
  predicate Open(r: Record) {
    && r.operations != []
    && var o := Last(r.operations);
       && o.status == Pending && o.result.None? && o.basedOn + 1 == r.revision && o.kind != Complete
       && r.state == (if o.kind == Checkpoint then Validating else Resuming)
       && Serial(Front(r.operations), o.basedOn)
  }

  predicate Logged(r: Record) {
    if Busy(r.state) then Open(r) else Serial(r.operations, r.revision)
  }

  predicate NoCompletion(ops: seq<Operation>) {
    forall o :: o in ops ==> o.kind != Complete
  }

  /** Nothing failed and nothing completed. */
  predicate Unended(ops: seq<Operation>) {
    NoCompletion(ops) && forall o :: o in ops ==> o.status != Unsuccessful
  }

  /** A failed operation ends the mission's work for good, and a completion is the last operation. */
  predicate EndsProperly(r: Record) {
    match r.state
    case Completed =>
      r.operations != [] && Last(r.operations).kind == Complete && Last(r.operations).status == Succeeded
        && Unended(Front(r.operations))
    case Failed => NoCompletion(r.operations)
    case Cancelled => NoCompletion(r.operations)
    case Resuming =>
      r.operations != []
        && (if Last(r.operations).kind == Cancel then NoCompletion(Front(r.operations))
            else Unended(Front(r.operations)))
    case Validating => r.operations != [] && Unended(Front(r.operations))
    case Checkpointed => false
    case _ => Unended(r.operations)
  }

  predicate Sequenced(checkpoints: seq<CheckpointEntry>) {
    forall i :: 0 <= i < |checkpoints| ==> checkpoints[i].sequence == i + 1
  }

  predicate Conserved(r: Record) {
    && CheckpointIds(r.checkpoints) == SucceededIds(r.operations, Checkpoint)
    && Sequenced(r.checkpoints)
    && AppliedCount(r.directives) == |SucceededIds(r.operations, Resume)|
    && r.revision == 1 + Weight(r.operations) + |r.directives| + |r.evidence| + r.probes
  }

  predicate Inv(r: Record) {
    Logged(r) && EndsProperly(r) && Conserved(r)
  }

  // ---- adding to the log and finishing it ------------------------------------------------

  lemma Appended(ops: seq<Operation>, o: Operation)
    ensures Front(ops + [o]) == ops && Last(ops + [o]) == o
  {
  }

  lemma {:induction false} SerialLater(ops: seq<Operation>, revision: nat, later: nat)
    requires Serial(ops, revision) && revision <= later
    ensures Serial(ops, later)
  {
  }

  lemma {:induction false} NothingPending(ops: seq<Operation>, revision: nat)
    requires Serial(ops, revision)
    ensures !HasPending(ops)
    decreases |ops|
  {
    if ops != [] {
      NothingPending(Front(ops), Last(ops).basedOn);
      assert ops == Front(ops) + [Last(ops)];
    }
  }

  /** The receipt that is finished is the one at the end, when no other has its id. */
  lemma FinishedLast(ops: seq<Operation>, id: Id, status: Status, revision: nat)
    requires ops != [] && Last(ops).requestId == id && forall o :: o in Front(ops) ==> o.requestId != id
    ensures var finished := FinishAll(ops, id, status, revision);
      finished == Front(ops) + [Last(ops).(status := status, result := Some(revision))]
    ensures CanFinish(ops, id) <==> Last(ops).status == Pending
  {
    assert ops == Front(ops) + [Last(ops)];
    forall i | 0 <= i < |ops| - 1 ensures ops[i].requestId != id {
      assert Front(ops)[i] == ops[i];
    }
  }

  /** A receipt that is finished stays finished. */
  lemma FinishedOnce(ops: seq<Operation>, id: Id, status: Status, revision: nat)
    requires CanFinish(ops, id) && status != Pending
    ensures !CanFinish(FinishAll(ops, id, status, revision), id)
  {
    var o :| o in ops && o.requestId == id;
    var i :| 0 <= i < |ops| && ops[i] == o;
    var finished := FinishAll(ops, id, status, revision);
    assert finished[i] in finished && finished[i].requestId == id;
  }

  lemma {:induction false} MarkedCount(directives: seq<Directive>, k: nat)
    requires k < |directives| && !directives[k].applied && UniqueDirectives(directives)
    ensures AppliedCount(MarkApplied(directives, directives[k].directiveId)) == AppliedCount(directives) + 1
    decreases |directives|
  {
    var n := |directives| - 1;
    var id := directives[k].directiveId;
    assert MarkApplied(directives, id)[..n] == MarkApplied(directives[..n], id);
    if k < n {
      MarkedCount(directives[..n], k);
    } else {
      assert MarkApplied(directives[..n], id) == directives[..n];
    }
  }

  lemma {:induction false} SucceededIsCheckpointed(ops: seq<Operation>, o: Operation, kind: Kind)
    requires o in ops && o.kind == kind && o.status == Succeeded
    ensures o.requestId in SucceededIds(ops, kind)
    decreases |ops|
  {
    if o != Last(ops) {
      assert ops == Front(ops) + [Last(ops)];
      SucceededIsCheckpointed(Front(ops), o, kind);
    }
  }

  lemma {:induction false} CheckpointIdsMember(checkpoints: seq<CheckpointEntry>, id: Id)
    requires id in CheckpointIds(checkpoints)
    ensures exists c :: c in checkpoints && c.checkpointId == id
    decreases |checkpoints|
  {
    var n := |checkpoints| - 1;
    assert checkpoints == checkpoints[..n] + [checkpoints[n]];
    if checkpoints[n].checkpointId == id {
      assert checkpoints[n] in checkpoints;
    } else {
      CheckpointIdsMember(checkpoints[..n], id);
    }
  }

  // ---- each step keeps the invariant -----------------------------------------------------

  /** An admitted worker request never repeats an operation of its kind. */
  lemma AdmittedIsNew(r: Record, q: Request)
    requires Inv(r) && Admit(r, q) == Admitted && AsksWorker(q)
    ensures forall o :: o in r.operations ==> !(o.requestId == q.id && o.kind == KindOf(q))
  {
    if q.CheckpointRequest? {
      assert Unended(r.operations);
      NothingPending(r.operations, r.revision);
      forall o | o in r.operations && o.requestId == q.id && o.kind == Checkpoint ensures false {
        SucceededIsCheckpointed(r.operations, o, Checkpoint);
        CheckpointIdsMember(r.checkpoints, q.id);
      }
    }
  }

  lemma NotBusy(r: Record)
    requires Inv(r) && !HasPending(r.operations)
    ensures !Busy(r.state) && Serial(r.operations, r.revision)
  {
    assert r.operations != [] ==> Last(r.operations) in r.operations;
  }

  lemma BeginConserves(r: Record, q: Request)
    requires Conserved(r)
    ensures Conserved(Begin(r, q))
  {
    Appended(r.operations, Operation(q.id, KindOf(q), r.revision, None, Pending));
  }

  lemma BeginKeeps(r: Record, q: Request)
    requires Inv(r) && Admit(r, q) == Admitted && AsksWorker(q)
    ensures Inv(Begin(r, q))
  {
    NotBusy(r);
    var o := Operation(q.id, KindOf(q), r.revision, None, Pending);
    Appended(r.operations, o);
    BeginConserves(r, q);
    assert q.CancelRequest? ==> NoCompletion(r.operations);
    assert !q.CancelRequest? ==> Unended(r.operations);
    assert Logged(Begin(r, q)) && EndsProperly(Begin(r, q));
  }

  /** The pending record `p` becomes `next` when its operation is finished. */
  predicate Finishes(p: Record, next: Record, status: Status) {
    && Open(p)
    && next.revision == p.revision + 1 && next.evidence == p.evidence && next.probes == p.probes
    && next.operations == Front(p.operations) + [Last(p.operations).(status := status, result := Some(next.revision))]
  }

  lemma FailureKeeps(p: Record, next: Record)
    requires Inv(p) && Finishes(p, next, Unsuccessful) && next.state == LifecycleState.Failed
    requires next.checkpoints == p.checkpoints && next.directives == p.directives
    ensures Inv(next)
  {
    Appended(Front(p.operations), Last(next.operations));
  }

  /** What a success of the pending operation's kind changes. */
  ghost predicate Succeeds(p: Record, next: Record) {
    && Finishes(p, next, Succeeded)
    && match Last(p.operations).kind
       case Start => next.state == Running && next.checkpoints == p.checkpoints && next.directives == p.directives
       case Cancel => next.state == Cancelled && next.checkpoints == p.checkpoints && next.directives == p.directives
       case Checkpoint => next.state == WaitingForSupervisor && next.directives == p.directives
         && exists c ::
              next.checkpoints == p.checkpoints + [c] && c.checkpointId == Last(p.operations).requestId
                && c.sequence == |p.checkpoints| + 1
       case Resume => next.state == Running && next.checkpoints == p.checkpoints
         && |next.directives| == |p.directives| && AppliedCount(next.directives) == AppliedCount(p.directives) + 1
       case Complete => false
  }

  lemma SuccessConserves(p: Record, next: Record)
    requires Conserved(p) && Succeeds(p, next)
    ensures Conserved(next)
  {
    Appended(Front(p.operations), Last(next.operations));
    if Last(p.operations).kind == Checkpoint {
      var n := |next.checkpoints| - 1;
      assert next.checkpoints[..n] == p.checkpoints;
    }
  }

  lemma SuccessKeeps(p: Record, next: Record)
    requires Inv(p) && Succeeds(p, next)
    ensures Inv(next)
  {
    Appended(Front(p.operations), Last(next.operations));
    SuccessConserves(p, next);
    assert EndsProperly(next) && Logged(next);
  }

  lemma WorkedKeeps(r: Record, q: Request, reply: Reply)
    requires Inv(r) && Valid(r) && Admit(r, q) == Admitted && AsksWorker(q)
    requires Worked(r, Begin(r, q), q, reply).Success?
    requires forall o :: o in r.operations ==> o.requestId != q.id
    ensures var done := Worked(r, Begin(r, q), q, reply).value;
      Finish(done, q.id, Succeeded).Success? && Inv(Finish(done, q.id, Succeeded).value)
        && Finishes(Begin(r, q), Finish(done, q.id, Succeeded).value, Succeeded)
  {
    var p := Begin(r, q);
    BeginKeeps(r, q);
    Appended(r.operations, Last(p.operations));
    var done := Worked(r, p, q, reply).value;
    FinishedLast(p.operations, q.id, Succeeded, done.revision);
    if q.ResumeRequest? {
      MarkedCount(r.directives, LastAccepted(r.directives).value);
    }
    var next := Finish(done, q.id, Succeeded).value;
    if q.CheckpointRequest? {
      assert next.checkpoints == p.checkpoints + [next.checkpoints[|p.checkpoints|]];
    }
    SuccessKeeps(p, next);
  }

  /** The catch block after a worker call that went wrong, and the restart of a mission that was left
      with a pending operation: both mark the pending operation as failed. */
  lemma FailedPending(p: Record, id: Id)
    requires Inv(p) && Open(p) && Last(p.operations).requestId == id && UniqueOperations(p.operations)
    ensures var failed := p.(state := LifecycleState.Failed, revision := p.revision + 1);
      Finish(failed, id, Unsuccessful).Success? && Inv(Finish(failed, id, Unsuccessful).value)
        && Finishes(p, Finish(failed, id, Unsuccessful).value, Unsuccessful)
  {
    var failed := p.(state := LifecycleState.Failed, revision := p.revision + 1);
    FinishedLast(p.operations, id, Unsuccessful, failed.revision);
    FailureKeeps(p, Finish(failed, id, Unsuccessful).value);
  }

  lemma DirectiveKeeps(r: Record, d: Directive)
    requires Inv(r) && !Busy(r.state) && !d.applied
    ensures Inv(r.(revision := r.revision + 1, directives := r.directives + [d]))
  {
    var s := r.(revision := r.revision + 1, directives := r.directives + [d]);
    assert s.directives[..|r.directives|] == r.directives;
    SerialLater(r.operations, r.revision, s.revision);
  }

  lemma EvidenceKeeps(r: Record, e: Evidence)
    requires Inv(r) && !Busy(r.state)
    ensures Inv(r.(revision := r.revision + 1, evidence := r.evidence + [e]))
  {
    SerialLater(r.operations, r.revision, r.revision + 1);
  }

  lemma CompletionKeeps(r: Record, id: Id, binding: Option<Binding>)
    requires Inv(r) && (r.state == Running || AwaitsDirective(r.state))
    ensures Inv(r.(state := Completed, revision := r.revision + 1, binding := binding,
                   operations := r.operations + [Operation(id, Complete, r.revision, Some(r.revision + 1), Succeeded)]))
  {
    Appended(r.operations, Operation(id, Complete, r.revision, Some(r.revision + 1), Succeeded));
  }

  lemma AtOnceKeeps(r: Record, q: Request)
    requires Inv(r) && Admit(r, q) == Admitted && !AsksWorker(q)
    ensures Inv(AtOnce(r, q))
  {
    NotBusy(r);
    if q.DirectiveRequest? {
      DirectiveKeeps(r, Directive(q.id, q.revision, q.directive, false));
    } else if q.EvidenceRequest? {
      EvidenceKeeps(r, Evidence(q.id, q.content));
    } else {
      CompletionKeeps(r, q.id, AtOnce(r, q).binding);
    }
  }

  // ---- how one record can turn into another ----------------------------------------------

  predicate SameKey(a: Operation, b: Operation) {
    a.requestId == b.requestId && a.kind == b.kind && a.basedOn == b.basedOn
  }

  /** The later log: nothing is dropped, reordered or rewritten, and finished receipts are final. */
  predicate LogGrows(a: seq<Operation>, b: seq<Operation>) {
    |a| <= |b| && forall i :: 0 <= i < |a| ==> SameKey(a[i], b[i]) && (a[i].status != Pending ==> b[i] == a[i])
  }

  predicate DirectivesGrow(a: seq<Directive>, b: seq<Directive>) {
    |a| <= |b| && forall i :: 0 <= i < |a| ==>
      b[i].(applied := false) == a[i].(applied := false) && (a[i].applied ==> b[i].applied)
  }

  /** The mission failed, was cancelled or completed, or is being cancelled. */
  predicate Ended(r: Record) {
    || r.state == LifecycleState.Failed || r.state == Cancelled || r.state == Completed
    || (r.state == Resuming && r.operations != [] && Last(r.operations).kind == Cancel)
  }

  /** `s` is what `r` is or may have become later. */
  predicate Evolves(r: Record, s: Record) {
    && s.missionId == r.missionId && s.projectId == r.projectId && s.goal == r.goal
    && (s == r || r.revision < s.revision)
    && LogGrows(r.operations, s.operations)
    && DirectivesGrow(r.directives, s.directives)
    && r.checkpoints <= s.checkpoints && r.evidence <= s.evidence
    && (r.state == Completed ==> s.state == Completed && s.operations == r.operations)
    && (Ended(r) ==> Ended(s))
  }

  lemma EvolvesTrans(r: Record, s: Record, t: Record)
    requires Evolves(r, s) && Evolves(s, t)
    ensures Evolves(r, t)
  {
  }

  /** `s` is `r` with the operation of `q` begun, and perhaps finished. */
  predicate Began(r: Record, q: Request, s: Record) {
    && Inv(s) && Evolves(r, s) && r.revision < s.revision
    && |s.operations| == |r.operations| + 1
    && Last(s.operations).requestId == q.id && Last(s.operations).kind == KindOf(q)
  }

  lemma BeginBegan(r: Record, q: Request)
    requires Inv(r) && Admit(r, q) == Admitted && AsksWorker(q)
    ensures Began(r, q, Begin(r, q)) && Open(Begin(r, q)) && Last(Begin(r, q).operations).requestId == q.id
  {
    BeginKeeps(r, q);
    NotBusy(r);
    Appended(r.operations, Last(Begin(r, q).operations));
  }

  lemma FinishedBegan(r: Record, q: Request, p: Record, next: Record, status: Status)
    requires p == Begin(r, q) && Began(r, q, p) && Inv(next) && Finishes(p, next, status) && status != Pending
    requires next.missionId == p.missionId && next.projectId == p.projectId && next.goal == p.goal
    requires p.checkpoints <= next.checkpoints && DirectivesGrow(p.directives, next.directives)
    requires Ended(r) ==> next.state == LifecycleState.Failed || next.state == Cancelled
    requires r.state != Completed
    ensures Began(r, q, next)
  {
    Appended(Front(p.operations), Last(next.operations));
  }

  /** The catch block leaves the pending record, or the record with its operation failed. */
  lemma FailBegan(r: Record, q: Request, p: Record, called: bool, fate: Fate, error: Error)
    requires Began(r, q, p) && Open(p) && p == Begin(r, q) && r.state != Completed
    ensures Began(r, q, Fail(p, p, q, called, fate, error).record)
  {
    var failed := p.(state := LifecycleState.Failed, revision := p.revision + 1);
    if Valid(failed) {
      FailedPending(p, q.id);
      var next := Finish(failed, q.id, Unsuccessful).value;
      FinishedBegan(r, q, p, next, Unsuccessful);
      FailRecord(p, q, next, called, fate, error);
    }
  }

  lemma FailRecord(p: Record, q: Request, next: Record, called: bool, fate: Fate, error: Error)
    requires Finish(p.(state := LifecycleState.Failed, revision := p.revision + 1), q.id, Unsuccessful) == Success(next)
    ensures Fail(p, p, q, called, fate, error).record == p || Fail(p, p, q, called, fate, error).record == next
  {
  }

  lemma NotDuplicated(r: Record, q: Request)
    requires UniqueOperations(Begin(r, q).operations)
    ensures forall o :: o in r.operations ==> o.requestId != q.id
  {
    var p := Begin(r, q);
    forall o | o in r.operations ensures o.requestId != q.id {
      var i :| 0 <= i < |r.operations| && r.operations[i] == o;
      assert p.operations[i] == o && p.operations[|r.operations|].requestId == q.id;
    }
  }

  /** What the worker's answer leaves alone of the pending record `p`. */
  predicate WorkedFrom(r: Record, p: Record, done: Record) {
    && done.operations == p.operations && done.revision == p.revision + 1
    && done.missionId == p.missionId && done.projectId == p.projectId && done.goal == p.goal
    && p.checkpoints <= done.checkpoints && DirectivesGrow(p.directives, done.directives)
    && (Ended(r) ==> done.state == Cancelled) && r.state != Completed
  }

  lemma WorkedShape(r: Record, q: Request, reply: Reply)
    requires Valid(r) && Ineligible(r, q).None? && AsksWorker(q)
    requires Worked(r, Begin(r, q), q, reply).Success?
    ensures WorkedFrom(r, Begin(r, q), Worked(r, Begin(r, q), q, reply).value)
  {
  }

  lemma WorkedBegan(r: Record, q: Request, p: Record, done: Record)
    requires p == Begin(r, q) && Began(r, q, p) && WorkedFrom(r, p, done)
    requires Finish(done, q.id, Succeeded).Success? && Inv(Finish(done, q.id, Succeeded).value)
    requires Finishes(p, Finish(done, q.id, Succeeded).value, Succeeded)
    ensures Began(r, q, Finish(done, q.id, Succeeded).value)
  {
    FinishedBegan(r, q, p, Finish(done, q.id, Succeeded).value, Succeeded);
  }

  lemma SuccessBegan(r: Record, q: Request, reply: Reply)
    requires Inv(r) && Valid(r) && Admit(r, q) == Admitted && AsksWorker(q)
    requires Worked(r, Begin(r, q), q, reply).Success?
    requires UniqueOperations(Worked(r, Begin(r, q), q, reply).value.operations)
    ensures var done := Worked(r, Begin(r, q), q, reply).value;
      Finish(done, q.id, Succeeded).Success? && Began(r, q, Finish(done, q.id, Succeeded).value)
        && !CanFinish(Finish(done, q.id, Succeeded).value.operations, q.id)
  {
    var done := Worked(r, Begin(r, q), q, reply).value;
    WorkedShape(r, q, reply);
    NotDuplicated(r, q);
    BeginBegan(r, q);
    WorkedKeeps(r, q, reply);
    WorkedBegan(r, q, Begin(r, q), done);
    FinishedOnce(done.operations, q.id, Succeeded, done.revision);
  }

  lemma SettleShape(p: Record, done: Record, q: Request, called: bool, env: Env)
    requires Valid(done) ==> Finish(done, q.id, Succeeded).Success?
    requires Valid(done) ==> !CanFinish(Finish(done, q.id, Succeeded).value.operations, q.id)
    ensures var s := Settle(p, done, q, called, env).record;
      || s == p || s == Fail(p, p, q, called, env.third, PersistenceFailure).record
      || (Valid(done) && s == Finish(done, q.id, Succeeded).value)
  {
  }

  lemma SettleBegan(r: Record, q: Request, p: Record, done: Record, called: bool, env: Env)
    requires Began(r, q, p) && Open(p) && p == Begin(r, q) && r.state != Completed
    requires Valid(done) ==> Finish(done, q.id, Succeeded).Success? && Began(r, q, Finish(done, q.id, Succeeded).value)
    requires Valid(done) ==> !CanFinish(Finish(done, q.id, Succeeded).value.operations, q.id)
    ensures Began(r, q, Settle(p, done, q, called, env).record) == true
  {
    SettleShape(p, done, q, called, env);
    FailBegan(r, q, p, called, env.third, PersistenceFailure);
  }

  /** A worker request either leaves the record alone and calls nobody, or begins its operation. */
  lemma WorkerRequest(r: Record, q: Request, env: Env)
    requires Inv(r) && Valid(r) && Admit(r, q) == Admitted && AsksWorker(q)
    ensures var s := ServeWorker(r, q, env);
      (s.record == r && !s.called) || Began(r, q, s.record)
  {
    var p := Begin(r, q);
    BeginBegan(r, q);
    if |r.operations| < MAX_OPERATIONS && env.first == Written {
      var called := Calls(r, q, env.reply);
      if Worked(r, p, q, env.reply).Failure? {
        FailBegan(r, q, p, called, env.third, Worked(r, p, q, env.reply).error);
      } else {
        var done := Worked(r, p, q, env.reply).value;
        if Valid(done) {
          SuccessBegan(r, q, env.reply);
        }
        SettleBegan(r, q, p, done, called, env);
      }
    }
  }

  // ---- whether the worker was called ------------------------------------------------------

  lemma FailCalls(current: Record, saved: Record, q: Request, called: bool, fate: Fate, error: Error)
    ensures Fail(current, saved, q, called, fate, error).called == called
  {
  }

  lemma SettleCalls(pending: Record, done: Record, q: Request, called: bool, env: Env)
    ensures Settle(pending, done, q, called, env).called == called
  {
    if !Valid(done) {
      FailCalls(pending, pending, q, called, env.third, PersistenceFailure);
    } else if !CanFinish(done.operations, q.id) {
      FailCalls(pending, pending, q, called, env.third, InvalidRequest);
    } else {
      var next := Finish(done, q.id, Succeeded).value;
      FailCalls(if q.CheckpointRequest? then pending else next, pending, q, called, env.third, PersistenceFailure);
    }
  }

  /** Whether the worker was called does not depend on how the writes went. */
  lemma AfterBeginCalls(r: Record, pending: Record, q: Request, env: Env)
    ensures AfterBegin(r, pending, q, env).called == Calls(r, q, env.reply)
  {
    var called := Calls(r, q, env.reply);
    match Worked(r, pending, q, env.reply)
    case Failure(error) => FailCalls(pending, pending, q, called, env.third, error);
    case Success(done) => SettleCalls(pending, done, q, called, env);
  }
}
