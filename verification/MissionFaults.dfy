/** Retries, restarts, and the one way a stored record can become unreadable for good. */
module MissionFaults {
  import opened Storage
  import opened Wrappers
  import opened MissionLifecycle
  import opened MissionRecord
  import opened MissionWorld
  import opened MissionHistory
  import opened MissionRuns

  // ---- a checkpoint id that is already an operation's request id --------------------------

  /** An admitted checkpoint whose id some operation already has, and whose pending write persists. */
  predicate Collides(r: Record, q: Request, env: Env) {
    && q.CheckpointRequest? && Unbound(env.mission, env.registered, r.projectId).None?
    && Admit(r, q) == Admitted && |r.operations| < MAX_OPERATIONS
    && (env.first == Written || env.first == CrashAfter)
    && exists o :: o in r.operations && o.requestId == q.id
  }

  lemma PendingValid(r: Record, q: Request)
    requires Valid(r) && |r.operations| < MAX_OPERATIONS
    ensures Valid(Begin(r, q)) <==> !(exists o :: o in r.operations && o.requestId == q.id)
  {
    var p := Begin(r, q);
    if o :| o in r.operations && o.requestId == q.id {
      var i :| 0 <= i < |r.operations| && r.operations[i] == o;
      assert p.operations[i] == o && p.operations[|r.operations|].requestId == q.id;
    }
  }

  lemma FinishValid(d: Record, id: Id, status: Status)
    requires Valid(d) && CanFinish(d.operations, id)
    ensures Valid(Finish(d, id, status).value)
  {
  }

  lemma FailShape(current: Record, p: Record, q: Request, called: bool, fate: Fate, error: Error)
    ensures var failed := current.(state := LifecycleState.Failed, revision := current.revision + 1);
      var record := Fail(current, p, q, called, fate, error).record;
      record == p
        || (Valid(failed) && CanFinish(failed.operations, q.id) && record == Finish(failed, q.id, Unsuccessful).value)
  {
  }

  lemma FailValid(current: Record, p: Record, q: Request, called: bool, fate: Fate, error: Error)
    requires Valid(p)
    ensures Valid(Fail(current, p, q, called, fate, error).record)
  {
    var failed := current.(state := LifecycleState.Failed, revision := current.revision + 1);
    FailShape(current, p, q, called, fate, error);
    if Valid(failed) && CanFinish(failed.operations, q.id) {
      FinishValid(failed, q.id, Unsuccessful);
    }
  }

  lemma SettleValid(p: Record, done: Record, q: Request, called: bool, env: Env)
    requires Valid(p)
    ensures Valid(Settle(p, done, q, called, env).record)
  {
    FailValid(p, p, q, called, env.third, PersistenceFailure);
    FailValid(p, p, q, called, env.third, InvalidRequest);
    if Valid(done) && CanFinish(done.operations, q.id) {
      var next := Finish(done, q.id, Succeeded).value;
      FinishValid(done, q.id, Succeeded);
      FailValid(next, p, q, called, env.third, PersistenceFailure);
    }
  }

  lemma WorkerValid(r: Record, q: Request, env: Env)
    requires Valid(r) && AsksWorker(q) && forall o :: o in r.operations ==> o.requestId != q.id
    ensures Valid(ServeWorker(r, q, env).record)
  {
    if |r.operations| < MAX_OPERATIONS {
      var p := Begin(r, q);
      PendingValid(r, q);
      if env.first == Written {
        var called := Calls(r, q, env.reply);
        match Worked(r, p, q, env.reply)
        case Failure(error) => FailValid(p, p, q, called, env.third, error);
        case Success(done) => SettleValid(p, done, q, called, env);
      }
    }
  }

  /** The colliding checkpoint reaches the worker, and then neither its success nor its failure can be
      recorded: the pending record stays, and it is not a valid one. */
  lemma CollisionSticks(r: Record, q: Request, env: Env)
    requires Inv(r) && Valid(r) && Collides(r, q, env)
    ensures Serve(r, q, env).record == Begin(r, q) && !Valid(Begin(r, q))
    ensures env.first == Written ==>
      Serve(r, q, env).outcome.Threw? && (Serve(r, q, env).called <==> !env.reply.NoAdapter?)
  {
    var p := Begin(r, q);
    PendingValid(r, q);
    assert !UniqueOperations(p.operations);
    if Worked(r, p, q, env.reply).Success? {
      assert Worked(r, p, q, env.reply).value.operations == p.operations;
    }
  }

  /** A call leaves a valid record valid, except for exactly that collision. */
  lemma StaysValid(r: Record, q: Request, env: Env)
    requires Inv(r) && Valid(r)
    ensures Valid(Serve(r, q, env).record) <==> !Collides(r, q, env)
  {
    if Unbound(env.mission, env.registered, r.projectId).None? && Admit(r, q) == Admitted && AsksWorker(q) {
      if Collides(r, q, env) {
        CollisionSticks(r, q, env);
      } else if q.CheckpointRequest? && exists o :: o in r.operations && o.requestId == q.id {
        assert ServeWorker(r, q, env).record == r;
      } else {
        WorkerValid(r, q, env);
      }
    }
  }

  /** A concrete collision: a mission started under request 7 takes a checkpoint with id 7. */
  lemma CollisionExample()
    ensures var started := Record(1, 2, "goal", Running, 3, Some(Binding("W", "w", None, true)), [], [], [],
                                  [Operation(7, Start, 1, Some(3), Succeeded)], 0);
      var env :=
        Env(Some(Mission(Some(2), false, "t")), true, None, Answered("w", None, true, "ref"), Written, Written,
            Written);
      var served := Serve(started, CheckpointRequest(1, 3, 7, "summary"), env);
      Inv(started) && Valid(started) && served.called && served.outcome == Threw(PersistenceFailure)
        && !Valid(served.record)
  {
    var o := Operation(7, Start, 1, Some(3), Succeeded);
    var started := Record(1, 2, "goal", Running, 3, Some(Binding("W", "w", None, true)), [], [], [], [o], 0);
    var env :=
      Env(Some(Mission(Some(2), false, "t")), true, None, Answered("w", None, true, "ref"), Written, Written, Written);
    var q := CheckpointRequest(1, 3, 7, "summary");
    assert Front([o]) == [] && Last([o]) == o;
    assert Inv(started) && Valid(started);
    assert o in started.operations;
    assert !HasPending(started.operations);
    assert Collides(started, q, env);
    CollisionSticks(started, q, env);
  }

  /** A live record that is not valid. */
  predicate Wedged(w: World, m: Id) {
    var k := IndexOf(w.records, m);
    k < |w.records| && !Valid(w.records[k])
  }

  lemma {:induction false} RecoveryAborts(base: seq<Record>, saved: seq<Record>, document: seq<Record>, i: nat,
                                          looks: seq<Look>, k: nat)
    requires i <= k < |document| == |saved| == |base| && !Valid(document[k]) && saved[k] == document[k]
    ensures var recovered := RecoverFrom(saved, document, i, looks);
      |recovered.0| == |saved| && recovered.0[k] == saved[k] && !recovered.1
    decreases |document| - i
  {
    if i < |looks| {
      var one := RecoverOne(saved, document, i, looks[i]);
      OneShape(saved, document, i, looks[i]);
      if one.goesOn {
        RecoveryAborts(base, one.saved, one.document, i + 1, looks, k);
      }
    }
  }

  lemma WedgedCall(w: World, q: Request, env: Env, m: Id)
    requires WorldInv(w) && Wedged(w, m)
    ensures var x := ServeCall(w, q, env).0; Wedged(x, m) && Ledger(x, m) == Ledger(w, m)
  {
    var k := IndexOf(w.records, q.missionId);
    if k < |w.records| {
      ServeFacts(w.records[k], q, env);
      SameIds(w.records, w.records[k := Serve(w.records[k], q, env).record], m);
    }
  }

  lemma WedgedReclaim(w: World, m: Id, archiving: ArchiveFate, fate: Fate)
    requires Wedged(w, m)
    ensures Reclaim(w, archiving, fate).world == w && Reclaim(w, archiving, fate).stop.Some?
  {
    assert w.records[IndexOf(w.records, m)] in w.records;
  }

  lemma WedgedEnsure(w: World, n: Id, goal: Option<string>, env: Env, archiving: ArchiveFate, m: Id)
    requires Wedged(w, m)
    ensures var x := Ensure(w, n, goal, env, archiving).0; Wedged(x, m) && Ledger(x, m) == Ledger(w, m)
  {
    var x, mission := Ensure(w, n, goal, env, archiving).0, MissionOf(w, n, env.mission);
    WedgedReclaim(w, m, archiving, env.first);
    EnsureShape(w, n, goal, env, archiving);
    if x != w {
      IndexAppend(w.records,
                  NewRecord(n, mission.value.projectId.value, if goal.Some? then goal.value else mission.value.title),
                    m);
    }
  }

  lemma WedgedRecover(w: World, looks: seq<Look>, m: Id)
    requires WorldInv(w) && Wedged(w, m)
    ensures var x := Apply(w, Recover(looks)); Wedged(x, m) && Ledger(x, m) == Ledger(w, m)
    ensures !RecoverFrom(w.records, w.records, 0, looks).1
  {
    RecoveryAborts(w.records, w.records, w.records, 0, looks, IndexOf(w.records, m));
    AlignedSelf(w.records);
    RecoverAligned(w.records, w.records, w.records, 0, looks);
    SameIds(w.records, Apply(w, Recover(looks)).records, m);
  }

  lemma WedgedStep(w: World, e: Event, m: Id)
    requires WorldInv(w) && Wedged(w, m)
    ensures Wedged(Apply(w, e), m) && Ledger(Apply(w, e), m) == Ledger(w, m)
  {
    match e
    case Call(q, env) => WedgedCall(w, q, env, m);
    case EnsureMission(missionId, goal, env, archiving) => WedgedEnsure(w, missionId, goal, env, archiving, m);
    case Recover(looks) => WedgedRecover(w, looks, m);
    case Retire(_, _) =>
  }

  /** A record that became invalid is never changed, archived or recovered again, and no recovery runs
      to its end while it is there. */
  lemma {:induction false} WedgedForever(w: World, events: seq<Event>, m: Id)
    requires WorldInv(w) && Wedged(w, m)
    ensures Wedged(Run(w, events), m) && Ledger(Run(w, events), m) == Ledger(w, m)
    ensures forall looks :: !RecoverFrom(Run(w, events).records, Run(w, events).records, 0, looks).1
    decreases |events|
  {
    if events == [] {
      forall looks ensures !RecoverFrom(w.records, w.records, 0, looks).1 {
        WedgedRecover(w, looks, m);
      }
    } else {
      WedgedStep(w, events[0], m);
      Step(w, events[0]);
      WedgedForever(Apply(w, events[0]), events[1..], m);
    }
  }

  // ---- what a worker request leaves ------------------------------------------------------

  function Receipt(r: Record, q: Request, status: Status): Operation {
    Operation(q.id, KindOf(q), r.revision, Some(r.revision + 2), status)
  }

  /** What the worker's answer to a request means for the mission. */
  ghost predicate Accomplished(r: Record, q: Request, reply: Reply, s: Record) {
    && s.missionId == r.missionId && s.projectId == r.projectId && s.goal == r.goal && s.evidence == r.evidence
    && match q
       case StartRequest(_, _, _, workerType) =>
         && s.state == Running && s.checkpoints == r.checkpoints && s.directives == r.directives
         && reply.Answered?
            && s.binding == Some(Binding(workerType, reply.workerId, reply.resumeToken, reply.resumable))
       case CheckpointRequest(_, _, id, content) =>
         && s.state == WaitingForSupervisor && s.directives == r.directives && s.binding == r.binding
         && reply.Answered?
            && s.checkpoints
               == r.checkpoints + [CheckpointEntry(id, |r.checkpoints| + 1, s.revision, reply.workerStateRef, content)]
       case ResumeRequest(_, _, _) =>
         && s.state == Running && s.checkpoints == r.checkpoints && r.binding.Some?
         && reply.Answered?
            && s.binding
               == Some(Binding(r.binding.value.workerType, reply.workerId, reply.resumeToken, reply.resumable))
         && exists k :: AppliesNewest(r.directives, s.directives, k)
       case _ =>
         && s.state == Cancelled && s.checkpoints == r.checkpoints && s.directives == r.directives
         && (r.binding.None? ==> s.binding.None?)
         && (r.binding.Some? ==> reply.Answered? && s.binding == Some(r.binding.value.(resumable := false)))
  }

  /** Exactly the newest directive that was not applied becomes applied. */
  predicate AppliesNewest(before: seq<Directive>, after: seq<Directive>, k: int) {
    && 0 <= k < |before| && !before[k].applied && (forall j :: k < j < |before| ==> before[j].applied)
    && after == before[k := before[k].(applied := true)]
  }

  lemma MarkedOne(directives: seq<Directive>, k: nat)
    requires k < |directives| && UniqueDirectives(directives)
    ensures MarkApplied(directives, directives[k].directiveId) == directives[k := directives[k].(applied := true)]
  {
  }

  lemma WorkedAccomplishes(r: Record, q: Request, reply: Reply)
    requires Valid(r) && AsksWorker(q) && Worked(r, Begin(r, q), q, reply).Success?
    ensures var done := Worked(r, Begin(r, q), q, reply).value;
      Accomplished(r, q, reply, done) && done.revision == r.revision + 2 && done.operations == Begin(r, q).operations
  {
    if q.ResumeRequest? && r.binding.Some? && LastAccepted(r.directives).Some? {
      var k := LastAccepted(r.directives).value;
      MarkedOne(r.directives, k);
      assert AppliesNewest(r.directives, Worked(r, Begin(r, q), q, reply).value.directives, k);
    }
  }

  lemma WorkedValid(r: Record, q: Request, reply: Reply)
    requires Valid(r) && Admit(r, q) == Admitted && AsksWorker(q) && Valid(Begin(r, q))
    requires Worked(r, Begin(r, q), q, reply).Success?
    ensures Valid(Worked(r, Begin(r, q), q, reply).value)
  {
    var done := Worked(r, Begin(r, q), q, reply).value;
    if q.CheckpointRequest? {
      assert forall c :: c in r.checkpoints ==> c.checkpointId != q.id;
    }
  }

  /** A worker request whose id is new ends in one of four ways: nothing was written; only the pending
      operation was; the operation failed; or it succeeded as the worker answered. It returns exactly
      when the worker did its part and both writes went through. */
  lemma FourOutcomes(r: Record, q: Request, env: Env)
    requires Inv(r) && Valid(r) && Admit(r, q) == Admitted && AsksWorker(q) && |r.operations| < MAX_OPERATIONS
    requires forall o :: o in r.operations ==> o.requestId != q.id
    ensures var s, worked := ServeWorker(r, q, env), Worked(r, Begin(r, q), q, env.reply);
      && (|| s.record == r || s.record == Begin(r, q) || s.record == FailedRecord(r, q)
          || (worked.Success? && s.record == SucceededRecord(r, q, worked.value)))
      && (s.outcome.Returned? <==> env.first == Written && worked.Success? && env.second == Written)
      && (s.outcome.Returned? ==>
            s.record == SucceededRecord(r, q, worked.value) && Accomplished(r, q, env.reply, s.record))
  {
    var p := Begin(r, q);
    PendingValid(r, q);
    if env.first == Written {
      var called := Calls(r, q, env.reply);
      match Worked(r, p, q, env.reply)
      case Failure(error) => FailedAs(r, q, called, env.third, error);
      case Success(done) =>
        WorkedAccomplishes(r, q, env.reply);
        WorkedValid(r, q, env.reply);
        SettledAs(r, q, done, called, env);
    }
  }

  function FailedRecord(r: Record, q: Request): Record {
    r.(state := LifecycleState.Failed, revision := r.revision + 2,
       operations := r.operations + [Receipt(r, q, Unsuccessful)])
  }

  function SucceededRecord(r: Record, q: Request, done: Record): Record {
    done.(operations := r.operations + [Receipt(r, q, Succeeded)])
  }

  lemma FinishedAs(r: Record, q: Request, status: Status, revision: nat)
    requires forall o :: o in r.operations ==> o.requestId != q.id
    ensures var ops := Begin(r, q).operations;
      CanFinish(ops, q.id)
        && FinishAll(ops, q.id, status, revision)
           == r.operations + [Operation(q.id, KindOf(q), r.revision, Some(revision), status)]
  {
    Appended(r.operations, Last(Begin(r, q).operations));
    FinishedLast(Begin(r, q).operations, q.id, status, revision);
  }

  lemma FailedAs(r: Record, q: Request, called: bool, fate: Fate, error: Error)
    requires Valid(Begin(r, q)) && forall o :: o in r.operations ==> o.requestId != q.id
    ensures var s := Fail(Begin(r, q), Begin(r, q), q, called, fate, error);
      (s.record == Begin(r, q) || s.record == FailedRecord(r, q)) && !s.outcome.Returned?
  {
    FinishedAs(r, q, Unsuccessful, r.revision + 2);
    FailShape(Begin(r, q), Begin(r, q), q, called, fate, error);
    FailReturnsNothing(Begin(r, q), Begin(r, q), q, called, fate, error);
  }

  lemma SucceededAs(r: Record, q: Request, done: Record)
    requires forall o :: o in r.operations ==> o.requestId != q.id
    requires done.operations == Begin(r, q).operations && done.revision == r.revision + 2
    ensures Finish(done, q.id, Succeeded) == Success(SucceededRecord(r, q, done))
    ensures !CanFinish(SucceededRecord(r, q, done).operations, q.id)
  {
    FinishedAs(r, q, Succeeded, r.revision + 2);
    FinishedOnce(done.operations, q.id, Succeeded, done.revision);
  }

  lemma SettledAs(r: Record, q: Request, done: Record, called: bool, env: Env)
    requires Valid(Begin(r, q)) && Valid(done) && (forall o :: o in r.operations ==> o.requestId != q.id)
    requires done.operations == Begin(r, q).operations && done.revision == r.revision + 2
    ensures var s := Settle(Begin(r, q), done, q, called, env);
      && (s.record == Begin(r, q) || s.record == FailedRecord(r, q) || s.record == SucceededRecord(r, q, done))
      && (s.outcome.Returned? <==> env.second == Written)
      && (s.outcome.Returned? ==> s.record == SucceededRecord(r, q, done))
  {
    var p, next := Begin(r, q), SucceededRecord(r, q, done);
    SucceededAs(r, q, done);
    if env.second == Refused {
      SettleRefused(p, done, q, called, env);
      if q.CheckpointRequest? {
        FailedAs(r, q, called, env.third, PersistenceFailure);
      } else {
        StaysFinished(next, p, q, called, env.third);
      }
    } else {
      SettleSaved(p, done, q, called, env);
    }
  }

  lemma SettleSaved(p: Record, done: Record, q: Request, called: bool, env: Env)
    requires Valid(done) && Finish(done, q.id, Succeeded).Success? && env.second != Refused
    ensures var next := Finish(done, q.id, Succeeded).value;
      Settle(p, done, q, called, env) == Save(p, next, called, env.second, Returned(next))
  {
  }

  lemma StaysFinished(next: Record, p: Record, q: Request, called: bool, fate: Fate)
    requires !CanFinish(next.operations, q.id)
    ensures var s := Fail(next, p, q, called, fate, PersistenceFailure); s.record == p && !s.outcome.Returned?
  {
  }

  // ---- a success that could not be saved -------------------------------------------------

  /** When the worker did its part and the store then refuses the result: a checkpoint is recorded as
      failed, but a start, resume or cancellation stays pending until the next restart, because its
      receipt was already marked as finished when the failure is to be recorded. */
  lemma RefusedSuccess(r: Record, q: Request, env: Env)
    requires Inv(r) && Valid(r) && Unbound(env.mission, env.registered, r.projectId).None?
    requires Admit(r, q) == Admitted && AsksWorker(q) && |r.operations| < MAX_OPERATIONS
    requires env.first == Written && env.second == Refused && env.third == Written
    requires Worked(r, Begin(r, q), q, env.reply).Success?
    requires Valid(Worked(r, Begin(r, q), q, env.reply).value)
    ensures var s := Serve(r, q, env);
      if q.CheckpointRequest? then s.record.state == LifecycleState.Failed && s.outcome == Threw(PersistenceFailure)
      else s.record == Begin(r, q) && s.outcome == Threw(InvalidRequest)
  {
    var p := Begin(r, q);
    var done := Worked(r, p, q, env.reply).value;
    SuccessBegan(r, q, env.reply);
    var next, called := Finish(done, q.id, Succeeded).value, Calls(r, q, env.reply);
    ServeSettles(r, q, env);
    SettleRefused(p, done, q, called, env);
    if q.CheckpointRequest? {
      PendingFails(r, q, env.reply, called);
    } else {
      FinishValid(done, q.id, Succeeded);
      RefusedOnce(next, p, q, called);
    }
  }

  lemma ServeSettles(r: Record, q: Request, env: Env)
    requires Valid(r) && Unbound(env.mission, env.registered, r.projectId).None?
    requires Admit(r, q) == Admitted && AsksWorker(q) && |r.operations| < MAX_OPERATIONS && env.first == Written
    requires Worked(r, Begin(r, q), q, env.reply).Success?
    ensures Serve(r, q, env)
      == Settle(Begin(r, q), Worked(r, Begin(r, q), q, env.reply).value, q, Calls(r, q, env.reply), env)
  {
  }

  lemma SettleRefused(p: Record, done: Record, q: Request, called: bool, env: Env)
    requires Valid(done) && Finish(done, q.id, Succeeded).Success? && env.second == Refused
    ensures Settle(p, done, q, called, env)
         == Fail(if q.CheckpointRequest? then p else Finish(done, q.id, Succeeded).value,
                 p, q, called, env.third, PersistenceFailure)
  {
  }

  lemma PendingFails(r: Record, q: Request, reply: Reply, called: bool)
    requires Inv(r) && Valid(r) && Admit(r, q) == Admitted && AsksWorker(q) && |r.operations| < MAX_OPERATIONS
    requires Worked(r, Begin(r, q), q, reply).Success? && Valid(Worked(r, Begin(r, q), q, reply).value)
    ensures var s := Fail(Begin(r, q), Begin(r, q), q, called, Written, PersistenceFailure);
      s.record.state == LifecycleState.Failed && s.outcome == Threw(PersistenceFailure)
  {
    BeginBegan(r, q);
    WorkedRecords(r, q, reply);
    FailedCheckpoint(Begin(r, q), q, called);
  }

  lemma RefusedOnce(next: Record, p: Record, q: Request, called: bool)
    requires Valid(next) && !CanFinish(next.operations, q.id)
    ensures Fail(next, p, q, called, Written, PersistenceFailure) == Served(p, called, Threw(InvalidRequest))
  {
  }

  lemma FailedCheckpoint(p: Record, q: Request, called: bool)
    requires Inv(p) && Open(p) && Last(p.operations).requestId == q.id && Valid(p)
    ensures var s := Fail(p, p, q, called, Written, PersistenceFailure);
      s.record.state == LifecycleState.Failed && s.outcome == Threw(PersistenceFailure)
  {
    FailedPending(p, q.id);
  }

  // ---- restart ---------------------------------------------------------------------------

  predicate Settled(r: Record, look: Look, s: Record) {
    Valid(r) && look.mission.Some?
      && (Unbound(look.mission, look.registered, r.projectId).None? ==> !HasPending(s.operations))
  }

  ghost predicate SettledUpTo(base: seq<Record>, looks: seq<Look>, records: seq<Record>, n: nat) {
    |records| == |base| && n <= |base| && n <= |looks| && forall j :: 0 <= j < n ==>
      Settled(base[j], looks[j], records[j])
  }

  lemma OneSettles(saved: seq<Record>, document: seq<Record>, i: nat, look: Look)
    requires i < |document| == |saved| && saved[i] == document[i] && Inv(document[i])
    requires RecoverOne(saved, document, i, look).goesOn
    ensures Settled(document[i], look, RecoverOne(saved, document, i, look).saved[i])
    ensures Settled(document[i], look, RecoverOne(saved, document, i, look).document[i])
  {
    var r := document[i];
    if RecoverRecord(r, look).Update? {
      RecoverFacts(r, look);
    } else if Terminal(r) {
      NothingPending(r.operations, r.revision);
    }
  }

  lemma NextSettled(base: seq<Record>, saved: seq<Record>, document: seq<Record>, i: nat, looks: seq<Look>)
    requires SettledUpTo(base, looks, saved, i) && SettledUpTo(base, looks, document, i) && i < |base| && i < |looks|
    requires saved[i] == base[i] && document[i] == base[i] && Inv(base[i])
    requires RecoverOne(saved, document, i, looks[i]).goesOn
    ensures var one := RecoverOne(saved, document, i, looks[i]);
      SettledUpTo(base, looks, one.saved, i + 1) && SettledUpTo(base, looks, one.document, i + 1)
  {
    OneShape(saved, document, i, looks[i]);
    OneSettles(saved, document, i, looks[i]);
  }

  /** What a complete recovery leaves: at every record whose project is still registered nothing is
      pending. */
  lemma {:induction false} RecoverySettles(base: seq<Record>, saved: seq<Record>, document: seq<Record>, i: nat,
                                           looks: seq<Look>)
    requires AllInv(base) && SettledUpTo(base, looks, saved, i) && SettledUpTo(base, looks, document, i)
    requires forall j :: i <= j < |base| ==> saved[j] == base[j] && document[j] == base[j]
    requires RecoverFrom(saved, document, i, looks).1
    ensures SettledUpTo(base, looks, RecoverFrom(saved, document, i, looks).0, |base|) == true
    decreases |document| - i
  {
    if i < |document| {
      var one := RecoverOne(saved, document, i, looks[i]);
      OneShape(saved, document, i, looks[i]);
      NextSettled(base, saved, document, i, looks);
      RecoverySettles(base, one.saved, one.document, i + 1, looks);
    }
  }

  /** A restart whose recovery runs to its end: every record was valid and its mission known, and where
      the project is still registered nothing is left pending. */
  lemma CompleteRecovery(w: World, looks: seq<Look>)
    requires WorldInv(w) && RecoverFrom(w.records, w.records, 0, looks).1
    ensures var x := Apply(w, Recover(looks));
      |looks| >= |w.records| == |x.records| && forall j :: 0 <= j < |w.records| ==>
        Settled(w.records[j], looks[j], x.records[j])
  {
    RecoverySettles(w.records, w.records, w.records, 0, looks);
  }

  // ---- retries ---------------------------------------------------------------------------

  /** The request found its mark in the record. */
  predicate Recorded(r: Record, q: Request) {
    match q
    case CheckpointRequest(_, _, id, content) => exists c ::
      c in r.checkpoints && c.checkpointId == id && c.content == content
    case DirectiveRequest(_, revision, id, directive) =>
      exists d :: d in r.directives && d.directiveId == id && d.basedOn == revision && d.directive == directive
    case EvidenceRequest(_, _, id, content) => Evidence(id, content) in r.evidence
    case _ => exists o :: o in r.operations && o.requestId == q.id && o.kind == KindOf(q) && o.status == Succeeded
  }

  lemma RecordedLasts(r: Record, s: Record, q: Request)
    requires Recorded(r, q) && Evolves(r, s)
    ensures Recorded(s, q)
  {
    match q
    case CheckpointRequest(_, _, _, _) =>
      var i :| 0 <= i < |r.checkpoints| && r.checkpoints[i].checkpointId == q.id
        && r.checkpoints[i].content == q.content;
      assert s.checkpoints[i] in s.checkpoints;
    case DirectiveRequest(_, _, _, _) =>
      var i :| 0 <= i < |r.directives| && r.directives[i].directiveId == q.id && r.directives[i].basedOn == q.revision
        && r.directives[i].directive == q.directive;
      assert s.directives[i] in s.directives;
    case EvidenceRequest(_, _, _, _) =>
    case _ =>
      var i :| 0 <= i < |r.operations| && r.operations[i].requestId == q.id && r.operations[i].kind == KindOf(q)
        && r.operations[i].status == Succeeded;
      assert s.operations[i] in s.operations;
  }

  lemma RecordedReplays(r: Record, q: Request)
    requires Valid(r) && Recorded(r, q)
    ensures Admit(r, q) == Replayed
  {
    match q
    case CheckpointRequest(_, _, _, _) =>
      var i :| 0 <= i < |r.checkpoints| && r.checkpoints[i].checkpointId == q.id
        && r.checkpoints[i].content == q.content;
      var c := FindCheckpoint(r.checkpoints, q.id).value;
      var j :| 0 <= j < |r.checkpoints| && r.checkpoints[j] == c;
    case DirectiveRequest(_, _, _, _) =>
      var i :| 0 <= i < |r.directives| && r.directives[i].directiveId == q.id && r.directives[i].basedOn == q.revision
        && r.directives[i].directive == q.directive;
      var d := FindDirective(r.directives, q.id).value;
      var j :| 0 <= j < |r.directives| && r.directives[j] == d;
    case EvidenceRequest(_, _, _, _) =>
      var i :| 0 <= i < |r.evidence| && r.evidence[i] == Evidence(q.id, q.content);
      var e := FindEvidence(r.evidence, q.id).value;
      var j :| 0 <= j < |r.evidence| && r.evidence[j] == e;
    case _ =>
      var i :| 0 <= i < |r.operations| && r.operations[i].requestId == q.id && r.operations[i].kind == KindOf(q)
        && r.operations[i].status == Succeeded;
      var o := FindOperation(r.operations, q.id).value;
      var j :| 0 <= j < |r.operations| && r.operations[j] == o;
  }

  lemma ReturnedIsRecorded(r: Record, q: Request, env: Env)
    requires Inv(r) && Valid(r) && Serve(r, q, env).outcome.Returned?
    ensures Recorded(Serve(r, q, env).record, q)
  {
    if Admit(r, q) == Admitted && AsksWorker(q) {
      SuccessRecorded(r, q, env);
    } else if Admit(r, q) == Admitted {
      AtOnceRecorded(r, q, env);
    } else {
      ReplayRecorded(r, q);
    }
  }

  lemma ReplayRecorded(r: Record, q: Request)
    requires Admit(r, q) == Replayed
    ensures Recorded(r, q)
  {
  }

  lemma AtOnceRecorded(r: Record, q: Request, env: Env)
    requires Admit(r, q) == Admitted && !AsksWorker(q) && ServeAtOnce(r, q, env).outcome.Returned?
    ensures Recorded(ServeAtOnce(r, q, env).record, q)
  {
    var s := AtOnce(r, q);
    assert q.DirectiveRequest? ==> s.directives[|r.directives|] in s.directives;
    assert q.EvidenceRequest? ==> s.evidence[|r.evidence|] in s.evidence;
    assert q.CompleteRequest? ==> s.operations[|r.operations|] in s.operations;
  }

  lemma FailReturnsNothing(current: Record, p: Record, q: Request, called: bool, fate: Fate, error: Error)
    ensures !Fail(current, p, q, called, fate, error).outcome.Returned?
  {
  }

  lemma SettleReturned(p: Record, done: Record, q: Request, called: bool, env: Env)
    requires Settle(p, done, q, called, env).outcome.Returned?
    ensures CanFinish(done.operations, q.id)
    ensures Settle(p, done, q, called, env).record == Finish(done, q.id, Succeeded).value
  {
    FailReturnsNothing(p, p, q, called, env.third, PersistenceFailure);
    if Valid(done) {
      if CanFinish(done.operations, q.id) {
        var next := Finish(done, q.id, Succeeded).value;
        FailReturnsNothing(next, p, q, called, env.third, PersistenceFailure);
      } else {
        FailReturnsNothing(p, p, q, called, env.third, InvalidRequest);
      }
    }
  }

  lemma ReturnedShape(r: Record, q: Request, env: Env)
    requires ServeWorker(r, q, env).outcome.Returned?
    ensures var worked := Worked(r, Begin(r, q), q, env.reply);
      worked.Success? && CanFinish(worked.value.operations, q.id)
        && ServeWorker(r, q, env).record == Finish(worked.value, q.id, Succeeded).value
  {
    var p, called := Begin(r, q), Calls(r, q, env.reply);
    match Worked(r, p, q, env.reply)
    case Failure(error) => FailReturnsNothing(p, p, q, called, env.third, error);
    case Success(done) => SettleReturned(p, done, q, called, env);
  }

  lemma WorkedRecords(r: Record, q: Request, reply: Reply)
    requires Worked(r, Begin(r, q), q, reply).Success? && AsksWorker(q)
    ensures var done := Worked(r, Begin(r, q), q, reply).value;
      && done.operations == Begin(r, q).operations
      && (q.CheckpointRequest? ==>
            exists c :: c in done.checkpoints && c.checkpointId == q.id && c.content == q.content)
  {
    var done := Worked(r, Begin(r, q), q, reply).value;
    if q.CheckpointRequest? {
      assert done.checkpoints[|r.checkpoints|] in done.checkpoints;
    }
  }

  lemma SuccessRecorded(r: Record, q: Request, env: Env)
    requires AsksWorker(q) && ServeWorker(r, q, env).outcome.Returned?
    ensures Recorded(ServeWorker(r, q, env).record, q)
  {
    var s := ServeWorker(r, q, env).record;
    ReturnedShape(r, q, env);
    WorkedRecords(r, q, env.reply);
    var o := s.operations[|r.operations|];
    assert o in s.operations && o.requestId == q.id && o.kind == KindOf(q) && o.status == Succeeded;
  }

  /** A request that was answered with the new record is answered again, at any later time, from the
      record as it is then: nothing is written and the worker is not called. */
  lemma RetryIsAnswered(r: Record, q: Request, env: Env, later: Record, env': Env)
    requires Inv(r) && Valid(r) && Serve(r, q, env).outcome.Returned?
    requires Evolves(Serve(r, q, env).record, later) && Valid(later)
    requires Unbound(env'.mission, env'.registered, later.projectId).None?
    ensures Serve(later, q, env') == Served(later, false, Returned(later))
  {
    ReturnedIsRecorded(r, q, env);
    RecordedLasts(Serve(r, q, env).record, later, q);
    RecordedReplays(later, q);
  }
}
