/** How each request is answered: which ones are let through, what those that ask no worker leave, and
    what becomes of an id that is already taken. */
module MissionAnswers {
  import opened Storage
  import opened Wrappers
  import opened MissionLifecycle
  import opened MissionRecord
  import opened MissionWorld
  import opened MissionHistory
  import opened MissionRuns
  import opened MissionArchive
  import opened MissionFaults

  // ---- which requests are let through ----------------------------------------------------

  /** The id already stands for something of the kind the request looks among. */
  ghost predicate Taken(r: Record, q: Request) {
    match q
    case CheckpointRequest(_, _, _, _) => exists c :: c in r.checkpoints && c.checkpointId == q.id
    case DirectiveRequest(_, _, _, _) => exists d :: d in r.directives && d.directiveId == q.id
    case EvidenceRequest(_, _, _, _) => exists e :: e in r.evidence && e.evidenceId == q.id
    case _ => exists o :: o in r.operations && o.requestId == q.id
  }

  /** The lifecycle: what a mission that is not busy may be asked next. */
  ghost predicate MayFollow(r: Record, q: Request) {
    match q
    case StartRequest(_, _, _, _) => r.state == Created
    case CheckpointRequest(_, _, _, _) => r.state == Running && r.binding.Some? && |r.checkpoints| < MAX_CHECKPOINTS
    case ResumeRequest(_, _, _) => r.state == WaitingForSupervisor && r.checkpoints != [] && exists d ::
      d in r.directives && !d.applied
    case CancelRequest(_, _, _) => r.state != Completed
    case CompleteRequest(_, _, _) => r.state == Running || r.state == WaitingForSupervisor
    case DirectiveRequest(_, _, _, _) => r.state == WaitingForSupervisor && |r.directives| < MAX_DIRECTIVES
    case EvidenceRequest(_, _, _, _) => |r.evidence| < MAX_EVIDENCE
  }

  lemma BusyIffPending(r: Record)
    requires Inv(r)
    ensures HasPending(r.operations) <==> Busy(r.state)
  {
    if Busy(r.state) {
      assert Last(r.operations) in r.operations;
    } else {
      NothingPending(r.operations, r.revision);
    }
  }

  lemma TakenIff(r: Record, q: Request)
    ensures Duplicate(r, q).Some? <==> Taken(r, q)
  {
  }

  lemma EligibleIff(r: Record, q: Request)
    requires Inv(r)
    ensures Ineligible(r, q).None? <==> MayFollow(r, q)
  {
    if q.ResumeRequest? && LastAccepted(r.directives).Some? {
      var k := LastAccepted(r.directives).value;
      assert r.directives[k] in r.directives;
    }
  }

  /** A request with an id that is not taken is let through exactly when no operation is under way, it
      expects the present revision, and the lifecycle allows it. */
  lemma AdmittedIff(r: Record, q: Request)
    requires Inv(r)
    ensures Admit(r, q) == Admitted <==> !Taken(r, q) && !Busy(r.state) && q.revision == r.revision && MayFollow(r, q)
  {
    BusyIffPending(r);
    TakenIff(r, q);
    EligibleIff(r, q);
  }

  // ---- requests that ask no worker -------------------------------------------------------

  /** What the request adds to the record, and that nothing else changes but the revision. */
  ghost predicate Noted(r: Record, q: Request, s: Record) {
    && s.revision == r.revision + 1 && s.missionId == r.missionId && s.projectId == r.projectId && s.goal == r.goal
    && s.checkpoints == r.checkpoints && s.probes == r.probes
    && (if q.DirectiveRequest?
        then s.directives == r.directives + [Directive(q.id, r.revision, q.directive, false)]
          else s.directives == r.directives)
    && (if q.EvidenceRequest? then s.evidence == r.evidence + [Evidence(q.id, q.content)] else s.evidence == r.evidence)
    && (if q.CompleteRequest?
        then s.state == Completed
          && s.operations == r.operations + [Operation(q.id, Complete, r.revision, Some(s.revision), Succeeded)]
             && (r.binding.None? <==> s.binding.None?)
                && (s.binding.Some? ==> s.binding.value == r.binding.value.(resumable := false))
        else s.state == r.state && s.operations == r.operations && s.binding == r.binding)
  }

  lemma NotedValid(r: Record, q: Request)
    requires Valid(r) && Admit(r, q) == Admitted && !AsksWorker(q)
    requires (q.CompleteRequest? ==> |r.operations| < MAX_OPERATIONS)
    ensures Valid(AtOnce(r, q))
  {
  }

  /** A directive, a piece of evidence or a completion that is let through never calls the worker. It is
      noted exactly when its one write persists and returns exactly when that went through; only a
      completion can still be refused, by a guard or for want of room, and then leaves the record alone. */
  lemma NotedOrNot(r: Record, q: Request, env: Env)
    requires Inv(r) && Valid(r) && Unbound(env.mission, env.registered, r.projectId).None?
    requires Admit(r, q) == Admitted && !AsksWorker(q)
    ensures var s := Serve(r, q, env);
      var refused := q.CompleteRequest? && (env.guard.Some? || |r.operations| >= MAX_OPERATIONS);
      && !s.called && (s.outcome.Returned? <==> !refused && env.first == Written)
      && (if !refused && Persists(env.first) then Noted(r, q, s.record) else s.record == r)
      && (q.CompleteRequest? && env.guard.Some? ==> s.outcome == Threw(env.guard.value))
  {
    if !(q.CompleteRequest? && (env.guard.Some? || |r.operations| >= MAX_OPERATIONS)) {
      NotedValid(r, q);
    }
  }

  // ---- what is returned and what stays refused -------------------------------------------

  lemma SettleReturnsNext(p: Record, done: Record, q: Request, called: bool, env: Env)
    ensures var s := Settle(p, done, q, called, env); s.outcome.Returned? ==> s.outcome == Returned(s.record)
  {
    FailReturnsNothing(p, p, q, called, env.third, PersistenceFailure);
    if Valid(done) {
      if CanFinish(done.operations, q.id) {
        FailReturnsNothing(Finish(done, q.id, Succeeded).value, p, q, called, env.third, PersistenceFailure);
      } else {
        FailReturnsNothing(p, p, q, called, env.third, InvalidRequest);
      }
    }
  }

  /** Whatever call returns a record returns the one that is stored from then on. */
  lemma ReturnsWhatIsStored(r: Record, q: Request, env: Env)
    ensures var s := Serve(r, q, env); s.outcome.Returned? ==> s.outcome == Returned(s.record)
  {
    if Admit(r, q) == Admitted && AsksWorker(q) && Valid(r) && Unbound(env.mission, env.registered, r.projectId).None? {
      var p, called := Begin(r, q), Calls(r, q, env.reply);
      if |r.operations| < MAX_OPERATIONS && env.first == Written {
        match Worked(r, p, q, env.reply)
        case Failure(error) => FailReturnsNothing(p, p, q, called, env.third, error);
        case Success(done) => SettleReturnsNext(p, done, q, called, env);
      }
    }
  }

  lemma FoundOperation(ops: seq<Operation>, o: Operation)
    requires UniqueOperations(ops) && o in ops
    ensures FindOperation(ops, o.requestId) == Some(o)
  {
    var p := FindOperation(ops, o.requestId).value;
    var i, j :| 0 <= i < |ops| && 0 <= j < |ops| && ops[i] == o && ops[j] == p;
  }

  /** An operation that failed stays failed: at any later time its request is refused as failed, and any
      other operation that reuses its id as invalid; the worker is not called and nothing is written. */
  lemma FailedStaysFailed(r: Record, o: Operation, later: Record, q: Request, env: Env)
    requires o in r.operations && o.status == Unsuccessful && Evolves(r, later) && Valid(later)
    requires Unbound(env.mission, env.registered, later.projectId).None?
    requires q.id == o.requestId && (q.StartRequest? || q.ResumeRequest? || q.CancelRequest? || q.CompleteRequest?)
    ensures Serve(later, q, env)
      == Served(later, false, Threw(if KindOf(q) == o.kind then AgentExecutionFailed else InvalidRequest))
  {
    var i :| 0 <= i < |r.operations| && r.operations[i] == o;
    assert later.operations[i] == o;
    FoundOperation(later.operations, o);
  }

  // ---- restart ---------------------------------------------------------------------------

  /** What the worker's status means for a mission that was not busy. */
  predicate StateFromStatus(r: Record, probe: Probe, state: LifecycleState)
    requires probe.Status?
  {
    var alive := probe.state == ProbeRunning;
    var resumable := probe.state == ProbeResumable || (probe.resumable && probe.state != ProbeFailed);
    && (state == Running <==> alive)
    && (state == WaitingForSupervisor <==> !alive && resumable && r.checkpoints != [])
    && (state == Ready <==> !alive && resumable && r.checkpoints == [])
    && (state == LifecycleState.Failed <==> !alive && !resumable)
  }

  lemma PendingIsLast(r: Record)
    requires Inv(r) && Busy(r.state)
    ensures FirstPending(r.operations) == Some(Last(r.operations))
  {
    assert Last(r.operations) in r.operations;
    OnlyLastPending(r.operations, Last(r.operations).basedOn);
  }

  /** The record of a busy mission after a restart. */
  function Interrupted(r: Record): Record
    requires r.operations != []
  {
    r.(state := LifecycleState.Failed, revision := r.revision + 1,
       operations := Front(r.operations)
         + [Last(r.operations).(status := Unsuccessful, result := Some(r.revision + 1))])
  }

  lemma InterruptedAs(r: Record)
    requires Inv(r) && Valid(r) && Busy(r.state)
    ensures Finish(r.(state := LifecycleState.Failed, revision := r.revision + 1), Last(r.operations).requestId,
                   Unsuccessful) == Success(Interrupted(r))
  {
    FinishedLast(r.operations, Last(r.operations).requestId, Unsuccessful, r.revision + 1);
  }

  lemma RestartFinishes(r: Record, look: Look, o: Operation)
    requires Valid(r) && Unbound(look.mission, look.registered, r.projectId).None? && Busy(r.state)
    requires FirstPending(r.operations) == Some(o)
    ensures var failed :=
      Finish(r.(state := LifecycleState.Failed, revision := r.revision + 1), o.requestId, Unsuccessful);
      failed.Success? ==> RecoverRecord(r, look) == Update(failed.value, false)
  {
  }

  lemma RestartOfBusy(r: Record, look: Look)
    requires Inv(r) && Valid(r) && Unbound(look.mission, look.registered, r.projectId).None? && Busy(r.state)
    ensures RecoverRecord(r, look) == Update(Interrupted(r), false)
  {
    PendingIsLast(r);
    InterruptedAs(r);
    RestartFinishes(r, look, Last(r.operations));
  }

  /** What a restart makes of a record of a registered project: a busy mission fails together with its
      last operation; one that has ended, has no worker, or whose worker gives no status is left alone;
      any other takes the state its worker's status stands for, and no worker operation is repeated. */
  lemma RestartOutcome(r: Record, look: Look)
    requires Inv(r) && Valid(r) && Unbound(look.mission, look.registered, r.projectId).None?
    ensures var x := RecoverRecord(r, look);
      if Busy(r.state) then x == Update(Interrupted(r), false)
      else if Terminal(r) || r.binding.None? || look.probe.NoStatus? then x == Untouched
      else x.Update? && StateFromStatus(r, look.probe, x.next.state) && x.next.operations == r.operations
           && x.next.checkpoints == r.checkpoints && x.next.directives == r.directives
              && x.next.revision == r.revision + 1
           && x.next.binding
              == Some(Binding(r.binding.value.workerType, look.probe.workerId, look.probe.resumeToken,
                              look.probe.resumable))
  {
    if Busy(r.state) {
      RestartOfBusy(r, look);
    } else {
      BusyIffPending(r);
      assert FirstPending(r.operations).None?;
    }
  }

  // ---- when the worker is called, and when a worker request succeeds ---------------------

  /** The worker has its part to do. */
  predicate NeedsWorker(r: Record, q: Request) {
    q.StartRequest? || r.binding.Some?
  }

  lemma WorkedIff(r: Record, q: Request, reply: Reply)
    requires Admit(r, q) == Admitted && AsksWorker(q)
    ensures Worked(r, Begin(r, q), q, reply).Success?
      <==> if NeedsWorker(r, q) then reply.Answered? else q.CancelRequest?
  {
  }

  /** A worker request that is let through, with a new id, returns exactly when both of its writes go
      through and the worker answers; a cancellation of a mission without a worker needs no answer. */
  lemma ReturnsIff(r: Record, q: Request, env: Env)
    requires Inv(r) && Valid(r) && Admit(r, q) == Admitted && AsksWorker(q) && |r.operations| < MAX_OPERATIONS
    requires forall o :: o in r.operations ==> o.requestId != q.id
    ensures ServeWorker(r, q, env).outcome.Returned?
      <==> && env.first == Written && env.second == Written
           && (if NeedsWorker(r, q) then env.reply.Answered? else q.CancelRequest?)
  {
    FourOutcomes(r, q, env);
    WorkedIff(r, q, env.reply);
  }

  // ---- what stays pending ----------------------------------------------------------------

  lemma FailsFully(r: Record, q: Request, called: bool, fate: Fate, error: Error)
    requires Inv(r) && Valid(r) && Admit(r, q) == Admitted && AsksWorker(q) && |r.operations| < MAX_OPERATIONS
    requires (forall o :: o in r.operations ==> o.requestId != q.id) && Persists(fate)
    ensures Fail(Begin(r, q), Begin(r, q), q, called, fate, error).record == FailedRecord(r, q)
  {
    PendingValid(r, q);
    FinishedAs(r, q, Unsuccessful, r.revision + 2);
    assert Valid(Begin(r, q).(state := LifecycleState.Failed, revision := r.revision + 2));
  }

  lemma SettlesPending(r: Record, q: Request, done: Record, called: bool, env: Env)
    requires Inv(r) && Valid(r) && Admit(r, q) == Admitted && AsksWorker(q) && |r.operations| < MAX_OPERATIONS
    requires Valid(done)
    requires (forall o :: o in r.operations ==> o.requestId != q.id) && Persists(env.third)
    requires done.operations == Begin(r, q).operations && done.revision == r.revision + 2
    ensures Settle(Begin(r, q), done, q, called, env).record == Begin(r, q)
      <==> env.second == CrashBefore || (env.second == Refused && !q.CheckpointRequest?)
  {
    var p := Begin(r, q);
    SucceededAs(r, q, done);
    if env.second == Refused {
      SettleRefused(p, done, q, called, env);
      if q.CheckpointRequest? {
        FailsFully(r, q, called, env.third, PersistenceFailure);
      } else {
        StaysFinished(SucceededRecord(r, q, done), p, q, called, env.third);
      }
    } else {
      SettleSaved(p, done, q, called, env);
    }
  }

  /** Exactly when a worker request stays pending after its pending operation was written, although marking
      a failure would persist: the worker did its part, and then the process died before the result was
      written, or the store refused the result of anything but a checkpoint. */
  lemma StaysPendingIff(r: Record, q: Request, env: Env)
    requires Inv(r) && Valid(r) && Admit(r, q) == Admitted && AsksWorker(q) && |r.operations| < MAX_OPERATIONS
    requires (forall o :: o in r.operations ==> o.requestId != q.id) && env.first == Written && Persists(env.third)
    ensures ServeWorker(r, q, env).record == Begin(r, q)
      <==> && (if NeedsWorker(r, q) then env.reply.Answered? else q.CancelRequest?)
           && (env.second == CrashBefore || (env.second == Refused && !q.CheckpointRequest?))
  {
    WorkedIff(r, q, env.reply);
    PendingValid(r, q);
    var called := Calls(r, q, env.reply);
    match Worked(r, Begin(r, q), q, env.reply)
    case Failure(error) => FailsFully(r, q, called, env.third, error);
    case Success(done) =>
      WorkedAccomplishes(r, q, env.reply);
      WorkedValid(r, q, env.reply);
      SettlesPending(r, q, done, called, env);
  }

  /** A concrete case: the worker starts a mission, the store refuses the result, and the mission stays
      resuming, with a start that is pending until the next restart. */
  lemma StaysPendingExample()
    ensures var created := NewRecord(1, 2, "goal");
      var env :=
        Env(Some(Mission(Some(2), false, "t")), true, None, Answered("w", None, true, "ref"), Written, Refused,
            Written);
      var served := Serve(created, StartRequest(1, 1, 7, "W"), env);
      && served.called && served.outcome == Threw(InvalidRequest) && served.record.state == Resuming
      && served.record.operations == [Operation(7, Start, 1, None, Pending)]
  {
    var created := NewRecord(1, 2, "goal");
    var env :=
      Env(Some(Mission(Some(2), false, "t")), true, None, Answered("w", None, true, "ref"), Written, Refused, Written);
    var q := StartRequest(1, 1, 7, "W");
    NewRecordInv(1, 2, "goal");
    WorkedAccomplishes(created, q, env.reply);
    PendingValid(created, q);
    WorkedValid(created, q, env.reply);
    RefusedSuccess(created, q, env);
    CalledIff(created, q, env);
  }

  /** The worker is called exactly for a worker request that is let through on a mission of a registered
      project, after its pending operation was written, when there is a worker to call. */
  lemma CalledIff(r: Record, q: Request, env: Env)
    requires Valid(r)
    ensures Serve(r, q, env).called
      <==> && env.mission.Some? && env.mission.value.projectId == Some(r.projectId) && env.registered
           && Admit(r, q) == Admitted && AsksWorker(q) && |r.operations| < MAX_OPERATIONS && env.first == Written
           && NeedsWorker(r, q) && !env.reply.NoAdapter?
  {
    AfterBeginCalls(r, Begin(r, q), q, env);
  }

  /** Nothing is changed or returned for a mission that is unknown, of another project, or of a project
      that is not registered. */
  lemma OnlyBoundMissions(r: Record, q: Request, env: Env)
    requires !(env.mission.Some? && env.mission.value.projectId == Some(r.projectId) && env.registered)
    ensures var s := Serve(r, q, env); s.record == r && !s.called && s.outcome.Threw?
  {
  }

  // ---- missions that lost their project --------------------------------------------------

  /** The event finds the mission unknown, of another project, or of one that is not registered. */
  predicate FindsUnbound(w: World, e: Event, m: Id, projectId: Id) {
    match e
    case Call(q, env) => q.missionId == m ==> Unbound(env.mission, env.registered, projectId).Some?
    case Recover(looks) =>
      var k := IndexOf(w.records, m);
      k < |looks| ==> Unbound(looks[k].mission, looks[k].registered, projectId).Some?
    case _ => true
  }

  predicate StaysUnbound(w: World, events: seq<Event>, m: Id, projectId: Id)
    decreases |events|
  {
    events != [] ==>
      FindsUnbound(w, events[0], m, projectId) && StaysUnbound(Apply(w, events[0]), events[1..], m, projectId)
  }

  lemma {:induction false} RecoverLeaves(saved: seq<Record>, document: seq<Record>, i: nat, looks: seq<Look>, k: nat)
    requires i <= |document| == |saved| && k < |document| && saved[k] == document[k]
    requires k < |looks| ==> !RecoverRecord(document[k], looks[k]).Update?
    ensures k < |RecoverFrom(saved, document, i, looks).0| && RecoverFrom(saved, document, i, looks).0[k] == saved[k]
    decreases |document| - i
  {
    if i < |document| && i < |looks| {
      var one := RecoverOne(saved, document, i, looks[i]);
      OneShape(saved, document, i, looks[i]);
      if one.goesOn {
        RecoverLeaves(one.saved, one.document, i + 1, looks, k);
      }
    }
  }

  lemma CallLeaves(w: World, q: Request, env: Env, m: Id)
    requires WorldInv(w) && Ledger(w, m).Some? && FindsUnbound(w, Call(q, env), m, Ledger(w, m).value.projectId)
    ensures var x := ServeCall(w, q, env).0;
      Ledger(x, m) == Ledger(w, m)
        && (x.calls == w.calls || exists c: WorkerCall :: c.missionId != m && x.calls == w.calls + [c])
  {
    var k := IndexOf(w.records, q.missionId);
    if k < |w.records| {
      var s := Serve(w.records[k], q, env);
      CallKeepsIds(w, q, env, m);
      if q.missionId == m {
        OnlyBoundMissions(w.records[k], q, env);
      } else if s.called {
        assert WorkerCall(q.missionId, KindOf(q), q.id).missionId != m;
      }
    }
  }

  lemma RecoveryLeaves(w: World, looks: seq<Look>, m: Id)
    requires WorldInv(w) && Ledger(w, m).Some? && FindsUnbound(w, Recover(looks), m, Ledger(w, m).value.projectId)
    ensures Ledger(Apply(w, Recover(looks)), m) == Ledger(w, m)
  {
    var k := IndexOf(w.records, m);
    RecoverKeepsIds(w, looks, m);
    if k < |w.records| {
      RecoverLeaves(w.records, w.records, 0, looks, k);
    }
  }

  lemma EnsureLeaves(w: World, e: Event, m: Id)
    requires WorldInv(w) && Ledger(w, m).Some? && e.EnsureMission?
    ensures Ledger(Apply(w, e), m) == Ledger(w, m) && Apply(w, e).calls == w.calls
  {
    EnsureKeepsLedger(w, e, m);
    EnsureCallsNobody(w, e.missionId, e.goal, e.env, e.archiving);
  }

  lemma UnboundStep(w: World, e: Event, m: Id)
    requires WorldInv(w) && Ledger(w, m).Some? && FindsUnbound(w, e, m, Ledger(w, m).value.projectId)
    ensures var x := Apply(w, e);
      Ledger(x, m) == Ledger(w, m)
        && (x.calls == w.calls || exists c: WorkerCall :: c.missionId != m && x.calls == w.calls + [c])
  {
    match e
    case Call(q, env) => CallLeaves(w, q, env, m);
    case Recover(looks) => RecoveryLeaves(w, looks, m);
    case EnsureMission(_, _, _, _) => EnsureLeaves(w, e, m);
    case Retire(_, _) =>
  }

  /** A mission whose project is gone is frozen: over every run in which it is found unknown, of another
      project or of one that is not registered, its record never changes, through calls, restarts, crashes
      and archiving, and its worker is never called. */
  lemma {:induction false} UnboundIsFrozen(w: World, events: seq<Event>, m: Id)
    requires WorldInv(w) && Ledger(w, m).Some? && StaysUnbound(w, events, m, Ledger(w, m).value.projectId)
    ensures Ledger(Run(w, events), m) == Ledger(w, m)
    ensures forall c :: c in Run(w, events).calls && c.missionId == m ==> c in w.calls
    decreases |events|
  {
    if events != [] {
      UnboundStep(w, events[0], m);
      Step(w, events[0]);
      UnboundIsFrozen(Apply(w, events[0]), events[1..], m);
    }
  }
}
