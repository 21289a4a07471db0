/** Approvals over every interleaving of the calls in flight. */
module ApprovalSafety {
  import opened Wrappers
  import opened Approvals

  // ---- what a call has left in the log -----------------------------------------------------

  function TraceOf(log: seq<LogEntry>, i: nat): seq<What> {
    if log == [] then []
    else
      var last := log[|log| - 1];
      TraceOf(log[..|log| - 1], i) + (if last.call == i then [last.what] else [])
  }

  /** What a call must have left so far, by where it is. */
  function Expected(c: Call): seq<What> {
    match c
    case Authorizing(_, _) => [WasDecided]
    case Running(_) => [WasDecided, Ran]
    case Recording(_) => [WasDecided, Ran]
    case Ended(trace) => trace
    case _ => []
  }

  /** A run comes right after the record of its decision, and the record of its outcome right after it;
      the outcome is missing only while the run or that record is under way, or when the append failed. */
  predicate Bracketed(trace: seq<What>) {
    || trace == [] || trace == [WasDenied] || trace == [WasPending] || trace == [WasDecided]
    || trace == [WasDecided, Ran] || trace == [WasDecided, Ran, Succeeded] || trace == [WasDecided, Ran, Failed]
  }

  // ---- the invariant -----------------------------------------------------------------------

  predicate GoodOrigin(claims: map<Id, nat>, i: nat, operation: Operation, origin: Origin) {
    if origin.Direct? then origin.decision.verdict == Allow || origin.decision.verdict == AllowOnce
    else
      && origin.id in claims && claims[origin.id] == i
      && !origin.choice.ChooseDeny? && origin.claimedAt < origin.entry.expiresAt
      && origin.reevaluated.verdict != Deny && SameAction(origin.reevaluated, origin.entry.view)
      && operation == origin.entry.operation
  }

  predicate GoodCall(claims: map<Id, nat>, i: nat, c: Call) {
    && Bracketed(Expected(c))
    && match c
       case Claimed(id, entry, _, claimedAt) => id in claims && claims[id] == i && claimedAt < entry.expiresAt
       case Deciding(operation, origin) => GoodOrigin(claims, i, operation, origin)
       case Authorizing(operation, origin) => GoodOrigin(claims, i, operation, origin)
       case _ => true
  }

  ghost predicate CallsInv(s: System) {
    forall i :: 0 <= i < |s.calls| ==> GoodCall(s.claims, i, s.calls[i]) && TraceOf(s.log, i) == Expected(s.calls[i])
  }

  ghost predicate RunsInv(s: System) {
    && (forall k :: 0 <= k < |s.runs| ==> RunInv(s, s.runs[k]))
    && (forall k, l :: 0 <= k < l < |s.runs| ==> s.runs[k].call != s.runs[l].call)
  }

  predicate RunInv(s: System, r: RunRecord) {
    r.call < |s.calls| && Ran in Expected(s.calls[r.call]) && GoodOrigin(s.claims, r.call, r.operation, r.origin)
  }

  predicate QueueInv(s: System) {
    && |s.pending| <= MAX_PENDING_APPROVALS
    && (forall id :: id in s.pending ==> id < s.nextId && id !in s.claims)
    && (forall id :: id in s.claims ==> id < s.nextId)
  }

  ghost predicate Inv(s: System) {
    && QueueInv(s) && CallsInv(s) && RunsInv(s)
    && (forall e :: e in s.log ==> e.call < |s.calls|)
  }

  // ---- changes of the system ---------------------------------------------------------------

  lemma TraceAdd(log: seq<LogEntry>, e: LogEntry, i: nat)
    ensures TraceOf(log + [e], i) == TraceOf(log, i) + (if e.call == i then [e.what] else [])
  {
    assert (log + [e])[..|log|] == log;
  }

  lemma {:induction false} NoTrace(log: seq<LogEntry>, i: nat)
    requires forall e :: e in log ==> e.call != i
    ensures TraceOf(log, i) == []
    decreases |log|
  {
    if log != [] {
      NoTrace(log[..|log| - 1], i);
    }
  }

  /** One call moves on without a log entry or a claim. */
  lemma Moved(s: System, i: nat, c: Call)
    requires Inv(s) && i < |s.calls| && GoodCall(s.claims, i, c) && Expected(c) == Expected(s.calls[i])
    ensures Inv(Goto(s, i, c))
  {
    var x := Goto(s, i, c);
    forall k | 0 <= k < |x.runs| ensures RunInv(x, x.runs[k]) {
      assert RunInv(s, s.runs[k]);
    }
  }

  /** One call leaves a log entry that is not a run, and moves on. */
  lemma Logged(s: System, i: nat, what: What, c: Call)
    requires Inv(s) && i < |s.calls| && GoodCall(s.claims, i, c) && Expected(c) == Expected(s.calls[i]) + [what]
    ensures Inv(Goto(Write(s, i, what), i, c))
  {
    var x := Goto(Write(s, i, what), i, c);
    forall j | 0 <= j < |x.calls| ensures TraceOf(x.log, j) == Expected(x.calls[j]) {
      TraceAdd(s.log, LogEntry(i, what), j);
    }
    forall k | 0 <= k < |x.runs| ensures RunInv(x, x.runs[k]) {
      assert RunInv(s, s.runs[k]);
    }
  }

  /** The queue shrinks, or gets a new entry with the next id. */
  lemma QueueChanged(s: System, pending: map<Id, Entry>, nextId: Id)
    requires Inv(s) && s.nextId <= nextId && |pending| <= MAX_PENDING_APPROVALS
    requires forall id :: id in pending ==> id in s.pending || s.nextId <= id < nextId
    ensures Inv(s.(pending := pending, nextId := nextId))
  {
    var x := s.(pending := pending, nextId := nextId);
    forall k | 0 <= k < |x.runs| ensures RunInv(x, x.runs[k]) {
      assert RunInv(s, s.runs[k]);
    }
  }

  lemma StepLog(s: System, i: nat, what: What, reply: Reply, next: Call, failed: seq<What>)
    requires Inv(s) && i < |s.calls| && GoodCall(s.claims, i, next) && Expected(next) == Expected(s.calls[i]) + [what]
    requires failed == Expected(s.calls[i]) && Bracketed(failed)
    ensures Inv(Audit(s, i, what, reply, next, failed))
  {
    if reply.Done? {
      Logged(s, i, what, next);
    } else {
      Moved(s, i, Ended(failed));
    }
  }

  lemma PrunedKeeps(s: System)
    requires Inv(s)
    ensures Inv(s.(pending := Pruned(s.pending, s.now)))
  {
    QueueChanged(s, Pruned(s.pending, s.now), s.nextId);
    assert s.(pending := Pruned(s.pending, s.now)) == s.(pending := Pruned(s.pending, s.now), nextId := s.nextId);
  }

  lemma AddedSize(m: map<Id, Entry>, id: Id, e: Entry)
    ensures |m[id := e]| <= |m| + 1
  {
    assert m[id := e].Keys == m.Keys + {id};
  }

  lemma QueuedKeeps(s: System, i: nat, operation: Operation, d: Decision)
    requires Inv(s) && i < |s.calls| && s.calls[i] == Executing(operation) && d.verdict == OwnerRequired
    ensures Inv(StepExecuting(s, i, operation, Evaluated(d)))
  {
    var kept := Pruned(s.pending, s.now);
    var e := Entry(d, operation, s.now + APPROVAL_TTL);
    if |kept| >= MAX_PENDING_APPROVALS {
      PrunedKeeps(s);
      Moved(s.(pending := kept), i, Ended([]));
    } else {
      AddedSize(kept, s.nextId, e);
      QueueChanged(s, kept[s.nextId := e], s.nextId + 1);
      Moved(s.(pending := kept[s.nextId := e], nextId := s.nextId + 1), i, if operation.mission then Marking(s.nextId)
            else Announcing);
    }
  }

  lemma ExecutingKeeps(s: System, i: nat, operation: Operation, reply: Reply)
    requires Inv(s) && i < |s.calls| && s.calls[i] == Executing(operation)
    ensures Inv(StepExecuting(s, i, operation, reply))
  {
    if !reply.Evaluated? {
      Moved(s, i, Ended([]));
    } else if reply.decision.verdict == OwnerRequired {
      QueuedKeeps(s, i, operation, reply.decision);
    } else {
      Moved(s, i, if reply.decision.verdict == Deny then Denying else Deciding(operation, Direct(reply.decision)));
    }
  }

  /** A claim is new, so no call or run depends on another claim of the same approval. */
  lemma ClaimedOnce(s: System, i: nat, id: Id)
    requires Inv(s) && id !in s.claims
    ensures CallsInv(s.(claims := s.claims[id := i])) && RunsInv(s.(claims := s.claims[id := i]))
  {
    var x := s.(claims := s.claims[id := i]);
    forall k | 0 <= k < |x.runs| ensures RunInv(x, x.runs[k]) {
      assert RunInv(s, s.runs[k]);
    }
    forall j | 0 <= j < |x.calls| ensures GoodCall(x.claims, j, x.calls[j]) {
      assert GoodCall(s.claims, j, s.calls[j]);
    }
  }

  lemma ClaimAdded(s: System, i: nat, id: Id, choice: Choice)
    requires Inv(s) && i < |s.calls| && id in s.pending && s.pending[id].expiresAt > s.now && Expected(s.calls[i]) == []
    ensures Inv(Goto(s.(pending := s.pending - {id}, claims := s.claims[id := i]), i,
                     Claimed(id, s.pending[id], choice, s.now)))
  {
    var x := s.(pending := s.pending - {id}, claims := s.claims[id := i]);
    Fewer(x.pending, s.pending);
    ClaimedOnce(s, i, id);
    forall k | 0 <= k < |x.runs| ensures RunInv(x, x.runs[k]) {
      assert RunInv(s.(claims := s.claims[id := i]), s.runs[k]);
    }
    assert CallsInv(x) && RunsInv(x) && QueueInv(x);
    Moved(x, i, Claimed(id, s.pending[id], choice, s.now));
  }

  lemma ResolvingKeeps(s: System, i: nat, id: Id, choice: Choice, originating: bool, reply: Reply)
    requires Inv(s) && i < |s.calls| && s.calls[i] == Resolving(id, choice, originating)
    ensures Inv(StepResolving(s, i, id, choice, originating, reply))
  {
    PrunedKeeps(s);
    var pruned := s.(pending := Pruned(s.pending, s.now));
    if id !in pruned.pending || (originating && reply.NotEntitled?) {
      Moved(pruned, i, Ended([]));
    } else {
      ClaimAdded(pruned, i, id, choice);
    }
  }

  lemma ClaimedKeeps(s: System, i: nat, id: Id, entry: Entry, choice: Choice, claimedAt: nat, reply: Reply)
    requires Inv(s) && i < |s.calls| && s.calls[i] == Claimed(id, entry, choice, claimedAt)
    ensures Inv(StepClaimed(s, i, id, entry, choice, claimedAt, reply))
  {
    assert GoodCall(s.claims, i, s.calls[i]);
    var x := StepClaimed(s, i, id, entry, choice, claimedAt, reply);
    assert x == Goto(s, i, x.calls[i]);
    Moved(s, i, x.calls[i]);
  }

  /** The run itself. */
  lemma RunKeeps(s: System, i: nat, operation: Operation, origin: Origin)
    requires Inv(s) && i < |s.calls| && s.calls[i] == Authorizing(operation, origin)
    ensures Inv(Goto(Write(s, i, Ran), i, Running(operation)).(runs := s.runs + [RunRecord(i, operation, origin)]))
  {
    assert GoodCall(s.claims, i, s.calls[i]);
    Logged(s, i, Ran, Running(operation));
    var y := Goto(Write(s, i, Ran), i, Running(operation));
    var x := y.(runs := s.runs + [RunRecord(i, operation, origin)]);
    forall k | 0 <= k < |x.runs| ensures RunInv(x, x.runs[k]) {
      if k < |s.runs| {
        assert RunInv(y, y.runs[k]);
      }
    }
    forall k | 0 <= k < |s.runs| ensures s.runs[k].call != i {
      assert RunInv(s, s.runs[k]);
    }
  }

  lemma MarkingKeeps(s: System, i: nat, id: Id, reply: Reply)
    requires Inv(s) && i < |s.calls| && s.calls[i] == Marking(id)
    ensures Inv(Step(s, i, reply))
  {
    if reply.Done? {
      Moved(s, i, Announcing);
    } else {
      Fewer(s.pending - {id}, s.pending);
      QueueChanged(s, s.pending - {id}, s.nextId);
      Moved(s.(pending := s.pending - {id}, nextId := s.nextId), i, Ended([]));
    }
  }

  lemma StepKeeps(s: System, i: nat, reply: Reply)
    requires Inv(s) && i < |s.calls|
    ensures Inv(Step(s, i, reply))
  {
    assert GoodCall(s.claims, i, s.calls[i]);
    match s.calls[i]
    case Executing(operation) => ExecutingKeeps(s, i, operation, reply);
    case Denying => StepLog(s, i, WasDenied, reply, Ended([WasDenied]), []);
    case Marking(id) => MarkingKeeps(s, i, id, reply);
    case Announcing => StepLog(s, i, WasPending, reply, Ended([WasPending]), []);
    case Resolving(id, choice, originating) => ResolvingKeeps(s, i, id, choice, originating, reply);
    case Claimed(id, entry, choice, claimedAt) => ClaimedKeeps(s, i, id, entry, choice, claimedAt, reply);
    case Deciding(operation, origin) => StepLog(s, i, WasDecided, reply, Authorizing(operation, origin), []);
    case Authorizing(operation, origin) =>
      if reply.Done? {
        RunKeeps(s, i, operation, origin);
      } else {
        Moved(s, i, Ended([WasDecided]));
      }
    case Running(_) => Moved(s, i, Recording(!reply.Threw?));
    case Recording(succeeded) =>
      var what := if succeeded then Succeeded else Failed;
      StepLog(s, i, what, reply, Ended([WasDecided, Ran, what]), [WasDecided, Ran]);
    case Ended(_) =>
  }

  lemma SpawnedCalls(s: System, c: Call)
    requires CallsInv(s) && (forall e :: e in s.log ==> e.call < |s.calls|) && (c.Executing? || c.Resolving?)
    ensures CallsInv(s.(calls := s.calls + [c]))
  {
    NoTrace(s.log, |s.calls|);
  }

  lemma SpawnedRuns(s: System, c: Call)
    requires RunsInv(s)
    ensures RunsInv(s.(calls := s.calls + [c]))
  {
    var x := s.(calls := s.calls + [c]);
    forall k | 0 <= k < |x.runs| ensures RunInv(x, x.runs[k]) {
      assert RunInv(s, s.runs[k]);
    }
  }

  lemma Spawned(s: System, c: Call)
    requires Inv(s) && (c.Executing? || c.Resolving?)
    ensures Inv(s.(calls := s.calls + [c]))
  {
    SpawnedCalls(s, c);
    SpawnedRuns(s, c);
  }

  lemma EventKeeps(s: System, e: Event)
    requires Inv(s)
    ensures Inv(Apply(s, e))
  {
    match e
    case Execute(operation) => Spawned(s, Executing(operation));
    case Resolve(id, choice, originating) =>
      PrunedKeeps(s);
      Spawned(s.(pending := Pruned(s.pending, s.now)), Resolving(id, choice, originating));
    case List => PrunedKeeps(s);
    case Tick(elapsed) =>
      var x := s.(now := s.now + elapsed);
      forall k | 0 <= k < |x.runs| ensures RunInv(x, x.runs[k]) {
        assert RunInv(s, s.runs[k]);
      }
    case Resume(i, reply) =>
      if i < |s.calls| {
        StepKeeps(s, i, reply);
      }
  }

  lemma {:induction false} AllRunsKeep(s: System, events: seq<Event>)
    requires Inv(s)
    ensures Inv(Run(s, events))
    decreases |events|
  {
    if events != [] {
      EventKeeps(s, events[0]);
      AllRunsKeep(Apply(s, events[0]), events[1..]);
    }
  }

  // ---- results -----------------------------------------------------------------------------

  /** An approval leads to at most one run. */
  lemma ApprovalRunsAtMostOnce(s: System, events: seq<Event>, k: nat, l: nat)
    requires Init(s) && k < |Run(s, events).runs| && l < |Run(s, events).runs|
    requires var runs := Run(s, events).runs;
      runs[k].origin.Approved? && runs[l].origin.Approved? && runs[k].origin.id == runs[l].origin.id
    ensures k == l
  {
    AllRunsKeep(s, events);
    assert RunInv(Run(s, events), Run(s, events).runs[k]) && RunInv(Run(s, events), Run(s, events).runs[l]);
  }

  /** What runs on an approval is the operation that was queued, was claimed before it expired, was not
      denied, and was re-evaluated as the same capability, project, target, workspace, resource and
      effects. */
  lemma RunsAreApproved(s: System, events: seq<Event>, r: RunRecord)
    requires Init(s) && r in Run(s, events).runs && r.origin.Approved?
    ensures r.operation == r.origin.entry.operation && r.origin.claimedAt < r.origin.entry.expiresAt
    ensures !r.origin.choice.ChooseDeny?
    ensures var d, shown := r.origin.reevaluated, r.origin.entry.view;
      && d.verdict != Deny && d.capabilityId == shown.capabilityId && d.projectId == shown.projectId
         && d.target == shown.target
      && d.workspaceId == shown.workspaceId && d.resourceId == shown.resourceId
         && Effects(d.effects) == Effects(shown.effects)
  {
    AllRunsKeep(s, events);
    var k :| 0 <= k < |Run(s, events).runs| && Run(s, events).runs[k] == r;
    assert RunInv(Run(s, events), Run(s, events).runs[k]);
  }

  /** What runs without an approval is what the policy allowed. */
  lemma DirectRunsAreAllowed(s: System, events: seq<Event>, r: RunRecord)
    requires Init(s) && r in Run(s, events).runs && r.origin.Direct?
    ensures r.origin.decision.verdict == Allow || r.origin.decision.verdict == AllowOnce
  {
    AllRunsKeep(s, events);
    var k :| 0 <= k < |Run(s, events).runs| && Run(s, events).runs[k] == r;
    assert RunInv(Run(s, events), Run(s, events).runs[k]);
  }

  /** Every run of every call stands between its decision record and its one outcome record; a call runs
      at most once; and the queue never exceeds its bound. */
  lemma RunsAreBracketed(s: System, events: seq<Event>, i: nat)
    requires Init(s) && i < |Run(s, events).calls|
    ensures var x := Run(s, events);
      && Bracketed(TraceOf(x.log, i)) && |x.pending| <= MAX_PENDING_APPROVALS
      && (forall k, l :: 0 <= k < l < |x.runs| ==> x.runs[k].call != x.runs[l].call)
      && (forall r :: r in x.runs && r.call == i ==> Ran in TraceOf(x.log, i))
  {
    AllRunsKeep(s, events);
    var x := Run(s, events);
    forall r | r in x.runs && r.call == i ensures Ran in TraceOf(x.log, i) {
      var k :| 0 <= k < |x.runs| && x.runs[k] == r;
      assert RunInv(x, x.runs[k]);
    }
  }

  /** What lets a claimed approval through to its run. */
  predicate Approves(entry: Entry, choice: Choice, reply: Reply) {
    && !choice.ChooseDeny? && reply.Evaluated? && reply.decision.verdict != Deny
       && SameAction(reply.decision, entry.view)
    && (choice.ChooseAlways? ==> entry.view.alwaysAllowable && entry.view.projectId.Some?)
  }

  /** With nothing failing on the way, a claimed approval runs exactly when the owner did not deny it,
      the action is still the same, and a lasting permission was not asked for where none is allowed. */
  lemma ClaimedRunsIff(s: System, i: nat, reply: Reply)
    requires i < |s.calls| && s.calls[i].Claimed?
    ensures var c, x := s.calls[i], Run(s, [Resume(i, reply), Resume(i, Done), Resume(i, Done)]);
      if Approves(c.entry, c.choice, reply)
      then x.runs
        == s.runs
          + [RunRecord(i, c.entry.operation, Approved(c.approvalId, c.entry, c.choice, c.claimedAt, reply.decision))]
      else x.runs == s.runs
  {
    var c := s.calls[i];
    var events := [Resume(i, reply), Resume(i, Done), Resume(i, Done)];
    var x1 := Apply(s, events[0]);
    var x2 := Apply(x1, events[1]);
    var x3 := Apply(x2, events[2]);
    assert events[1..] == [events[1], events[2]] && events[1..][1..] == [events[2]] && events[1..][1..][1..] == [];
    assert Run(s, events) == Run(x1, events[1..]) == Run(x2, [events[2]]) == Run(x3, []) == x3;
    assert x1 == StepClaimed(s, i, c.approvalId, c.entry, c.choice, c.claimedAt, reply);
    if !Approves(c.entry, c.choice, reply) {
      assert x1.runs == s.runs && (x1.calls[i].Denying? || x1.calls[i].Ended?);
      assert x2.runs == s.runs && x2.calls[i].Ended?;
    }
  }

  /** One call is given these four answers in turn. */
  function Answered(i: nat, a: Reply, b: Reply, c: Reply, d: Reply): seq<Event> {
    [Resume(i, a), Resume(i, b), Resume(i, c), Resume(i, d)]
  }

  lemma RunFour(s: System, i: nat, a: Reply, b: Reply, c: Reply, d: Reply, x1: System, x2: System, x3: System)
    requires i < |s.calls| == |x1.calls| == |x2.calls| == |x3.calls|
    requires x1 == Step(s, i, a) && x2 == Step(x1, i, b) && x3 == Step(x2, i, c)
    ensures Run(s, Answered(i, a, b, c, d)) == Step(x3, i, d)
  {
    var events := Answered(i, a, b, c, d);
    assert events[1..][1..] == events[2..] && events[2..][1..] == events[3..] && events[3..][1..] == [];
    assert Run(s, events) == Run(x1, events[1..]) == Run(x2, events[2..]) == Run(x3, events[3..])
      == Run(Step(x3, i, d), []);
  }

  /** From the decision on, with no append failing: the decision is recorded, the operation runs, and
      the record of its outcome says whether it threw. */
  lemma DecidedRuns(s: System, i: nat, answer: Reply)
    requires i < |s.calls| && s.calls[i].Deciding?
    ensures var c, x := s.calls[i], Run(s, Answered(i, Done, Done, answer, Done));
      var outcome := if answer.Threw? then Failed else Succeeded;
      && x.log == s.log + [LogEntry(i, WasDecided), LogEntry(i, Ran), LogEntry(i, outcome)]
      && x.runs == s.runs + [RunRecord(i, c.operation, c.origin)] && x.pending == s.pending
  {
    var x1 := Step(s, i, Done);
    var x2 := Step(x1, i, Done);
    var x3 := Step(x2, i, answer);
    RunFour(s, i, Done, Done, answer, Done, x1, x2, x3);
  }

  /** A new operation goes the way of its decision: an allowed one goes on to run as it was asked for; a
      denied one runs nothing and queues nothing; and one for the owner is queued with exactly that
      decision for a quarter of an hour, unless a hundred unexpired approvals are waiting. */
  lemma ExecuteByVerdict(s: System, i: nat, operation: Operation, d: Decision)
    requires i < |s.calls| && s.calls[i] == Executing(operation)
    ensures var x, kept := Step(s, i, Evaluated(d)), Pruned(s.pending, s.now);
      && x.runs == s.runs && x.log == s.log
      && (d.verdict == Allow || d.verdict == AllowOnce <==> x.calls[i] == Deciding(operation, Direct(d)))
      && (d.verdict == Deny <==> x.calls[i] == Denying) && (d.verdict != OwnerRequired ==> x.pending == s.pending)
      && (d.verdict == OwnerRequired && |kept| < MAX_PENDING_APPROVALS ==>
            x.pending == kept[s.nextId := Entry(d, operation, s.now + 900000)])
      && (d.verdict == OwnerRequired && |kept| >= MAX_PENDING_APPROVALS ==> x.pending == kept && x.calls[i].Ended?)
  {
  }

  /** A choice claims an approval exactly when it is queued, has not expired, and (from an originating
      session) fits the identities; the claimed entry is the queued one and leaves the queue, and every
      other unexpired entry stays. */
  lemma ClaimsIff(s: System, i: nat, id: Id, choice: Choice, originating: bool, reply: Reply)
    requires i < |s.calls| && s.calls[i] == Resolving(id, choice, originating)
    ensures var x := Step(s, i, reply);
      var claims := id in s.pending && s.pending[id].expiresAt > s.now && !(originating && reply.NotEntitled?);
      && x.runs == s.runs && x.log == s.log
      && (if claims then x.calls[i] == Claimed(id, s.pending[id], choice, s.now) && x.claims == s.claims[id := i]
          else x.calls[i].Ended? && x.claims == s.claims)
      && forall k :: k in x.pending <==> k in s.pending && s.pending[k].expiresAt > s.now && !(claims && k == id)
  {
  }

  /** An approval that could not be recorded with its mission is withdrawn, and nothing else is. */
  lemma UnmarkedIsWithdrawn(s: System, i: nat, id: Id, reply: Reply)
    requires i < |s.calls| && s.calls[i] == Marking(id) && !reply.Done?
    ensures var x := Step(s, i, reply);
      && x.calls[i].Ended? && x.runs == s.runs && x.log == s.log
      && forall k :: k in x.pending <==> k in s.pending && k != id
  {
  }

  // ---- outcomes ----------------------------------------------------------------------------

  /** No append of an outcome record fails. */
  predicate OutcomesAppended(s: System, events: seq<Event>)
    decreases |events|
  {
    events != [] ==>
      && (events[0].Resume? && events[0].call < |s.calls| && s.calls[events[0].call].Recording? ==>
            events[0].reply.Done?)
      && OutcomesAppended(Apply(s, events[0]), events[1..])
  }

  ghost predicate NoneCut(s: System) {
    forall i :: 0 <= i < |s.calls| ==> s.calls[i] != Ended([WasDecided, Ran])
  }

  lemma StepEnds(s: System, i: nat, reply: Reply)
    requires i < |s.calls| && s.calls[i] != Ended([WasDecided, Ran]) && (s.calls[i].Recording? ==> reply.Done?)
    ensures |Step(s, i, reply).calls| == |s.calls| && Step(s, i, reply).calls[i] != Ended([WasDecided, Ran])
  {
    assert forall what: What :: |[WasDecided, Ran, what]| == 3 && |[WasDecided, Ran]| == 2;
  }

  lemma {:induction false} NoneCutAlways(s: System, events: seq<Event>)
    requires NoneCut(s) && OutcomesAppended(s, events)
    ensures NoneCut(Run(s, events))
    decreases |events|
  {
    if events != [] {
      var e := events[0];
      if e.Resume? && e.call < |s.calls| {
        StepEnds(s, e.call, e.reply);
        StepShape(s, e.call, e.reply);
      }
      NoneCutAlways(Apply(s, e), events[1..]);
    }
  }

  /** When no append of an outcome fails, every call that ran something and has ended left its decision,
      the run, and exactly one outcome, in that order. */
  lemma EveryRunHasItsOutcome(s: System, events: seq<Event>, r: RunRecord)
    requires Init(s) && OutcomesAppended(s, events) && r in Run(s, events).runs
    requires r.call < |Run(s, events).calls| && Run(s, events).calls[r.call].Ended?
    ensures var trace := TraceOf(Run(s, events).log, r.call);
      trace == [WasDecided, Ran, Succeeded] || trace == [WasDecided, Ran, Failed]
  {
    AllRunsKeep(s, events);
    NoneCutAlways(s, events);
    var x := Run(s, events);
    var k :| 0 <= k < |x.runs| && x.runs[k] == r;
    assert RunInv(x, x.runs[k]) && GoodCall(x.claims, r.call, x.calls[r.call]);
    assert TraceOf(x.log, r.call) == x.calls[r.call].trace && Ran in x.calls[r.call].trace;
  }

  // ---- how an approval leaves the queue --------------------------------------------------

  /** This event fails to record the approval with its mission. */
  predicate Withdraws(s: System, e: Event, id: Id) {
    e.Resume? && e.call < |s.calls| && s.calls[e.call] == Marking(id) && !e.reply.Done?
  }

  predicate WithdrawnDuring(s: System, events: seq<Event>, id: Id)
    decreases |events|
  {
    events != [] && (Withdraws(s, events[0], id) || WithdrawnDuring(Apply(s, events[0]), events[1..], id))
  }

  /** Time and claims only grow, and ids are never used again. */
  predicate QueueGrows(s: System, x: System) {
    && s.now <= x.now && s.nextId <= x.nextId && s.claims.Keys <= x.claims.Keys
    && (forall id :: id in x.pending ==> if id in s.pending then x.pending[id] == s.pending[id] else s.nextId <= id)
    && (forall id :: id in x.claims ==> id in s.claims || id in s.pending || s.nextId <= id)
  }

  /** What leaves the queue was expired, or was claimed, or is `gone`. */
  predicate LeavesOnly(s: System, x: System, gone: set<Id>) {
    && QueueGrows(s, x) && (forall id :: id in gone ==> id !in x.pending)
    && (forall id :: id in s.pending && id !in x.pending ==>
          s.pending[id].expiresAt <= x.now || id in x.claims || id in gone)
  }

  lemma PrunedLeaves(s: System)
    ensures LeavesOnly(s, s.(pending := Pruned(s.pending, s.now)), {})
  {
  }

  lemma ExecutingLeaves(s: System, i: nat, operation: Operation, reply: Reply)
    requires QueueInv(s) && i < |s.calls| && s.calls[i] == Executing(operation)
    ensures LeavesOnly(s, Step(s, i, reply), {})
  {
    if reply.Evaluated? {
      ExecuteByVerdict(s, i, operation, reply.decision);
    }
  }

  lemma ResolvingLeaves(s: System, i: nat, id: Id, choice: Choice, originating: bool, reply: Reply)
    requires QueueInv(s) && i < |s.calls| && s.calls[i] == Resolving(id, choice, originating)
    ensures LeavesOnly(s, Step(s, i, reply), {}) && forall k :: k in Step(s, i, reply).pending ==> k in s.pending
  {
    ClaimsIff(s, i, id, choice, originating, reply);
  }

  predicate SameQueue(s: System, x: System) {
    x.pending == s.pending && x.nextId == s.nextId && x.now == s.now && x.claims == s.claims
  }

  lemma AuditQueue(s: System, i: nat, what: What, reply: Reply, next: Call, failed: seq<What>)
    requires i < |s.calls|
    ensures SameQueue(s, Audit(s, i, what, reply, next, failed))
  {
  }

  lemma ClaimedQueue(s: System, i: nat, id: Id, entry: Entry, choice: Choice, claimedAt: nat, reply: Reply)
    requires i < |s.calls|
    ensures SameQueue(s, StepClaimed(s, i, id, entry, choice, claimedAt, reply))
  {
  }

  /** Every other step leaves the queue alone, but for a failed marking. */
  lemma OtherQueue(s: System, i: nat, reply: Reply)
    requires i < |s.calls| && !s.calls[i].Executing? && !s.calls[i].Resolving? && (s.calls[i].Marking? ==> reply.Done?)
    ensures SameQueue(s, Step(s, i, reply))
  {
    match s.calls[i]
    case Claimed(id, entry, choice, claimedAt) => ClaimedQueue(s, i, id, entry, choice, claimedAt, reply);
    case Denying => AuditQueue(s, i, WasDenied, reply, Ended([WasDenied]), []);
    case Announcing => AuditQueue(s, i, WasPending, reply, Ended([WasPending]), []);
    case Deciding(operation, origin) => AuditQueue(s, i, WasDecided, reply, Authorizing(operation, origin), []);
    case Recording(succeeded) =>
      var what := if succeeded then Succeeded else Failed;
      AuditQueue(s, i, what, reply, Ended([WasDecided, Ran, what]), [WasDecided, Ran]);
    case _ =>
  }

  lemma MarkingLeaves(s: System, i: nat, id: Id, reply: Reply)
    requires QueueInv(s) && i < |s.calls| && s.calls[i] == Marking(id) && !reply.Done?
    ensures LeavesOnly(s, Step(s, i, reply), {id}) && Step(s, i, reply).now == s.now
  {
    UnmarkedIsWithdrawn(s, i, id, reply);
  }

  function WithdrawnBy(s: System, e: Event): set<Id> {
    if e.Resume? && e.call < |s.calls| && s.calls[e.call].Marking? && !e.reply.Done? then {s.calls[e.call].approvalId}
      else {}
  }

  lemma EventLeaves(s: System, e: Event)
    requires QueueInv(s)
    ensures LeavesOnly(s, Apply(s, e), WithdrawnBy(s, e))
  {
    match e
    case Execute(_) =>
    case Resolve(_, _, _) => PrunedLeaves(s);
    case List => PrunedLeaves(s);
    case Tick(_) =>
    case Resume(i, reply) =>
      if i < |s.calls| {
        match s.calls[i]
        case Executing(operation) => ExecutingLeaves(s, i, operation, reply);
        case Resolving(id, choice, originating) => ResolvingLeaves(s, i, id, choice, originating, reply);
        case Marking(id) =>
          if reply.Done? {
            OtherQueue(s, i, reply);
          } else {
            MarkingLeaves(s, i, id, reply);
          }
        case _ => OtherQueue(s, i, reply);
      }
  }

  lemma {:induction false} RunGrows(s: System, events: seq<Event>)
    requires Inv(s)
    ensures QueueGrows(s, Run(s, events))
    decreases |events|
  {
    if events != [] {
      EventLeaves(s, events[0]);
      EventKeeps(s, events[0]);
      RunGrows(Apply(s, events[0]), events[1..]);
    }
  }

  /** The approval can still be claimed. */
  predicate Claimable(s: System, id: Id) {
    id in s.pending && s.pending[id].expiresAt > s.now
  }

  /** Over every interleaving a queued approval stays claimable, as it was queued, exactly until it
      expires, is claimed, or is withdrawn because its mission could not record it. */
  lemma {:induction false} LeavesQueueIff(s: System, events: seq<Event>, id: Id)
    requires Inv(s) && id in s.pending
    ensures var x := Run(s, events);
      && (Claimable(x, id) <==> s.pending[id].expiresAt > x.now && id !in x.claims && !WithdrawnDuring(s, events, id))
      && (id in x.pending ==> x.pending[id] == s.pending[id])
    decreases |events|
  {
    if events != [] {
      var e, y := events[0], Apply(s, events[0]);
      EventLeaves(s, e);
      EventKeeps(s, e);
      RunGrows(y, events[1..]);
      if id in y.pending {
        LeavesQueueIff(y, events[1..], id);
      } else {
        assert id in WithdrawnBy(s, e) <==> Withdraws(s, e, id);
      }
    }
  }

  /** An approval that is no longer queued and was not claimed, because it expired or was withdrawn, never
      leads to a run. */
  lemma GoneNeverRuns(s: System, events: seq<Event>, id: Id)
    requires Inv(s) && id < s.nextId && id !in s.pending && id !in s.claims
    ensures id !in Run(s, events).pending
    ensures forall r :: r in Run(s, events).runs ==> !(r.origin.Approved? && r.origin.id == id)
  {
    RunGrows(s, events);
    AllRunsKeep(s, events);
    var x := Run(s, events);
    forall r | r in x.runs && r.origin.Approved? ensures r.origin.id != id {
      var k :| 0 <= k < |x.runs| && x.runs[k] == r;
      assert RunInv(x, x.runs[k]);
    }
  }

  predicate OwnersQueue(s: System) {
    forall id :: id in s.pending ==>
      s.pending[id].view.verdict == OwnerRequired && s.pending[id].expiresAt <= s.now + APPROVAL_TTL
  }

  lemma StepQueues(s: System, i: nat, reply: Reply)
    requires QueueInv(s) && OwnersQueue(s) && i < |s.calls|
    ensures OwnersQueue(Step(s, i, reply))
  {
    match s.calls[i]
    case Executing(operation) =>
      if reply.Evaluated? {
        ExecuteByVerdict(s, i, operation, reply.decision);
      }
    case Resolving(id, choice, originating) => ResolvingLeaves(s, i, id, choice, originating, reply);
    case Marking(id) =>
      if reply.Done? {
        OtherQueue(s, i, reply);
      } else {
        MarkingLeaves(s, i, id, reply);
      }
    case _ => OtherQueue(s, i, reply);
  }

  /** Over every interleaving what is queued is what the policy left to the owner, and for a quarter of an
      hour at most. */
  lemma {:induction false} QueuedForOwner(s: System, events: seq<Event>)
    requires Inv(s) && OwnersQueue(s)
    ensures OwnersQueue(Run(s, events))
    decreases |events|
  {
    if events != [] {
      EventKeeps(s, events[0]);
      if events[0].Resume? && events[0].call < |s.calls| {
        StepQueues(s, events[0].call, events[0].reply);
      }
      QueuedForOwner(Apply(s, events[0]), events[1..]);
    }
  }

  // ---- denial ------------------------------------------------------------------------------

  /** A call that can no longer run anything. */
  predicate Harmless(c: Call) {
    (c.Claimed? && c.choice.ChooseDeny?) || c.Denying? || (c.Ended? && Ran !in c.trace)
  }

  lemma AuditShape(s: System, j: nat, what: What, reply: Reply, next: Call, failed: seq<What>)
    requires j < |s.calls|
    ensures var x := Audit(s, j, what, reply, next, failed); x.claims == s.claims && |x.calls| == |s.calls|
    ensures var x := Audit(s, j, what, reply, next, failed);
      forall i :: 0 <= i < |s.calls| && i != j ==> x.calls[i] == s.calls[i]
  {
  }

  /** A step moves one call, and only resolving an approval claims anything, namely what is pending. */
  predicate MovesOnly(s: System, j: nat, x: System) {
    && |x.calls| == |s.calls| && (forall i :: 0 <= i < |s.calls| && i != j ==> x.calls[i] == s.calls[i])
    && forall id :: id in s.claims && id !in s.pending ==> id in x.claims && x.claims[id] == s.claims[id]
  }

  lemma ExecutingShape(s: System, j: nat, operation: Operation, reply: Reply)
    requires j < |s.calls|
    ensures MovesOnly(s, j, StepExecuting(s, j, operation, reply))
  {
  }

  lemma ResolvingShape(s: System, j: nat, id: Id, choice: Choice, originating: bool, reply: Reply)
    requires j < |s.calls|
    ensures MovesOnly(s, j, StepResolving(s, j, id, choice, originating, reply))
  {
  }

  lemma ClaimedShape(s: System, j: nat, id: Id, entry: Entry, choice: Choice, claimedAt: nat, reply: Reply)
    requires j < |s.calls|
    ensures MovesOnly(s, j, StepClaimed(s, j, id, entry, choice, claimedAt, reply))
  {
  }

  lemma StepShape(s: System, j: nat, reply: Reply)
    requires j < |s.calls|
    ensures MovesOnly(s, j, Step(s, j, reply))
  {
    match s.calls[j]
    case Executing(operation) => ExecutingShape(s, j, operation, reply);
    case Resolving(id, choice, originating) => ResolvingShape(s, j, id, choice, originating, reply);
    case Claimed(id, entry, choice, claimedAt) => ClaimedShape(s, j, id, entry, choice, claimedAt, reply);
    case Denying => AuditShape(s, j, WasDenied, reply, Ended([WasDenied]), []);
    case Announcing => AuditShape(s, j, WasPending, reply, Ended([WasPending]), []);
    case Deciding(operation, origin) => AuditShape(s, j, WasDecided, reply, Authorizing(operation, origin), []);
    case Recording(succeeded) =>
      var what := if succeeded then Succeeded else Failed;
      AuditShape(s, j, what, reply, Ended([WasDecided, Ran, what]), [WasDecided, Ran]);
    case _ =>
  }

  lemma HarmlessStep(s: System, i: nat, reply: Reply)
    requires i < |s.calls| && Harmless(s.calls[i])
    ensures i < |Step(s, i, reply).calls| && Harmless(Step(s, i, reply).calls[i])
  {
  }

  lemma StaysHarmless(s: System, e: Event, i: nat, id: Id)
    requires QueueInv(s) && i < |s.calls| && Harmless(s.calls[i]) && id in s.claims && s.claims[id] == i
    ensures var x := Apply(s, e); i < |x.calls| && Harmless(x.calls[i]) && id in x.claims && x.claims[id] == i
  {
    if e.Resume? && e.call < |s.calls| {
      StepShape(s, e.call, e.reply);
      if e.call == i {
        HarmlessStep(s, i, e.reply);
      }
    }
  }

  lemma HarmlessRanNothing(s: System, i: nat, id: Id)
    requires RunsInv(s) && i < |s.calls| && Harmless(s.calls[i]) && id in s.claims && s.claims[id] == i
    ensures forall r :: r in s.runs ==> !(r.origin.Approved? && r.origin.id == id)
  {
    forall r | r in s.runs && r.origin.Approved? ensures r.origin.id != id {
      var k :| 0 <= k < |s.runs| && s.runs[k] == r;
      assert RunInv(s, s.runs[k]);
    }
  }

  /** Once the owner denied an approval, nothing ever runs on it. */
  lemma {:induction false} DeniedNeverRuns(s: System, events: seq<Event>, i: nat, id: Id)
    requires Inv(s) && i < |s.calls| && Harmless(s.calls[i]) && id in s.claims && s.claims[id] == i
    ensures forall r :: r in Run(s, events).runs ==> !(r.origin.Approved? && r.origin.id == id)
    decreases |events|
  {
    if events == [] {
      HarmlessRanNothing(s, i, id);
    } else {
      StaysHarmless(s, events[0], i, id);
      EventKeeps(s, events[0]);
      DeniedNeverRuns(Apply(s, events[0]), events[1..], i, id);
    }
  }
}
