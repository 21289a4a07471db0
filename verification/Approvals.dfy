/** Governed execution: an operation is decided, perhaps queued for its owner, and run between audit
    records. Every `await` ends a step, so the calls in flight interleave in any order. */
module Approvals {
  import opened Sets
  import opened Wrappers

  const MAX_PENDING_APPROVALS: nat := 100
  const APPROVAL_TTL: nat := 15 * 60000

  type Id = nat

  /** A field that may be missing, null or a string. */
  type Field = Option<Option<string>>

  datatype Operation = Operation(code: nat, mission: bool)

  datatype Verdict = Allow | AllowOnce | OwnerRequired | Deny

  /** A permission decision; `alwaysAllowable` is what the capability tables say of its project. */
  datatype Decision = Decision(
    verdict: Verdict, capabilityId: string, projectId: Option<string>, target: Option<string>,
    workspaceId: Field, resourceId: Field, effects: Option<seq<string>>, alwaysAllowable: bool)

  datatype Choice = ChooseOnce | ChooseAlways | ChooseDeny

  /** A queued approval: what was shown to the owner, the operation, and until when. */
  datatype Entry = Entry(view: Decision, operation: Operation, expiresAt: nat)

  // ---- the queue ---------------------------------------------------------------------------

  function Pruned(pending: map<Id, Entry>, now: nat): (kept: map<Id, Entry>)
    ensures |kept| <= |pending|
  {
    var kept := map id | id in pending && pending[id].expiresAt > now :: pending[id];
    Fewer(kept, pending);
    kept
  }

  lemma Fewer(a: map<Id, Entry>, b: map<Id, Entry>)
    requires a.Keys <= b.Keys
    ensures |a| <= |b|
  {
    SubsetIsSmaller(a.Keys, b.Keys);
  }

  function Effects(effects: Option<seq<string>>): seq<string> {
    if effects.None? then [] else effects.value
  }

  /** The re-evaluated decision is still about what the owner was shown. */
  predicate SameAction(d: Decision, view: Decision) {
    && d.capabilityId == view.capabilityId && d.projectId == view.projectId && d.target == view.target
    && d.workspaceId == view.workspaceId && d.resourceId == view.resourceId
       && Effects(d.effects) == Effects(view.effects)
  }

  // ---- calls in flight ---------------------------------------------------------------------

  /** Why an operation may run: the policy allowed it, or an owner approved a queued entry. */
  datatype Origin = Direct(decision: Decision) | Approved(id: Id, entry: Entry, choice: Choice, claimedAt: nat,
                                                          reevaluated: Decision)

  datatype What = WasDenied | WasPending | WasDecided | Ran | Succeeded | Failed

  /** Where a call is; `trace` is what it has left in the log when it ended. */
  datatype Call =
    | Executing(operation: Operation)
    | Denying
    | Marking(approvalId: Id)
    | Announcing
    | Resolving(approvalId: Id, choice: Choice, originating: bool)
    | Claimed(approvalId: Id, entry: Entry, choice: Choice, claimedAt: nat)
    | Deciding(operation: Operation, origin: Origin)
    | Authorizing(operation: Operation, origin: Origin)
    | Running(operation: Operation)
    | Recording(succeeded: bool)
    | Ended(trace: seq<What>)

  datatype LogEntry = LogEntry(call: nat, what: What)

  datatype RunRecord = RunRecord(call: nat, operation: Operation, origin: Origin)

  /** `log` is the audit log together with the runs, in order; `runs` says why each run happened, and
      `claims` which call claimed an approval. */
  datatype System = System(
    pending: map<Id, Entry>, nextId: Id, now: nat, calls: seq<Call>, log: seq<LogEntry>, runs: seq<RunRecord>,
      claims: map<Id, nat>)

  /** What the awaited work of one step answered: it threw, it is done, it gave a decision, or (for the
      originating-session path) the identities of the request do not fit the entry. */
  datatype Reply = Threw | Done | Evaluated(decision: Decision) | NotEntitled

  function End(s: System, i: nat, trace: seq<What>): System
    requires i < |s.calls|
  {
    s.(calls := s.calls[i := Ended(trace)])
  }

  function Goto(s: System, i: nat, call: Call): System
    requires i < |s.calls|
  {
    s.(calls := s.calls[i := call])
  }

  function Write(s: System, i: nat, what: What): System {
    s.(log := s.log + [LogEntry(i, what)])
  }

  /** An audit append, after which the call goes on as `next`, or ends when it fails. */
  function Audit(s: System, i: nat, what: What, reply: Reply, next: Call, failed: seq<What>): System
    requires i < |s.calls|
  {
    if reply.Done? then Goto(Write(s, i, what), i, next) else End(s, i, failed)
  }

  /** `queueApproval`: without room nothing is queued. */
  function Queue(s: System, d: Decision, operation: Operation): Option<System> {
    var kept := Pruned(s.pending, s.now);
    if |kept| >= MAX_PENDING_APPROVALS then None
    else Some(s.(pending := kept[s.nextId := Entry(d, operation, s.now + APPROVAL_TTL)], nextId := s.nextId + 1))
  }

  function StepExecuting(s: System, i: nat, operation: Operation, reply: Reply): System
    requires i < |s.calls|
  {
    if !reply.Evaluated? then End(s, i, [])
    else match reply.decision.verdict
      case Deny => Goto(s, i, Denying)
      case OwnerRequired =>
        (match Queue(s, reply.decision, operation)
         case None => End(s.(pending := Pruned(s.pending, s.now)), i, [])
         case Some(queued) => Goto(queued, i, if operation.mission then Marking(s.nextId) else Announcing))
      case _ => Goto(s, i, Deciding(operation, Direct(reply.decision)))
  }

  /** `claimPendingApproval` and the checks before it are one step: pruning, lookup and deletion. */
  function StepResolving(s: System, i: nat, id: Id, choice: Choice, originating: bool, reply: Reply): System
    requires i < |s.calls|
  {
    var kept := Pruned(s.pending, s.now);
    var pruned := s.(pending := kept);
    if id !in kept || (originating && reply.NotEntitled?) then End(pruned, i, [])
    else Goto(pruned.(pending := kept - {id}, claims := s.claims[id := i]), i, Claimed(id, kept[id], choice, s.now))
  }

  /** `resolveClaimedApproval` up to its audit record. */
  function StepClaimed(s: System, i: nat, id: Id, entry: Entry, choice: Choice, claimedAt: nat, reply: Reply): System
    requires i < |s.calls|
  {
    if choice.ChooseDeny? then Goto(s, i, Denying)
    else if !reply.Evaluated? then End(s, i, [])
    else if reply.decision.verdict == Deny || !SameAction(reply.decision, entry.view) then Goto(s, i, Denying)
    else if choice.ChooseAlways? && (!entry.view.alwaysAllowable || entry.view.projectId.None?) then End(s, i, [])
    else Goto(s, i, Deciding(entry.operation, Approved(id, entry, choice, claimedAt, reply.decision)))
  }

  function Step(s: System, i: nat, reply: Reply): System
    requires i < |s.calls|
  {
    match s.calls[i]
    case Executing(operation) => StepExecuting(s, i, operation, reply)
    case Denying => Audit(s, i, WasDenied, reply, Ended([WasDenied]), [])
    case Marking(id) =>
      if reply.Done? then Goto(s, i, Announcing) else End(s.(pending := s.pending - {id}), i, [])
    case Announcing => Audit(s, i, WasPending, reply, Ended([WasPending]), [])
    case Resolving(id, choice, originating) => StepResolving(s, i, id, choice, originating, reply)
    case Claimed(id, entry, choice, claimedAt) => StepClaimed(s, i, id, entry, choice, claimedAt, reply)
    case Deciding(operation, origin) => Audit(s, i, WasDecided, reply, Authorizing(operation, origin), [])
    case Authorizing(operation, origin) =>
      if !reply.Done? then End(s, i, [WasDecided])
      else Goto(Write(s, i, Ran), i, Running(operation)).(runs := s.runs + [RunRecord(i, operation, origin)])
    case Running(_) => Goto(s, i, Recording(!reply.Threw?))
    case Recording(succeeded) =>
      var what := if succeeded then Succeeded else Failed;
      Audit(s, i, what, reply, Ended([WasDecided, Ran, what]), [WasDecided, Ran])
    case Ended(_) => s
  }

  // ---- events and runs ---------------------------------------------------------------------

  datatype Event =
    | Execute(operation: Operation)
    | Resolve(approvalId: Id, choice: Choice, originating: bool)
    | List
    | Tick(elapsed: nat)
    | Resume(call: nat, reply: Reply)

  function Apply(s: System, e: Event): System {
    match e
    case Execute(operation) => s.(calls := s.calls + [Executing(operation)])
    case Resolve(id, choice, originating) =>
      s.(pending := Pruned(s.pending, s.now), calls := s.calls + [Resolving(id, choice, originating)])
    case List => s.(pending := Pruned(s.pending, s.now))
    case Tick(elapsed) => s.(now := s.now + elapsed)
    case Resume(i, reply) => if i < |s.calls| then Step(s, i, reply) else s
  }

  function Run(s: System, events: seq<Event>): System
    decreases |events|
  {
    if events == [] then s else Run(Apply(s, events[0]), events[1..])
  }

  predicate Init(s: System) {
    s.pending == map[] && s.calls == [] && s.log == [] && s.runs == [] && s.claims == map[]
  }

  // ---- the queue as it runs ----------------------------------------------------------------

  class ApprovalQueue {
    var pending: map<Id, Entry>
    var nextId: Id

    constructor ()
      ensures pending == map[] && nextId == 0
    {
      pending, nextId := map[], 0;
    }

    /** `pruneExpiredApprovals`: walks over the entries and deletes the expired ones. */
    method PruneExpired(now: nat)
      modifies this`pending
      ensures pending == Pruned(old(pending), now)
    {
      var ids := pending.Keys;
      while ids != {}
        invariant ids <= old(pending).Keys && pending.Keys <= old(pending).Keys
        invariant forall id :: id in old(pending) && (id in ids || old(pending)[id].expiresAt > now) ==> id in pending
        invariant forall id :: id in pending ==>
          pending[id] == old(pending)[id] && (id in ids || pending[id].expiresAt > now)
        decreases |ids|
      {
        var id :| id in ids;
        if pending[id].expiresAt <= now {
          pending := pending - {id};
        }
        ids := ids - {id};
      }
      assert pending == Pruned(old(pending), now);
    }

    /** `queueApproval`. */
    method QueueApproval(d: Decision, operation: Operation, now: nat) returns (id: Option<Id>)
      modifies this
      ensures var kept := Pruned(old(pending), now);
        if |kept| >= MAX_PENDING_APPROVALS then id == None && pending == kept && nextId == old(nextId)
        else
          && id == Some(old(nextId)) && nextId == old(nextId) + 1
          && pending == kept[old(nextId) := Entry(d, operation, now + APPROVAL_TTL)]
      ensures |old(pending)| <= MAX_PENDING_APPROVALS ==> |pending| <= MAX_PENDING_APPROVALS
    {
      PruneExpired(now);
      if |pending| >= MAX_PENDING_APPROVALS {
        return None;
      }
      id := Some(nextId);
      pending := pending[nextId := Entry(d, operation, now + APPROVAL_TTL)];
      nextId := nextId + 1;
    }

    /** `claimPendingApproval`: an entry is handed out at most once, and never after it expired. */
    method ClaimPendingApproval(id: Id, now: nat) returns (claimed: Option<Entry>)
      modifies this`pending
      ensures claimed.Some? <==> id in old(pending) && old(pending)[id].expiresAt > now
      ensures claimed.Some? ==> claimed.value == old(pending)[id]
      ensures pending == Pruned(old(pending), now) - {id}
    {
      PruneExpired(now);
      if id !in pending {
        assert pending - {id} == pending;
        return None;
      }
      claimed := Some(pending[id]);
      pending := pending - {id};
    }
  }
}
