/** Activation transactions: a prepared candidate is applied to the runtime and then confirmed or
    rolled back, with every intermediate state written first so that a restart can settle it. */
module Activation {
  import opened Storage
  import opened Wrappers

  const MAX_TRANSACTIONS: nat := 64
  const MAX_SAFE_INTEGER: int := 9007199254740991

  type Id = nat

  datatype TransactionState = Prepared | Applying | Applied | ApplyFailed | Confirmed | RollbackInProgress | RolledBack

  /** What the persistent admin surface says of the runtime. */
  datatype Snapshot = Snapshot(
    ready: bool, runtimeId: Option<string>, instanceId: Option<string>, catalogId: Option<string>,
    epoch: Option<int>, fullTools: Option<int>, proTools: Option<int>, sourceRoot: string)

  datatype Candidate = Candidate(
    projectId: Id, workspaceId: Id, repositoryId: Id, sourceRoot: string, head: string, fingerprint: string,
      trackedModified: int)

  /** The input of `prepare`, normalized; it is stored with the transaction. */
  datatype Expectation = Expectation(
    projectId: Id, workspaceId: Id, repositoryId: Id, head: string, fingerprint: string, epoch: int,
    runtimeId: Option<string>, catalogId: Option<string>)

  datatype Transaction = Transaction(
    id: Id, state: TransactionState, expected: Expectation, candidate: Candidate, pre: Snapshot,
    postApply: Option<Snapshot>, postRollback: Option<Snapshot>, failure: Option<Error>)

  /** `Foreign` is whatever the inspector or the runtime threw. */
  datatype Error =
    | InvalidRequest | PersistenceFailure | MultipleActive | HistoryExhausted | SupervisorBusy | PreconditionFailed
    | CapabilityDenied | RuntimeNotRunning | RuntimeIdentityMismatch | RecoveryRequired | Foreign

  datatype Outcome = Returned(transaction: Option<Transaction>) | Threw(error: Error) | Died

  // ---- what may be written ---------------------------------------------------------------

  predicate PositiveInteger(n: int) {
    0 < n <= MAX_SAFE_INTEGER
  }

  predicate NonNegativeInteger(n: int) {
    0 <= n <= MAX_SAFE_INTEGER
  }

  predicate Absolute(path: string) {
    path != "" && path[0] == '/'
  }

  /** `isRuntimeSnapshot`. */
  predicate WellFormed(s: Snapshot) {
    && (s.epoch.Some? ==> PositiveInteger(s.epoch.value))
    && (s.fullTools.Some? ==> NonNegativeInteger(s.fullTools.value))
    && (s.proTools.Some? ==> NonNegativeInteger(s.proTools.value))
    && Absolute(s.sourceRoot)
  }

  predicate WellFormedCandidate(c: Candidate) {
    Absolute(c.sourceRoot) && NonNegativeInteger(c.trackedModified)
  }

  /** `isTransaction`, for the parts that are modelled. */
  predicate ValidTransaction(t: Transaction) {
    && PositiveInteger(t.expected.epoch)
    && WellFormedCandidate(t.candidate) && WellFormed(t.pre)
    && (t.postApply.Some? ==> WellFormed(t.postApply.value))
    && (t.postRollback.Some? ==> WellFormed(t.postRollback.value))
  }

  predicate UniqueIds(document: seq<Transaction>) {
    forall i, j :: 0 <= i < j < |document| ==> document[i].id != document[j].id
  }

  /** `isTransactionDocument`. */
  predicate ValidDocument(document: seq<Transaction>) {
    |document| <= MAX_TRANSACTIONS && (forall t :: t in document ==> ValidTransaction(t)) && UniqueIds(document)
  }

  // ---- the bindings ----------------------------------------------------------------------

  predicate CompleteIdentity(s: Snapshot) {
    s.runtimeId.Some? && s.instanceId.Some? && s.catalogId.Some? && s.epoch.Some? && s.fullTools.Some?
      && s.proTools.Some?
  }

  function CandidateMatches(c: Candidate, e: Expectation): Option<Error> {
    if c.projectId != e.projectId || c.workspaceId != e.workspaceId || c.repositoryId != e.repositoryId then
      Some(CapabilityDenied)
    else if c.head != e.head || c.fingerprint != e.fingerprint then Some(PreconditionFailed)
    else None
  }

  function PreparePreconditions(s: Snapshot, e: Expectation): Option<Error> {
    if !s.ready || s.epoch != Some(e.epoch) then Some(PreconditionFailed)
    else if (e.runtimeId.Some? && s.runtimeId != e.runtimeId) || (e.catalogId.Some? && s.catalogId != e.catalogId) then
      Some(PreconditionFailed)
    else if !CompleteIdentity(s) then Some(PreconditionFailed)
    else None
  }

  predicate SameIdentity(current: Snapshot, expected: Snapshot) {
    && current.runtimeId == expected.runtimeId && current.instanceId == expected.instanceId
    && current.catalogId == expected.catalogId && current.epoch == expected.epoch
       && current.sourceRoot == expected.sourceRoot
    && (expected.fullTools.Some? ==> current.fullTools == expected.fullTools)
    && (expected.proTools.Some? ==> current.proTools == expected.proTools)
  }

  /** `assertAppliedBinding`: the candidate runs, in a new instance of the same runtime, with the same
      bounded tools and a later deployment epoch. */
  function AppliedBinding(s: Snapshot, t: Transaction): Option<Error> {
    if !s.ready then Some(RuntimeNotRunning)
    else if s.sourceRoot != t.candidate.sourceRoot || !CompleteIdentity(s) then Some(RuntimeIdentityMismatch)
    else if s.runtimeId != t.pre.runtimeId || s.instanceId == t.pre.instanceId || s.proTools != t.pre.proTools then
      Some(RuntimeIdentityMismatch)
    else if s.epoch.value <= t.expected.epoch then Some(RuntimeIdentityMismatch)
    else None
  }

  /** `assertRolledBackBinding`: the captured binding runs again. */
  function RolledBackBinding(s: Snapshot, t: Transaction): Option<Error> {
    if !s.ready || s.sourceRoot != t.pre.sourceRoot then Some(RuntimeIdentityMismatch)
    else if s.runtimeId.None? || s.instanceId.None? || s.catalogId.None? || s.epoch.None? then
      Some(RuntimeIdentityMismatch)
    else if s.runtimeId != t.pre.runtimeId || s.catalogId != t.pre.catalogId then Some(RuntimeIdentityMismatch)
    else if t.pre.fullTools.Some? && s.fullTools != t.pre.fullTools then Some(RuntimeIdentityMismatch)
    else if t.pre.proTools.Some? && s.proTools != t.pre.proTools then Some(RuntimeIdentityMismatch)
    else if t.pre.epoch.Some? && s.epoch.value < t.pre.epoch.value then Some(RuntimeIdentityMismatch)
    else None
  }

  // ---- the document ----------------------------------------------------------------------

  predicate Terminal(t: Transaction) {
    t.state == Confirmed || t.state == RolledBack
  }

  function ActiveOnes(document: seq<Transaction>): (active: seq<Transaction>)
    ensures forall t :: t in active <==> t in document && !Terminal(t)
    ensures |active| <= |document|
  {
    if document == [] then []
    else
      var n := |document| - 1;
      ActiveOnes(document[..n]) + (if Terminal(document[n]) then [] else [document[n]])
  }

  /** `activeTransaction`. */
  function Active(document: seq<Transaction>): Result<Option<Transaction>, Error> {
    var active := ActiveOnes(document);
    if |active| > 1 then Failure(MultipleActive)
    else if active == [] then Success(None)
    else Success(Some(active[0]))
  }

  function Find(document: seq<Transaction>, id: Id): (t: Option<Transaction>)
    ensures t.None? ==> forall u :: u in document ==> u.id != id
    ensures t.Some? ==> t.value in document && t.value.id == id
  {
    if document == [] then None
    else if document[0].id == id then Some(document[0])
    else Find(document[1..], id)
  }

  /** `replaceTransaction`. */
  function Replace(document: seq<Transaction>, t: Transaction): (replaced: seq<Transaction>)
    ensures |replaced| == |document|
    ensures forall i :: 0 <= i < |document| ==> replaced[i] == if document[i].id == t.id then t else document[i]
  {
    if document == [] then []
    else
      var n := |document| - 1;
      Replace(document[..n], t) + [if document[n].id == t.id then t else document[n]]
  }

  function Without(document: seq<Transaction>, id: Id): (rest: seq<Transaction>)
    ensures forall t :: t in rest <==> t in document && t.id != id
  {
    if document == [] then []
    else
      var n := |document| - 1;
      Without(document[..n], id) + (if document[n].id == id then [] else [document[n]])
  }

  function OldestTerminal(document: seq<Transaction>): (t: Option<Transaction>)
    ensures t.None? <==> forall u :: u in document ==> !Terminal(u)
    ensures t.Some? ==> t.value in document && Terminal(t.value)
  {
    if document == [] then None
    else if Terminal(document[0]) then Some(document[0])
    else
      assert document == [document[0]] + document[1..];
      OldestTerminal(document[1..])
  }

  /** `appendTransaction`: a full history drops its oldest terminal entry. */
  function Append(document: seq<Transaction>, t: Transaction): Result<seq<Transaction>, Error> {
    if |document| < MAX_TRANSACTIONS then Success(document + [t])
    else match OldestTerminal(document)
      case None => Failure(HistoryExhausted)
      case Some(oldest) => Success(Without(document, oldest.id) + [t])
  }

  /** One checked write of `next` over `saved`; reading the file again just before it is part of it. */
  function Save(saved: seq<Transaction>, next: seq<Transaction>, fate: Fate,
                outcome: Outcome): (seq<Transaction>, Outcome) {
    if !ValidDocument(next) then (saved, Threw(PersistenceFailure))
    else match fate
      case Written => (next, outcome)
      case Refused => (saved, Threw(PersistenceFailure))
      case CrashBefore => (saved, Died)
      case CrashAfter => (next, Died)
  }

  // ---- the operations --------------------------------------------------------------------

  /** What the candidate inspector and the runtime answer; `None` when they throw. */
  type Inspected = Option<Candidate>
  type Observed = Option<Snapshot>

  function Prepare(document: seq<Transaction>, id: Id, e: Expectation, inspected: Inspected, observed: Observed,
                   fate: Fate): (seq<Transaction>, Outcome) {
    if !PositiveInteger(e.epoch) then (document, Threw(InvalidRequest))
    else match Active(document)
      case Failure(error) => (document, Threw(error))
      case Success(Some(_)) => (document, Threw(SupervisorBusy))
      case Success(None) =>
        if inspected.None? then (document, Threw(Foreign))
        else if CandidateMatches(inspected.value, e).Some? then
          (document, Threw(CandidateMatches(inspected.value, e).value))
        else if observed.None? then (document, Threw(Foreign))
        else if PreparePreconditions(observed.value, e).Some? then
          (document, Threw(PreparePreconditions(observed.value, e).value))
        else
          var t := Transaction(id, Prepared, e, inspected.value, observed.value, None, None, None);
          match Append(document, t)
          case Failure(error) => (document, Threw(error))
          case Success(next) => Save(document, next, fate, Returned(Some(t)))
  }

  /** The catch blocks: `current` is the transaction variable as it is then. */
  function Fail(saved: seq<Transaction>, current: Transaction, error: Error, fate: Fate): (seq<Transaction>, Outcome) {
    Save(saved, Replace(saved, current.(state := ApplyFailed, failure := Some(error))), fate, Threw(error))
  }

  /** Write `done`; when that is refused the catch block follows. */
  function Settle(saved: seq<Transaction>, done: Transaction, second: Fate, third: Fate): (seq<Transaction>, Outcome) {
    var (next, outcome) := Save(saved, Replace(saved, done), second, Returned(Some(done)));
    if outcome.Threw? then Fail(saved, done, outcome.error, third) else (next, outcome)
  }

  function MayApply(t: Transaction, inspected: Inspected, observed: Observed): Option<Error> {
    if t.state != Prepared then Some(PreconditionFailed)
    else if inspected.None? then Some(Foreign)
    else if inspected.value != t.candidate then Some(PreconditionFailed)
    else if observed.None? then Some(Foreign)
    else if !SameIdentity(observed.value, t.pre) || observed.value.epoch != Some(t.expected.epoch) then
      Some(PreconditionFailed)
    else None
  }

  function FinishApply(saved: seq<Transaction>, applying: Transaction, post: Observed, second: Fate,
                       third: Fate): (seq<Transaction>, Outcome) {
    if post.None? then Fail(saved, applying, Foreign, third)
    else match AppliedBinding(post.value, applying)
      case Some(error) => Fail(saved, applying, error, third)
      case None =>
        Settle(saved, applying.(state := Applied, postApply := Some(post.value), failure := None), second, third)
  }

  /** `called` says whether the candidate's source root was handed to the runtime. */
  datatype AppliedTo = AppliedTo(document: seq<Transaction>, outcome: Outcome, called: bool)

  function Apply(document: seq<Transaction>, id: Id, inspected: Inspected, observed: Observed, post: Observed,
                 first: Fate, second: Fate, third: Fate): AppliedTo {
    match Find(document, id)
    case None => AppliedTo(document, Threw(InvalidRequest), false)
    case Some(t) =>
      if t.state == Applied then AppliedTo(document, Returned(Some(t)), false)
      else if MayApply(t, inspected, observed).Some? then
        AppliedTo(document, Threw(MayApply(t, inspected, observed).value), false)
      else
        var applying := t.(state := Applying, failure := None);
        var (saved, outcome) := Save(document, Replace(document, applying), first, Returned(Some(applying)));
        if !outcome.Returned? then AppliedTo(saved, outcome, false)
        else
          var (next, final) := FinishApply(saved, applying, post, second, third);
          AppliedTo(next, final, true)
  }

  function Confirm(document: seq<Transaction>, id: Id, inspected: Inspected, observed: Observed,
                   fate: Fate): (seq<Transaction>, Outcome) {
    match Find(document, id)
    case None => (document, Threw(InvalidRequest))
    case Some(t) =>
      if t.state == Confirmed then (document, Returned(Some(t)))
      else if t.state != Applied || t.postApply.None? then (document, Threw(PreconditionFailed))
      else if inspected.None? then (document, Threw(Foreign))
      else if inspected.value != t.candidate then (document, Threw(PreconditionFailed))
      else if observed.None? then (document, Threw(Foreign))
      else if !SameIdentity(observed.value, t.postApply.value) then (document, Threw(PreconditionFailed))
      else if AppliedBinding(observed.value, t).Some? then (document, Threw(AppliedBinding(observed.value, t).value))
      else
        var confirmed := t.(state := Confirmed, failure := None);
        Save(document, Replace(document, confirmed), fate, Returned(Some(confirmed)))
  }

  predicate MayRollBack(t: Transaction) {
    t.state == Prepared || t.state == Applied || t.state == ApplyFailed
  }

  function FinishRollback(saved: seq<Transaction>, rolling: Transaction, post: Observed, second: Fate,
                          third: Fate): (seq<Transaction>, Outcome) {
    if post.None? then Fail(saved, rolling, Foreign, third)
    else match RolledBackBinding(post.value, rolling)
      case Some(error) => Fail(saved, rolling, error, third)
      case None =>
        Settle(saved, rolling.(state := RolledBack, postRollback := Some(post.value), failure := None), second, third)
  }

  /** `post` answers `applySourceRoot` of the captured root when the candidate may have been applied,
      and a mere `snapshot` when the transaction was only prepared. */
  function Rollback(document: seq<Transaction>, id: Id, post: Observed, first: Fate, second: Fate,
                    third: Fate): (seq<Transaction>, Outcome) {
    match Find(document, id)
    case None => (document, Threw(InvalidRequest))
    case Some(t) =>
      if t.state == RolledBack then (document, Returned(Some(t)))
      else if !MayRollBack(t) then (document, Threw(PreconditionFailed))
      else
        var rolling := t.(state := RollbackInProgress, failure := None);
        var (saved, outcome) := Save(document, Replace(document, rolling), first, Returned(Some(rolling)));
        if !outcome.Returned? then (saved, outcome) else FinishRollback(saved, rolling, post, second, third)
  }

  /** What recovery makes of an interrupted transaction, judging by the runtime as it is now. */
  function Recovered(t: Transaction, inspected: Inspected, current: Snapshot): Transaction {
    if t.state == Applying then
      if inspected == Some(t.candidate) && AppliedBinding(current, t).None?
      then t.(state := Applied, postApply := Some(current), failure := None)
      else t.(state := ApplyFailed, failure := Some(RecoveryRequired))
    else if RolledBackBinding(current, t).None?
    then t.(state := RolledBack, postRollback := Some(current), failure := None)
    else t.(state := ApplyFailed, failure := Some(RecoveryRequired))
  }

  predicate Interrupted(t: Transaction) {
    t.state == Applying || t.state == RollbackInProgress
  }

  function RecoverInterrupted(document: seq<Transaction>, inspected: Inspected, observed: Observed,
                              fate: Fate): (seq<Transaction>, Outcome) {
    match Active(document)
    case Failure(error) => (document, Threw(error))
    case Success(active) =>
      if active.None? || !Interrupted(active.value) then (document, Returned(active))
      else if observed.None? then (document, Threw(Foreign))
      else
        var t := Recovered(active.value, inspected, observed.value);
        Save(document, Replace(document, t), fate, Returned(Some(t)))
  }

  // ---- events and runs -------------------------------------------------------------------

  /** `next` is the next transaction id (ids are never reused); `applies` is the history of candidates
      that were handed to the runtime. */
  datatype World = World(document: seq<Transaction>, next: Id, applies: seq<Id>)

  datatype Event =
    | PrepareEvent(expected: Expectation, inspected: Inspected, observed: Observed, first: Fate)
    | ApplyEvent(id: Id, inspected: Inspected, observed: Observed, post: Observed, first: Fate, second: Fate,
                 third: Fate)
    | ConfirmEvent(id: Id, inspected: Inspected, observed: Observed, first: Fate)
    | RollbackEvent(id: Id, post: Observed, first: Fate, second: Fate, third: Fate)
    | RecoverEvent(inspected: Inspected, observed: Observed, first: Fate)

  function Step(w: World, e: Event): World {
    match e
    case PrepareEvent(expected, inspected, observed, first) =>
      w.(document := Prepare(w.document, w.next, expected, inspected, observed, first).0, next := w.next + 1)
    case ApplyEvent(id, inspected, observed, post, first, second, third) =>
      var applied := Apply(w.document, id, inspected, observed, post, first, second, third);
      w.(document := applied.document, applies := if applied.called then w.applies + [id] else w.applies)
    case ConfirmEvent(id, inspected, observed, first) =>
      w.(document := Confirm(w.document, id, inspected, observed, first).0)
    case RollbackEvent(id, post, first, second, third) =>
      w.(document := Rollback(w.document, id, post, first, second, third).0)
    case RecoverEvent(inspected, observed, first) =>
      w.(document := RecoverInterrupted(w.document, inspected, observed, first).0)
  }

  function Run(w: World, events: seq<Event>): World
    decreases |events|
  {
    if events == [] then w else Run(Step(w, events[0]), events[1..])
  }
}
