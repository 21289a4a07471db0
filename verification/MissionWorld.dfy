/** The whole mission lifecycle store over runs: service calls, capacity reclaim, restart recovery and
    crashes between any two writes. */
module MissionWorld {
  import opened Storage
  import opened Wrappers
  import opened MissionLifecycle

  // ---- what survives a crash -------------------------------------------------------------

  /** An archive file: a publication that failed half way leaves a file that cannot be parsed. */
  datatype ArchiveFile = Torn | Stored(lifecycle: Record)

  /** A mission the mission ledger has archived: completed, immutable, and no longer listed. */
  datatype RetiredMission = RetiredMission(projectId: Id, updatedAt: nat)

  datatype WorkerCall = WorkerCall(missionId: Id, kind: Kind, id: Id)

  /** `calls` is the history of worker calls that change worker state. */
  datatype World = World(records: seq<Record>, archive: map<Id, ArchiveFile>, retired: map<Id, RetiredMission>,
                         calls: seq<WorkerCall>)

  datatype ArchiveFate = Published | NotCreated | LeftTorn | CrashUntouched | CrashTorn | CrashPublished

  datatype ProbeState = ProbeRunning | ProbeResumable | ProbeStopped | ProbeFailed | ProbeUnknown

  /** A status probe: no adapter, an exception or a malformed answer, or a status. */
  datatype Probe = NoStatus | Status(state: ProbeState, workerId: string, resumeToken: Option<string>, resumable: bool)

  /** What recovery meets at one record. */
  datatype Look = Look(mission: Option<Mission>, registered: bool, probe: Probe, fate: Fate)

  datatype Event =
    | Call(request: Request, env: Env)
    | EnsureMission(missionId: Id, goal: Option<string>, env: Env, archiving: ArchiveFate)
    | Recover(looks: seq<Look>)
    | Retire(missionId: Id, mission: RetiredMission)

  // ---- the document ----------------------------------------------------------------------

  function IndexOf(records: seq<Record>, id: Id): (k: nat)
    ensures k <= |records|
    ensures k < |records| ==> records[k].missionId == id
    ensures forall j :: 0 <= j < k ==> records[j].missionId != id
  {
    if records == [] then 0
    else if records[0].missionId == id then 0
    else 1 + IndexOf(records[1..], id)
  }

  predicate UniqueMissions(records: seq<Record>) {
    forall i, j :: 0 <= i < j < |records| ==> records[i].missionId != records[j].missionId
  }

  function ServeCall(w: World, q: Request, env: Env): (World, Outcome) {
    var k := IndexOf(w.records, q.missionId);
    if k == |w.records| then (w, Threw(MissionNotFound))
    else
      var s := Serve(w.records[k], q, env);
      (w.(records := w.records[k := s.record],
          calls := if s.called then w.calls + [WorkerCall(q.missionId, KindOf(q), q.id)] else w.calls),
       s.outcome)
  }

  // ---- capacity reclaim ------------------------------------------------------------------

  predicate ArchiveEligible(r: Record) {
    && !HasPending(r.operations)
    && (if r.state == Created || r.state == Ready then r.binding.None?
        else (r.state == Completed || r.state == LifecycleState.Failed || r.state == Cancelled)
             && (r.binding.None? || !r.binding.value.resumable))
  }

  predicate Reclaimable(r: Record, retired: map<Id, RetiredMission>) {
    r.missionId in retired && retired[r.missionId].projectId == r.projectId && ArchiveEligible(r)
  }

  predicate Earlier(a: Record, b: Record, retired: map<Id, RetiredMission>)
    requires a.missionId in retired && b.missionId in retired
  {
    var s, t := retired[a.missionId].updatedAt, retired[b.missionId].updatedAt;
    s < t || (s == t && a.missionId < b.missionId)
  }

  /** The reclaimable record whose mission was updated longest ago. */
  function Oldest(records: seq<Record>, retired: map<Id, RetiredMission>): (k: Option<nat>)
    ensures k.None? ==> forall r :: r in records ==> !Reclaimable(r, retired)
    ensures k.Some? ==> k.value < |records| && Reclaimable(records[k.value], retired)
    ensures k.Some? ==> forall r :: r in records && Reclaimable(r, retired) ==> !Earlier(r, records[k.value], retired)
  {
    if records == [] then None
    else
      var n := |records| - 1;
      var k := Oldest(records[..n], retired);
      if Reclaimable(records[n], retired) && (k.None? || Earlier(records[n], records[k.value], retired)) then Some(n)
        else k
  }

  function Without(records: seq<Record>, id: Id): (rest: seq<Record>)
    ensures forall r :: r in rest <==> r in records && r.missionId != id
  {
    if records == [] then []
    else
      var n := |records| - 1;
      Without(records[..n], id) + (if records[n].missionId == id then [] else [records[n]])
  }

  /** What publishing an archive file leaves, and how it ends. */
  function Publish(archive: map<Id, ArchiveFile>, r: Record, fate: ArchiveFate): (map<Id, ArchiveFile>,
                                                                                  Option<Outcome>) {
    if r.missionId in archive then
      match archive[r.missionId]
      case Torn => (archive, Some(Threw(PersistenceFailure)))
      case Stored(lifecycle) => (archive, if lifecycle == r then None else Some(Threw(PreconditionFailed)))
    else match fate
      case Published => (archive[r.missionId := Stored(r)], None)
      case NotCreated => (archive, Some(Threw(PersistenceFailure)))
      case LeftTorn => (archive[r.missionId := Torn], Some(Threw(PersistenceFailure)))
      case CrashUntouched => (archive, Some(Died))
      case CrashTorn => (archive[r.missionId := Torn], Some(Died))
      case CrashPublished => (archive[r.missionId := Stored(r)], Some(Died))
  }

  /** `stop` ends the call; otherwise the call goes on with the reclaimed document. */
  datatype Reclaimed = Reclaimed(world: World, stop: Option<Outcome>)

  function Reclaim(w: World, archiving: ArchiveFate, fate: Fate): Reclaimed {
    if exists r :: r in w.records && !Valid(r) then Reclaimed(w, Some(Threw(PersistenceFailure)))
    else match Oldest(w.records, w.retired)
      case None => Reclaimed(w, None)
      case Some(k) =>
        var (archive, stop) := Publish(w.archive, w.records[k], archiving);
        var published := w.(archive := archive);
        if stop.Some? then Reclaimed(published, stop)
        else
          var next := published.(records := Without(w.records, w.records[k].missionId));
          match fate
          case Written => Reclaimed(next, None)
          case Refused => Reclaimed(published, Some(Threw(PersistenceFailure)))
          case CrashBefore => Reclaimed(published, Some(Died))
          case CrashAfter => Reclaimed(next, Some(Died))
  }

  // ---- ensureMission ---------------------------------------------------------------------

  /** What `getMission` answers: an archived mission is completed. */
  function MissionOf(w: World, id: Id, answer: Option<Mission>): Option<Mission> {
    if id in w.retired then Some(Mission(Some(w.retired[id].projectId), true, "")) else answer
  }

  function NewRecord(id: Id, projectId: Id, goal: string): Record {
    Record(id, projectId, goal, Created, 1, None, [], [], [], [], 0)
  }

  function Existing(r: Record, goal: Option<string>, env: Env): Outcome {
    if !Valid(r) then Threw(PersistenceFailure)
    else if Unbound(env.mission, env.registered, r.projectId).Some? then
      Threw(Unbound(env.mission, env.registered, r.projectId).value)
    else if goal.Some? && goal.value != r.goal then Threw(InvalidRequest)
    else Returned(r)
  }

  function Append(w: World, r: Record, fate: Fate): (World, Outcome) {
    var next := w.(records := w.records + [r]);
    match fate
    case Written => (next, Returned(r))
    case Refused => (w, Threw(PersistenceFailure))
    case CrashBefore => (w, Died)
    case CrashAfter => (next, Died)
  }

  function Ensure(w: World, id: Id, goal: Option<string>, env: Env, archiving: ArchiveFate): (World, Outcome) {
    var k := IndexOf(w.records, id);
    if k < |w.records| then (w, Existing(w.records[k], goal, env))
    else
      var mission := MissionOf(w, id, env.mission);
      if mission.None? then (w, Threw(MissionNotFound))
      else if mission.value.terminal then (w, Threw(ControlDenied))
      else if mission.value.projectId.None? then (w, Threw(CapabilityDenied))
      else if !env.registered then (w, Threw(ControlDenied))
      else
        var r := NewRecord(id, mission.value.projectId.value, if goal.Some? then goal.value else mission.value.title);
        if |w.records| < MAX_RECORDS then Append(w, r, env.second)
        else
          var reclaimed := Reclaim(w, archiving, env.first);
          if reclaimed.stop.Some? then (reclaimed.world, reclaimed.stop.value)
          else if |reclaimed.world.records| >= MAX_RECORDS then (reclaimed.world, Threw(CapabilityDenied))
          else Append(reclaimed.world, r, env.second)
  }

  // ---- recovery --------------------------------------------------------------------------

  /** What recovery does at one record: leave it, give up altogether, or write a new version. */
  datatype Recovery = Untouched | Abort | Update(next: Record, isProbe: bool)

  function RecoveryState(r: Record, state: ProbeState, resumable: bool): LifecycleState {
    if state == ProbeFailed then LifecycleState.Failed
    else if state == ProbeRunning then Running
    else if resumable || state == ProbeResumable then (if |r.checkpoints| > 0 then WaitingForSupervisor else Ready)
    else LifecycleState.Failed
  }

  predicate Terminal(r: Record) {
    r.state == Completed || r.state == LifecycleState.Failed || r.state == Cancelled
  }

  function FirstPending(ops: seq<Operation>): (o: Option<Operation>)
    ensures o.None? <==> !HasPending(ops)
    ensures o.Some? ==> o.value in ops && o.value.status == Pending
  {
    if ops == [] then None
    else if ops[0].status == Pending then Some(ops[0])
    else
      assert ops == [ops[0]] + ops[1..];
      FirstPending(ops[1..])
  }

  function Probed(r: Record, probe: Probe): Record
    requires r.binding.Some? && probe.Status?
  {
    r.(state := RecoveryState(r, probe.state, probe.resumable),
       revision := r.revision + 1,
       binding := Some(Binding(r.binding.value.workerType, probe.workerId, probe.resumeToken, probe.resumable)),
       probes := r.probes + 1)
  }

  function RecoverRecord(r: Record, look: Look): Recovery {
    if !Valid(r) || look.mission.None? then Abort
    else if Unbound(look.mission, look.registered, r.projectId).Some? || Terminal(r) then Untouched
    else match FirstPending(r.operations)
      case Some(pending) =>
        (match Finish(r.(state := LifecycleState.Failed, revision := r.revision + 1), pending.requestId, Unsuccessful)
         case Success(failed) => Update(failed, false)
         case Failure(_) => Abort)
      case None =>
        if r.binding.None? || look.probe.NoStatus? then Untouched else Update(Probed(r, look.probe), true)
  }

  /** Recovery half way: `saved` is the file, `document` the local copy. */
  datatype Recovering = Recovering(saved: seq<Record>, document: seq<Record>, goesOn: bool)

  function RecoverOne(saved: seq<Record>, document: seq<Record>, i: nat, look: Look): Recovering
    requires i < |document|
    ensures |RecoverOne(saved, document, i, look).document| == |document|
  {
    match RecoverRecord(document[i], look)
    case Abort => Recovering(saved, document, false)
    case Untouched => Recovering(saved, document, true)
    case Update(next, isProbe) =>
      var document' := document[i := next];
      match look.fate
      case Written => Recovering(document', document', true)
      case Refused => Recovering(saved, document', isProbe)
      case CrashBefore => Recovering(saved, document', false)
      case CrashAfter => Recovering(document', document', false)
  }

  /** Recovery from record `i` on; running out of looks stands for a crash before the record. */
  function RecoverFrom(saved: seq<Record>, document: seq<Record>, i: nat, looks: seq<Look>): (seq<Record>, bool)
    requires i <= |document|
    decreases |document| - i
  {
    if i == |document| then (saved, true)
    else if i >= |looks| then (saved, false)
    else
      var one := RecoverOne(saved, document, i, looks[i]);
      if one.goesOn then RecoverFrom(one.saved, one.document, i + 1, looks) else (one.saved, false)
  }

  // ---- events and runs -------------------------------------------------------------------

  function Apply(w: World, e: Event): World {
    match e
    case Call(request, env) => ServeCall(w, request, env).0
    case EnsureMission(missionId, goal, env, archiving) => Ensure(w, missionId, goal, env, archiving).0
    case Recover(looks) => w.(records := RecoverFrom(w.records, w.records, 0, looks).0)
    case Retire(missionId, mission) =>
      if missionId in w.retired then w else w.(retired := w.retired[missionId := mission])
  }

  function Run(w: World, events: seq<Event>): World
    decreases |events|
  {
    if events == [] then w else Run(Apply(w, events[0]), events[1..])
  }

  predicate Init(w: World) {
    w.records == [] && w.archive == map[] && w.calls == []
  }
}
