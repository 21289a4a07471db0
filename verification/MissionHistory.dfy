/** What holds over every run of the mission lifecycle, with any calls, retries, failures, crashes
    between writes and recoveries. */
module MissionHistory {
  import opened Storage
  import opened Wrappers
  import opened MissionLifecycle
  import opened MissionRecord
  import opened MissionWorld

  // ---- one call on one record ------------------------------------------------------------

  lemma AtOnceEvolves(r: Record, q: Request)
    requires Inv(r) && Admit(r, q) == Admitted && !AsksWorker(q)
    ensures Evolves(r, AtOnce(r, q)) && r.revision == q.revision < AtOnce(r, q).revision
  {
    NotBusy(r);
  }

  /** What one call does to its record: it keeps the invariant, only adds to the history, changes
      something only when its revision is the current one, and calls the worker only for an operation
      of which the log had nothing. */
  predicate ServedWell(r: Record, q: Request, s: Served) {
    && Inv(s.record) && Evolves(r, s.record)
    && (s.record != r || s.called ==> r.revision == q.revision < s.record.revision)
    && (s.called ==> CalledWell(r, q, s.record))
  }

  predicate CalledWell(r: Record, q: Request, s: Record) {
    && |s.operations| == |r.operations| + 1
    && Last(s.operations).requestId == q.id && Last(s.operations).kind == KindOf(q)
    && r.state != Completed && (Ended(r) ==> q.CancelRequest?)
    && forall o :: o in r.operations ==> !(o.requestId == q.id && o.kind == KindOf(q))
  }

  lemma Unchanged(r: Record, q: Request, outcome: Outcome)
    requires Inv(r)
    ensures ServedWell(r, q, Served(r, false, outcome))
  {
  }

  lemma Rewritten(r: Record, q: Request, s: Record, outcome: Outcome)
    requires Inv(s) && Evolves(r, s) && r.revision == q.revision < s.revision
    ensures ServedWell(r, q, Served(s, false, outcome))
  {
  }

  lemma WorkerServedWell(r: Record, q: Request, env: Env)
    requires Inv(r) && Valid(r) && Admit(r, q) == Admitted && AsksWorker(q)
    ensures ServedWell(r, q, ServeWorker(r, q, env))
  {
    WorkerRequest(r, q, env);
    AdmittedIsNew(r, q);
    var s := ServeWorker(r, q, env);
    if s.record == r && !s.called {
      Unchanged(r, q, s.outcome);
    } else {
      BeganWell(r, q, s);
    }
  }

  lemma BeganWell(r: Record, q: Request, s: Served)
    requires Began(r, q, s.record) && r.revision == q.revision && r.state != Completed
    requires (Ended(r) ==> q.CancelRequest?)
    requires forall o :: o in r.operations ==> !(o.requestId == q.id && o.kind == KindOf(q))
    ensures ServedWell(r, q, s)
  {
  }

  lemma AtOnceShape(r: Record, q: Request, env: Env)
    ensures var s := ServeAtOnce(r, q, env);
      s == Served(r, false, s.outcome) || s == Served(AtOnce(r, q), false, s.outcome)
  {
  }

  lemma AtOnceServedWell(r: Record, q: Request, env: Env, s: Served)
    requires Inv(r) && Admit(r, q) == Admitted && !AsksWorker(q)
    requires s == Served(r, false, s.outcome) || s == Served(AtOnce(r, q), false, s.outcome)
    ensures ServedWell(r, q, s)
  {
    Unchanged(r, q, s.outcome);
    AtOnceKeeps(r, q);
    AtOnceEvolves(r, q);
    Rewritten(r, q, AtOnce(r, q), s.outcome);
  }

  lemma ServeFacts(r: Record, q: Request, env: Env)
    requires Inv(r)
    ensures ServedWell(r, q, Serve(r, q, env))
  {
    var s := Serve(r, q, env);
    if !Valid(r) || Unbound(env.mission, env.registered, r.projectId).Some? || Admit(r, q) != Admitted {
      Unchanged(r, q, s.outcome);
    } else if AsksWorker(q) {
      WorkerServedWell(r, q, env);
    } else {
      AtOnceShape(r, q, env);
      AtOnceServedWell(r, q, env, s);
    }
  }

  lemma {:induction false} OnlyLastPending(ops: seq<Operation>, revision: nat)
    requires ops != [] && Serial(Front(ops), revision)
    ensures forall o :: o in ops && o.status == Pending ==> o == Last(ops)
  {
    NothingPending(Front(ops), revision);
    assert ops == Front(ops) + [Last(ops)];
  }

  /** A record after recovery looked at it: no operation is added and none is left pending. */
  predicate RecoveredWell(r: Record, s: Record) {
    Inv(s) && Evolves(r, s) && |s.operations| == |r.operations| && !HasPending(s.operations)
  }

  lemma ProbeKeeps(r: Record, probe: Probe)
    requires Inv(r) && !HasPending(r.operations) && !Terminal(r) && r.binding.Some? && probe.Status?
    ensures RecoveredWell(r, Probed(r, probe))
  {
    NotBusy(r);
    SerialLater(r.operations, r.revision, r.revision + 1);
  }

  lemma RestartFails(r: Record, pending: Operation)
    requires Inv(r) && Valid(r) && pending in r.operations && pending.status == Pending
    ensures var failed :=
      Finish(r.(state := LifecycleState.Failed, revision := r.revision + 1), pending.requestId, Unsuccessful);
      failed.Success? && RecoveredWell(r, failed.value)
  {
    if !Busy(r.state) {
      NothingPending(r.operations, r.revision);
    }
    OnlyLastPending(r.operations, Last(r.operations).basedOn);
    FailedPending(r, pending.requestId);
    var failed :=
      Finish(r.(state := LifecycleState.Failed, revision := r.revision + 1), pending.requestId, Unsuccessful).value;
    NothingPending(failed.operations, failed.revision);
  }

  lemma RecoveryShape(r: Record, look: Look)
    requires RecoverRecord(r, look).Update?
    ensures Valid(r) && !Terminal(r)
    ensures var next := RecoverRecord(r, look).next; match FirstPending(r.operations)
      case Some(pending) =>
        Finish(r.(state := LifecycleState.Failed, revision := r.revision + 1), pending.requestId, Unsuccessful)
          == Success(next)
      case None => r.binding.Some? && look.probe.Status? && next == Probed(r, look.probe)
  {
  }

  lemma RecoverFacts(r: Record, look: Look)
    requires Inv(r) && RecoverRecord(r, look).Update?
    ensures RecoveredWell(r, RecoverRecord(r, look).next)
  {
    var next, pending := RecoverRecord(r, look).next, FirstPending(r.operations);
    RecoveryShape(r, look);
    if pending.Some? {
      RestartFails(r, pending.value);
    } else {
      ProbeKeeps(r, look.probe);
    }
  }

  // ---- the whole store -------------------------------------------------------------------

  /** The record of a mission, live or archived. */
  function Ledger(w: World, m: Id): Option<Record> {
    var k := IndexOf(w.records, m);
    if k < |w.records| then Some(w.records[k])
    else if m in w.archive && w.archive[m].Stored? then Some(w.archive[m].lifecycle)
    else None
  }

  predicate HasOperation(ops: seq<Operation>, kind: Kind, id: Id) {
    exists o :: o in ops && o.kind == kind && o.requestId == id
  }

  predicate CallKnown(w: World, c: WorkerCall) {
    Ledger(w, c.missionId).Some? && HasOperation(Ledger(w, c.missionId).value.operations, c.kind, c.id)
  }

  ghost predicate AllInv(records: seq<Record>) {
    forall i :: 0 <= i < |records| ==> Inv(records[i])
  }

  predicate WellArchived(r: Record, m: Id, retired: map<Id, RetiredMission>) {
    r.missionId == m && m in retired && Inv(r)
  }

  ghost predicate ArchiveInv(archive: map<Id, ArchiveFile>, retired: map<Id, RetiredMission>) {
    forall m :: m in archive && archive[m].Stored? ==> WellArchived(archive[m].lifecycle, m, retired)
  }

  predicate Distinct(calls: seq<WorkerCall>) {
    forall i, j :: 0 <= i < j < |calls| ==> calls[i] != calls[j]
  }

  ghost predicate WorldInv(w: World) {
    && |w.records| <= MAX_RECORDS && UniqueMissions(w.records) && AllInv(w.records)
    && ArchiveInv(w.archive, w.retired)
    && Distinct(w.calls) && forall c :: c in w.calls ==> CallKnown(w, c)
  }

  ghost predicate LedgerGrows(w: World, x: World) {
    forall m :: Ledger(w, m).Some? ==> Ledger(x, m).Some? && Evolves(Ledger(w, m).value, Ledger(x, m).value)
  }

  /** Nothing the store held is lost or rewritten. */
  ghost predicate Grows(w: World, x: World) {
    && LedgerGrows(w, x)
    && (forall m :: m in w.archive ==> m in x.archive && x.archive[m] == w.archive[m])
    && (forall m :: m in w.retired ==> m in x.retired && x.retired[m] == w.retired[m])
    && w.calls <= x.calls
  }

  lemma LedgerSame(w: World, x: World)
    requires forall m :: Ledger(w, m).Some? ==> Ledger(x, m) == Ledger(w, m)
    ensures LedgerGrows(w, x)
  {
  }

  lemma GrowsTrans(w: World, x: World, y: World)
    requires Grows(w, x) && Grows(x, y)
    ensures Grows(w, y)
  {
    forall m | Ledger(w, m).Some? ensures Ledger(y, m).Some? && Evolves(Ledger(w, m).value, Ledger(y, m).value) {
      EvolvesTrans(Ledger(w, m).value, Ledger(x, m).value, Ledger(y, m).value);
    }
  }

  // ---- events that rewrite records in place ----------------------------------------------

  ghost predicate Aligned(a: seq<Record>, b: seq<Record>) {
    |a| == |b| && forall i :: 0 <= i < |a| ==> KeepsUp(a[i], b[i])
  }

  predicate KeepsUp(r: Record, s: Record) {
    Inv(s) && Evolves(r, s)
  }

  lemma {:induction false} SameIds(a: seq<Record>, b: seq<Record>, m: Id)
    requires |a| == |b| && forall i :: 0 <= i < |a| ==> a[i].missionId == b[i].missionId
    ensures IndexOf(a, m) == IndexOf(b, m)
    decreases |a|
  {
    if a != [] {
      SameIds(a[1..], b[1..], m);
    }
  }

  lemma GrownHas(a: seq<Operation>, b: seq<Operation>, kind: Kind, id: Id)
    requires LogGrows(a, b) && HasOperation(a, kind, id)
    ensures HasOperation(b, kind, id)
  {
    var i :| 0 <= i < |a| && a[i].kind == kind && a[i].requestId == id;
    assert b[i] in b;
  }

  lemma CallsStayKnown(w: World, x: World)
    requires LedgerGrows(w, x) && forall c :: c in w.calls ==> CallKnown(w, c)
    ensures forall c :: c in w.calls ==> CallKnown(x, c)
  {
    forall c | c in w.calls ensures CallKnown(x, c) {
      GrownHas(Ledger(w, c.missionId).value.operations, Ledger(x, c.missionId).value.operations, c.kind, c.id);
    }
  }

  lemma AlignedLedger(w: World, records: seq<Record>, m: Id)
    requires Aligned(w.records, records) && Ledger(w, m).Some?
    ensures var x := w.(records := records);
      Ledger(x, m).Some? && Evolves(Ledger(w, m).value, Ledger(x, m).value)
  {
    SameIds(w.records, records, m);
  }

  lemma AlignedStep(w: World, records: seq<Record>)
    requires WorldInv(w) && Aligned(w.records, records)
    ensures WorldInv(w.(records := records)) && Grows(w, w.(records := records))
  {
    var x := w.(records := records);
    forall m | Ledger(w, m).Some? ensures Ledger(x, m).Some? && Evolves(Ledger(w, m).value, Ledger(x, m).value) {
      AlignedLedger(w, records, m);
    }
    CallsStayKnown(w, x);
  }

  lemma AddCall(w: World, c: WorkerCall)
    requires WorldInv(w) && c !in w.calls && CallKnown(w, c)
    ensures WorldInv(w.(calls := w.calls + [c])) && Grows(w, w.(calls := w.calls + [c]))
  {
    var x := w.(calls := w.calls + [c]);
    forall m ensures Ledger(x, m) == Ledger(w, m) {}
    forall d | d in x.calls ensures CallKnown(x, d) {
      assert CallKnown(w, d);
    }
  }

  lemma AlignedUpdate(base: seq<Record>, document: seq<Record>, i: nat, next: Record)
    requires Aligned(base, document) && i < |document| && Inv(next) && Evolves(base[i], next)
    ensures Aligned(base, document[i := next])
  {
  }

  lemma AlignedSelf(records: seq<Record>)
    requires AllInv(records)
    ensures Aligned(records, records)
  {
  }

  /** The call that a request makes is new to the store, and known to it afterwards. */
  lemma CalledIsNew(w: World, x: World, q: Request, r: Record, s: Record)
    requires Ledger(w, q.missionId) == Some(r) && Ledger(x, q.missionId) == Some(s) && CalledWell(r, q, s)
    ensures !CallKnown(w, WorkerCall(q.missionId, KindOf(q), q.id))
    ensures CallKnown(x, WorkerCall(q.missionId, KindOf(q), q.id))
  {
    assert Last(s.operations) in s.operations;
  }

  /** One service call on the store. */
  lemma CallStep(w: World, q: Request, env: Env)
    requires WorldInv(w)
    ensures WorldInv(ServeCall(w, q, env).0) && Grows(w, ServeCall(w, q, env).0)
  {
    var k := IndexOf(w.records, q.missionId);
    AlignedSelf(w.records);
    if k < |w.records| {
      var s := Serve(w.records[k], q, env);
      ServeFacts(w.records[k], q, env);
      RecordStep(w, k, q, s);
    } else {
      AlignedStep(w, w.records);
    }
  }

  lemma RecordStep(w: World, k: nat, q: Request, s: Served)
    requires WorldInv(w) && k == IndexOf(w.records, q.missionId) < |w.records| && ServedWell(w.records[k], q, s)
    ensures var x := w.(records := w.records[k := s.record],
                        calls := if s.called then w.calls + [WorkerCall(q.missionId, KindOf(q), q.id)] else w.calls);
      WorldInv(x) && Grows(w, x)
  {
    var x := w.(records := w.records[k := s.record]);
    AlignedSelf(w.records);
    AlignedUpdate(w.records, w.records, k, s.record);
    AlignedStep(w, x.records);
    if s.called {
      var c := WorkerCall(q.missionId, KindOf(q), q.id);
      SameIds(w.records, x.records, q.missionId);
      CalledIsNew(w, x, q, w.records[k], s.record);
      AddCall(x, c);
      GrowsTrans(w, x, x.(calls := x.calls + [c]));
    }
  }

  lemma OneShape(saved: seq<Record>, document: seq<Record>, i: nat, look: Look)
    requires i < |document|
    ensures var one, recovery := RecoverOne(saved, document, i, look), RecoverRecord(document[i], look);
      if recovery.Update? then
        (one.saved == saved || one.saved == document[i := recovery.next])
          && one.document == document[i := recovery.next]
      else one.saved == saved && one.document == document
  {
  }

  lemma NextAligned(base: seq<Record>, document: seq<Record>, i: nat, look: Look)
    requires Aligned(base, document) && i < |document| && document[i] == base[i] && Inv(base[i])
    requires RecoverRecord(document[i], look).Update?
    ensures Aligned(base, document[i := RecoverRecord(document[i], look).next])
  {
    RecoverFacts(document[i], look);
    AlignedUpdate(base, document, i, RecoverRecord(document[i], look).next);
  }

  lemma OneAligned(base: seq<Record>, saved: seq<Record>, document: seq<Record>, i: nat, look: Look)
    requires Aligned(base, saved) && Aligned(base, document)
    requires i < |document| && document[i] == base[i] && Inv(base[i])
    ensures var one := RecoverOne(saved, document, i, look);
      && Aligned(base, one.saved) && Aligned(base, one.document)
      && forall j :: i < j < |document| ==> one.document[j] == document[j]
  {
    OneShape(saved, document, i, look);
    if RecoverRecord(document[i], look).Update? {
      NextAligned(base, document, i, look);
    }
  }

  lemma {:induction false} RecoverAligned(base: seq<Record>, saved: seq<Record>, document: seq<Record>, i: nat,
                                          looks: seq<Look>)
    requires AllInv(base) && Aligned(base, saved) && Aligned(base, document)
    requires i <= |document| && forall j :: i <= j < |document| ==> document[j] == base[j]
    ensures Aligned(base, RecoverFrom(saved, document, i, looks).0)
    decreases |document| - i
  {
    if i < |document| && i < |looks| {
      var one := RecoverOne(saved, document, i, looks[i]);
      OneAligned(base, saved, document, i, looks[i]);
      if one.goesOn {
        RecoverAligned(base, one.saved, one.document, i + 1, looks);
      }
    }
  }

  // ---- adding and reclaiming records -----------------------------------------------------

  lemma {:induction false} IndexAppend(records: seq<Record>, r: Record, m: Id)
    ensures IndexOf(records + [r], m) ==
      if IndexOf(records, m) < |records| then IndexOf(records, m)
      else if r.missionId == m then |records| else |records| + 1
    decreases |records|
  {
    if records != [] {
      assert (records + [r])[1..] == records[1..] + [r];
      IndexAppend(records[1..], r, m);
    }
  }

  lemma NewRecordInv(m: Id, projectId: Id, goal: string)
    ensures Inv(NewRecord(m, projectId, goal)) && Valid(NewRecord(m, projectId, goal))
  {
  }

  lemma AppendLedger(w: World, r: Record, m: Id)
    requires IndexOf(w.records, r.missionId) == |w.records|
    ensures Ledger(w.(records := w.records + [r]), m) == if r.missionId == m then Some(r) else Ledger(w, m)
  {
    IndexAppend(w.records, r, m);
  }

  lemma AppendStep(w: World, r: Record)
    requires WorldInv(w) && Ledger(w, r.missionId).None? && Inv(r) && |w.records| < MAX_RECORDS
    ensures WorldInv(w.(records := w.records + [r])) && Grows(w, w.(records := w.records + [r]))
  {
    var x := w.(records := w.records + [r]);
    forall m ensures Ledger(x, m) == if r.missionId == m then Some(r) else Ledger(w, m) {
      AppendLedger(w, r, m);
    }
    LedgerSame(w, x);
    CallsStayKnown(w, x);
  }

  /** Publishing an archive file changes nothing that was there. */
  lemma PublishStep(w: World, k: nat, fate: ArchiveFate)
    requires WorldInv(w) && k < |w.records| && w.records[k].missionId in w.retired
    ensures var (archive, stop) := Publish(w.archive, w.records[k], fate);
      var x := w.(archive := archive);
      && WorldInv(x) && Grows(w, x)
      && (stop.None? ==> w.records[k].missionId in archive && archive[w.records[k].missionId] == Stored(w.records[k]))
  {
    var (archive, stop) := Publish(w.archive, w.records[k], fate);
    var x := w.(archive := archive);
    forall m | Ledger(w, m).Some? ensures Ledger(x, m) == Ledger(w, m) {
    }
    LedgerSame(w, x);
    CallsStayKnown(w, x);
  }

  lemma AppendUnique(records: seq<Record>, r: Record)
    requires UniqueMissions(records) && forall s :: s in records ==> s.missionId != r.missionId
    ensures UniqueMissions(records + [r])
  {
  }

  lemma {:induction false} WithoutUnique(records: seq<Record>, id: Id)
    requires UniqueMissions(records)
    ensures UniqueMissions(Without(records, id))
    decreases |records|
  {
    if records != [] {
      var n := |records| - 1;
      WithoutUnique(records[..n], id);
      AppendUnique(Without(records[..n], id), records[n]);
    }
  }

  lemma {:induction false} WithoutShorter(records: seq<Record>, id: Id)
    ensures |Without(records, id)| <= |records|
    ensures (exists r :: r in records && r.missionId == id) ==> |Without(records, id)| < |records|
    decreases |records|
  {
    if records != [] {
      WithoutShorter(records[..|records| - 1], id);
    }
  }

  lemma WithoutLast(records: seq<Record>, id: Id)
    requires UniqueMissions(records)
    ensures UniqueMissions(Without(records, id)) && |Without(records, id)| <= |records|
    ensures (exists r :: r in records && r.missionId == id) ==> |Without(records, id)| < |records|
  {
    WithoutUnique(records, id);
    WithoutShorter(records, id);
  }

  lemma UniqueIndex(records: seq<Record>, r: Record)
    requires UniqueMissions(records) && r in records
    ensures IndexOf(records, r.missionId) < |records| && records[IndexOf(records, r.missionId)] == r
  {
    var j :| 0 <= j < |records| && records[j] == r;
  }

  lemma WithoutLedger(w: World, id: Id, m: Id)
    requires UniqueMissions(w.records) && Ledger(w, m).Some?
    requires Ledger(w, id).Some? && id in w.archive && w.archive[id] == Stored(Ledger(w, id).value)
    ensures Ledger(w.(records := Without(w.records, id)), m) == Ledger(w, m)
  {
    var x := w.(records := Without(w.records, id));
    WithoutLast(w.records, id);
    var k := IndexOf(w.records, m);
    if k < |w.records| && m != id {
      UniqueIndex(x.records, w.records[k]);
    }
  }

  lemma WithoutInv(records: seq<Record>, id: Id)
    requires AllInv(records)
    ensures AllInv(Without(records, id))
  {
    var rest := Without(records, id);
    forall i | 0 <= i < |rest| ensures Inv(rest[i]) {
      assert rest[i] in records;
    }
  }

  /** A record that is archived as it is may leave the document. */
  lemma RemoveStep(w: World, id: Id)
    requires WorldInv(w) && Ledger(w, id).Some? && id in w.archive && w.archive[id] == Stored(Ledger(w, id).value)
    ensures WorldInv(w.(records := Without(w.records, id))) && Grows(w, w.(records := Without(w.records, id)))
  {
    var x := w.(records := Without(w.records, id));
    WithoutLast(w.records, id);
    WithoutInv(w.records, id);
    forall m | Ledger(w, m).Some? ensures Ledger(x, m) == Ledger(w, m) {
      WithoutLedger(w, id, m);
    }
    LedgerSame(w, x);
    CallsStayKnown(w, x);
  }

  lemma ReclaimShape(w: World, k: nat, archiving: ArchiveFate, fate: Fate)
    requires Oldest(w.records, w.retired) == Some(k)
    ensures var x := Reclaim(w, archiving, fate).world;
      var (archive, stop) := Publish(w.archive, w.records[k], archiving);
      var published := w.(archive := archive);
      || x == w || x == published
      || (stop.None? && x == published.(records := Without(w.records, w.records[k].missionId)))
  {
  }

  lemma ReclaimStep(w: World, archiving: ArchiveFate, fate: Fate)
    requires WorldInv(w)
    ensures WorldInv(Reclaim(w, archiving, fate).world) && Grows(w, Reclaim(w, archiving, fate).world)
  {
    var k := Oldest(w.records, w.retired);
    AlignedSelf(w.records);
    AlignedStep(w, w.records);
    if k.Some? {
      ReclaimShape(w, k.value, archiving, fate);
      ArchivedStep(w, k.value, archiving);
    }
  }

  lemma ArchivedStep(w: World, k: nat, archiving: ArchiveFate)
    requires WorldInv(w) && k < |w.records| && w.records[k].missionId in w.retired
    ensures var (archive, stop) := Publish(w.archive, w.records[k], archiving);
      var published := w.(archive := archive);
      var removed := published.(records := Without(w.records, w.records[k].missionId));
      WorldInv(published) && Grows(w, published) && (stop.None? ==> WorldInv(removed) && Grows(w, removed))
  {
    PublishStep(w, k, archiving);
    var (archive, stop) := Publish(w.archive, w.records[k], archiving);
    var published := w.(archive := archive);
    if stop.None? {
      UniqueIndex(w.records, w.records[k]);
      RemoveStep(published, w.records[k].missionId);
      GrowsTrans(w, published, published.(records := Without(w.records, w.records[k].missionId)));
    }
  }
}
