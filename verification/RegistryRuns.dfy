/** The main results about the connector registry. */
module RegistryRuns {
  import opened Storage
  import opened Wrappers
  import opened ConnectorRegistry
  import opened RegistrySafety

  predicate Readable(stored: Option<RawDocument>, b: Builtin) {
    stored.Some? && Normalize(stored.value, b).Success?
  }

  function Read(stored: Option<RawDocument>, b: Builtin): Registry
    requires Readable(stored, b)
  {
    Normalize(stored.value, b).value
  }

  // ---- reading after writing ---------------------------------------------------------------

  /** A step from a readable store leaves it readable, except for exactly the two writes that cannot be
      read back, when they persist. */
  lemma StaysReadableIff(stored: Option<RawDocument>, e: Event, fate: Fate, b: Builtin)
    requires Readable(stored, b) && GoodBuiltin(b)
    ensures var change := ChangeOf(stored, e, b);
      Readable(Step(stored, e, fate, b), b) <==> !(change.Write? && Persists(fate) && Unreadable(Read(stored, b), e))
    ensures Readable(Step(stored, e, fate, b), b) ==> Grows(Read(stored, b), Read(Step(stored, e, fate, b), b))
    ensures Readable(Step(stored, e, fate, b), b) ==> WellFormed(Read(Step(stored, e, fate, b), b))
  {
    NormalizedIsWellFormed(stored.value, b);
    var change := ChangeOf(stored, e, b);
    if change.Write? {
      ChangeGrows(stored.value, e, b);
      ReadBackIff(change.next, b);
    }
  }

  /** A registry that cannot be read is refused by every operation and never changes again. */
  lemma {:induction false} UnreadableForever(stored: Option<RawDocument>, events: seq<(Event, Fate)>, b: Builtin)
    requires stored.Some? && !Readable(stored, b)
    ensures Run(stored, events, b) == stored
    ensures forall e :: ChangeOf(stored, e, b).Refuse?
    decreases |events|
  {
    if events != [] {
      UnreadableForever(stored, events[1..], b);
    }
  }

  /** A concrete split: the connectors belong to machine 1, no admin tunnel is bound, and machine 2
      binds one. The write goes through and leaves a registry nobody can read. */
  lemma SplitExample(b: Builtin)
    requires GoodBuiltin(b)
    ensures var stored := Some(DocumentOf(Create(10, 11, None, 1, b).next));
      Readable(stored, b) && ChangeOf(stored, BindAdminTunnel(12, 2), b).Write?
        && !Readable(Step(stored, BindAdminTunnel(12, 2), Written, b), b)
  {
    var r := Create(10, 11, None, 1, b).next;
    var stored := Some(DocumentOf(r));
    assert r == Registry(1, [NewConnector(Full, 10, 1, b), NewConnector(Pro, 11, 1, b)], None);
    Pair(r);
    assert WellFormed(r);
    ReadBackIff(r, b);
    AdminWritesIff(r, 12, 2);
    assert r.connectors[0] in r.connectors;
    StaysReadableIff(stored, BindAdminTunnel(12, 2), Written, b);
  }

  /** A runtime id that is not a name: the write goes through, and nobody can read the registry any more.
      The supervisor binds an id that it generated itself, which is a name. */
  lemma NamelessExample(b: Builtin)
    requires GoodBuiltin(b)
    ensures var stored := Some(DocumentOf(Create(10, 11, None, 1, b).next));
      Readable(stored, b) && ChangeOf(stored, Bind("a b", 1), b).Write?
        && !Readable(Step(stored, Bind("a b", 1), Written, b), b)
  {
    var r := Create(10, 11, None, 1, b).next;
    var stored := Some(DocumentOf(r));
    assert r == Registry(1, [NewConnector(Full, 10, 1, b), NewConnector(Pro, 11, 1, b)], None);
    Pair(r);
    assert WellFormed(r);
    ReadBackIff(r, b);
    BindWritesIff(r, "a b", 1);
    assert "a b"[1] == ' ' && !NameCharacter(' ');
    StaysReadableIff(stored, Bind("a b", 1), Written, b);
  }

  // ---- monotone over runs ------------------------------------------------------------------

  lemma GrowsTrans(r: Registry, s: Registry, t: Registry)
    requires Grows(r, s) && Grows(s, t)
    ensures Grows(r, t)
  {
    forall i | 0 <= i < |r.connectors| ensures ConnectorGrows(r.connectors[i], t.connectors[i]) {
      assert ConnectorGrows(r.connectors[i], s.connectors[i]) && ConnectorGrows(s.connectors[i], t.connectors[i]);
    }
  }

  /** Over every run, epochs and leases never decrease and the tunnels stay the same, as long as the
      registry can be read at all; and whenever it can be read it is fenced. */
  lemma {:induction false} RunGrows(stored: Option<RawDocument>, events: seq<(Event, Fate)>, b: Builtin)
    requires Readable(stored, b) && GoodBuiltin(b) && Readable(Run(stored, events, b), b)
    ensures Grows(Read(stored, b), Read(Run(stored, events, b), b)) && WellFormed(Read(Run(stored, events, b), b))
    decreases |events|
  {
    NormalizedIsWellFormed(stored.value, b);
    if events != [] {
      var next := Step(stored, events[0].0, events[0].1, b);
      StaysReadableIff(stored, events[0].0, events[0].1, b);
      if !Readable(next, b) {
        UnreadableForever(next, events[1..], b);
      }
      RunGrows(next, events[1..], b);
      GrowsTrans(Read(stored, b), Read(next, b), Read(Run(stored, events, b), b));
    }
  }

  // ---- fencing -----------------------------------------------------------------------------

  lemma LaterEpochRefuses(r: Registry, c: Connector, claim: Claim, s: Registry, d: Connector)
    requires WellFormed(r) && c in r.connectors && RefusedClaim(c, claim).None?
    requires WellFormed(s) && d in s.connectors && r.epoch < s.epoch
    ensures RefusedClaim(d, claim).Some?
  {
    Pair(r);
    Pair(s);
  }

  /** Every write that is not of an admin tunnel fences off all claims accepted before: once it has
      persisted, no continuation of the run accepts them again, whatever connector they are shown to. */
  lemma OldClaimsStayRefused(stored: Option<RawDocument>, c: Connector, claim: Claim, e: Event, fate: Fate,
                             after: seq<(Event, Fate)>, d: Connector, b: Builtin)
    requires Readable(stored, b) && GoodBuiltin(b) && c in Read(stored, b).connectors && RefusedClaim(c, claim).None?
    requires ChangeOf(stored, e, b).Write? && Persists(fate) && !e.BindAdminTunnel?
    requires Readable(Run(Step(stored, e, fate, b), after, b), b)
    requires d in Read(Run(Step(stored, e, fate, b), after, b), b).connectors
    ensures RefusedClaim(d, claim).Some?
  {
    var next := Step(stored, e, fate, b);
    NormalizedIsWellFormed(stored.value, b);
    ChangeGrows(stored.value, e, b);
    ReadBackIff(ChangeOf(stored, e, b).next, b);
    if !Readable(next, b) {
      UnreadableForever(next, after, b);
    }
    RunGrows(next, after, b);
    LaterEpochRefuses(Read(stored, b), c, claim, Read(Run(next, after, b), b), d);
  }

  /** An accepted claim is one that names the binding in every field. */
  lemma AcceptedIff(r: Registry, c: Connector, claim: Claim)
    requires WellFormed(r) && c in r.connectors
    ensures RefusedClaim(c, claim).None?
      <==> && c.machineId == Some(claim.machineId) && c.runtimeId == Some(claim.runtimeId)
           && claim.tunnelId == c.tunnelId && claim.lease == c.lease && claim.profile == c.id
           && claim.epoch == r.epoch && claim.hash == c.hash && claim.instanceGiven
  {
    Pair(r);
  }

  // ---- when something is written -----------------------------------------------------------

  /** The counters that the event would raise still have room. */
  predicate RoomFor(r: Registry, e: Event)
    requires |r.connectors| == 2
  {
    match e
    case BindAdminTunnel(_, _) => r.admin.Some? ==> r.admin.value.lease < MAX_SAFE_INTEGER
    case Bind(_, _) =>
      r.epoch < MAX_SAFE_INTEGER && r.connectors[0].lease < MAX_SAFE_INTEGER && r.connectors[1].lease < MAX_SAFE_INTEGER
    case _ => r.epoch < MAX_SAFE_INTEGER
  }

  /** No other machine holds a binding of the registry. */
  predicate Free(r: Registry, machine: Machine)
    requires |r.connectors| == 2
  {
    && !Foreign(r.connectors[0].machineId, machine) && !Foreign(r.connectors[1].machineId, machine)
    && (r.admin.Some? ==> !Foreign(r.admin.value.machineId, machine))
  }

  /** The runtime of this machine holds both connectors already. */
  predicate Held(r: Registry, runtimeId: string, machine: Machine)
    requires |r.connectors| == 2
  {
    && r.connectors[0].machineId == Some(machine) && r.connectors[0].runtimeId == Some(runtimeId)
    && r.connectors[1].machineId == Some(machine) && r.connectors[1].runtimeId == Some(runtimeId)
  }

  lemma BindWritesIff(r: Registry, runtimeId: string, machine: Machine)
    requires WellFormed(r)
    ensures BindRuntime(r, runtimeId, machine).Write?
      <==> Free(r, machine) && !Held(r, runtimeId, machine) && RoomFor(r, Bind(runtimeId, machine))
  {
    var c, d := r.connectors[0], r.connectors[1];
    Pair(r);
    assert c in r.connectors && d in r.connectors;
    assert (exists n :: n in r.connectors && Foreign(n.machineId, machine))
      <==> Foreign(c.machineId, machine) || Foreign(d.machineId, machine);
    assert (forall n :: n in r.connectors ==> OwnedBy(n, machine, runtimeId)) <==> Held(r, runtimeId, machine);
    assert (exists n :: n in r.connectors && !PositiveSafe(n.lease + 1))
      <==> c.lease == MAX_SAFE_INTEGER || d.lease == MAX_SAFE_INTEGER;
  }

  lemma AdminWritesIff(r: Registry, tunnelId: Tunnel, machine: Machine)
    requires WellFormed(r)
    ensures BindAdmin(r, tunnelId, machine).Write?
      <==> && tunnelId != r.connectors[0].tunnelId && tunnelId != r.connectors[1].tunnelId
           && (r.admin.Some? ==> r.admin.value.tunnelId == tunnelId && r.admin.value.machineId.None?)
           && RoomFor(r, BindAdminTunnel(tunnelId, machine))
  {
    Pair(r);
  }

  /** Exactly when an event writes a new registry: an advance always does, a reconciliation when reading
      found something to bring up to date, a manifest when it is a good one, a binding when it is free
      and not held already; and only while the counters have room. */
  lemma WritesIff(stored: Option<RawDocument>, e: Event, b: Builtin)
    requires Readable(stored, b) && GoodBuiltin(b) && !e.Initialize?
    ensures var r := Read(stored, b);
      |r.connectors| == 2 &&
      (ChangeOf(stored, e, b).Write? <==> RoomFor(r, e) && match e
         case Advance => true
         case ReconcileNow => Changed(stored.value, b)
         case Replace(full, pro) => GoodManifest(full, pro)
         case Bind(runtimeId, machine) => Free(r, machine) && !Held(r, runtimeId, machine)
         case BindAdminTunnel(tunnelId, machine) =>
           && tunnelId != r.connectors[0].tunnelId && tunnelId != r.connectors[1].tunnelId
           && (r.admin.Some? ==> r.admin.value.tunnelId == tunnelId && r.admin.value.machineId.None?)
         case _ => true)
  {
    var r := Read(stored, b);
    NormalizedIsWellFormed(stored.value, b);
    match e
    case Bind(runtimeId, machine) => BindWritesIff(r, runtimeId, machine);
    case BindAdminTunnel(tunnelId, machine) => AdminWritesIff(r, tunnelId, machine);
    case _ =>
  }

  /** A registry is coherent for a runtime exactly when that runtime holds both connectors and no
      catalog is stale. */
  lemma CoherentIff(r: Registry, machine: Machine, runtimeId: string, anyStale: bool)
    requires WellFormed(r)
    ensures Assess(r, machine, runtimeId, anyStale) == Coherent <==> Held(r, runtimeId, machine) && !anyStale
    ensures Assess(r, machine, runtimeId, anyStale) == OwnershipConflict
      <==> Foreign(r.connectors[0].machineId, machine) || Foreign(r.connectors[1].machineId, machine)
  {
    Pair(r);
  }

  // ---- binding and reconciling -------------------------------------------------------------

  /** A runtime that was bound is coherent with its registry, unless the catalogs are stale, and binding
      it again changes nothing. */
  lemma BoundIsCoherent(r: Registry, runtimeId: string, machine: Machine)
    requires WellFormed(r) && !BindRuntime(r, runtimeId, machine).Refuse?
    ensures var bound := if BindRuntime(r, runtimeId, machine).Write? then BindRuntime(r, runtimeId, machine).next
      else r;
      Assess(bound, machine, runtimeId, false) == Coherent && BindRuntime(bound, runtimeId, machine) == Unchanged
  {
    Pair(r);
    if BindRuntime(r, runtimeId, machine).Write? {
      Pair(BindRuntime(r, runtimeId, machine).next);
    }
  }

  /** Binding is refused exactly when another machine owns part of the registry or a counter would
      overflow: there is no takeover. */
  lemma NoTakeover(r: Registry, runtimeId: string, machine: Machine)
    requires WellFormed(r)
    ensures BindRuntime(r, runtimeId, machine) == Refuse(TunnelOwnershipConflict)
      <==> !Free(r, machine)
  {
    Pair(r);
  }

  /** A reconciliation right after one that persisted finds nothing to do. */
  lemma ReconcileOnce(stored: Option<RawDocument>, b: Builtin)
    requires Readable(stored, b) && GoodBuiltin(b) && ChangeOf(stored, ReconcileNow, b).Write?
    ensures var next := Step(stored, ReconcileNow, Written, b);
      Readable(next, b) && ChangeOf(next, ReconcileNow, b) == Unchanged && Step(next, ReconcileNow, Written, b) == next
  {
    NormalizedIsWellFormed(stored.value, b);
    ChangeGrows(stored.value, ReconcileNow, b);
    ReadBackIff(ChangeOf(stored, ReconcileNow, b).next, b);
  }

  predicate Current(c: Connector, b: Builtin) {
    c.tools == b.Of(c.id).names && c.hash == b.Of(c.id).hash && c.fingerprint == b.fingerprint(b.Of(c.id).names)
  }

  /** After a reconciliation that wrote or found nothing to do, every connector carries the catalog of
      this version. */
  lemma ReconciledIsCurrent(stored: Option<RawDocument>, b: Builtin, c: Connector)
    requires Readable(stored, b) && GoodBuiltin(b) && !ChangeOf(stored, ReconcileNow, b).Refuse?
    requires Readable(Step(stored, ReconcileNow, Written, b), b)
    requires c in Read(Step(stored, ReconcileNow, Written, b), b).connectors
    ensures Current(c, b)
  {
    NormalizedIsWellFormed(stored.value, b);
    if ChangeOf(stored, ReconcileNow, b).Write? {
      ChangeGrows(stored.value, ReconcileNow, b);
      ReadBackIff(ChangeOf(stored, ReconcileNow, b).next, b);
      Pair(ChangeOf(stored, ReconcileNow, b).next);
    } else {
      Pair(Read(stored, b));
    }
  }

  /** An empty store is initialized exactly with tunnels that differ from each other, and what was
      written can be read: owned by this machine, at the first epoch and lease. */
  lemma InitializedIff(full: Tunnel, pro: Tunnel, admin: Option<Tunnel>, machine: Machine, b: Builtin)
    requires GoodBuiltin(b)
    ensures ChangeOf(None, Initialize(full, pro, admin, machine), b).Write?
      <==> full != pro && admin != Some(full) && admin != Some(pro)
    ensures ChangeOf(None, Initialize(full, pro, admin, machine), b).Write? ==>
      var next := Step(None, Initialize(full, pro, admin, machine), Written, b);
      && Readable(next, b) && Read(next, b).epoch == 1
      && forall c :: c in Read(next, b).connectors ==> c.machineId == Some(machine) && c.lease == 1 && Current(c, b)
  {
    var change := Create(full, pro, admin, machine, b);
    if change.Write? {
      Pair(change.next);
      assert WellFormed(change.next);
      ReadBackIff(change.next, b);
    }
  }

  /** The document with the leases that its version did not have yet: the first one where a machine is
      bound, and none elsewhere. */
  function FirstLease(machineId: Option<Option<Machine>>, lease: Option<int>): Option<int> {
    if lease.Some? then lease else if OrNull(machineId).Some? then Some(1) else Some(0)
  }

  function WithLeases(d: RawDocument): RawDocument {
    d.(connectors := seq(|d.connectors|, i requires 0 <= i < |d.connectors| =>
                           d.connectors[i].(lease := FirstLease(d.connectors[i].machineId, d.connectors[i].lease))),
       admin := if d.admin.None? then None
         else Some(d.admin.value.(lease := FirstLease(d.admin.value.machineId, d.admin.value.lease))))
  }

  lemma FilledConnector(c: RawConnector, epoch: int, b: Builtin)
    ensures var d := c.(lease := FirstLease(c.machineId, c.lease));
      && (ShapedConnector(d, epoch) <==> ShapedConnector(c, epoch))
         && (FencedField(d.machineId, d.lease) <==> FencedField(c.machineId, c.lease))
      && (c.id.Some? ==> NormalConnector(d, epoch, b) == NormalConnector(c, epoch, b))
  {
  }

  lemma FilledAdmin(a: RawAdmin)
    ensures var d := a.(lease := FirstLease(a.machineId, a.lease));
      (ShapedAdmin(d) <==> ShapedAdmin(a)) && (FencedField(d.machineId, d.lease) <==> FencedField(a.machineId, a.lease))
        && NormalAdmin(d) == NormalAdmin(a)
  {
  }

  /** Whatever the document, leaving its leases out reads the same as writing the first ones, and is
      refused in the same cases. */
  lemma LegacyLeases(d: RawDocument, b: Builtin)
    ensures Normalize(WithLeases(d), b) == Normalize(d, b)
  {
    if |d.connectors| == 2 {
      assert Owners(WithLeases(d)) == Owners(d);
      FilledConnector(d.connectors[0], d.epoch, b);
      FilledConnector(d.connectors[1], d.epoch, b);
      if d.admin.Some? {
        FilledAdmin(d.admin.value);
      }
    }
  }

  /** The first schema version, which had no leases. */
  function Legacy(d: RawDocument): RawDocument {
    d.(schema := 1,
       connectors := seq(|d.connectors|, i requires 0 <= i < |d.connectors| => d.connectors[i].(lease := None)),
       admin := if d.admin.None? then None else Some(d.admin.value.(lease := None)))
  }

  predicate FirstLeases(r: Registry) {
    (forall c :: c in r.connectors ==> c.lease <= 1) && (r.admin.Some? ==> r.admin.value.lease <= 1)
  }

  lemma LegacyReads(r: Registry, b: Builtin)
    requires WellFormed(r) && FirstLeases(r)
    ensures Normalize(Legacy(DocumentOf(r)), b) == Success(r)
  {
    Pair(r);
    assert r.connectors[0] in r.connectors && r.connectors[1] in r.connectors;
    ReadBackIff(r, b);
    var d := Legacy(DocumentOf(r));
    assert WithLeases(d) == DocumentOf(r).(schema := 1);
    LegacyLeases(d, b);
    assert Owners(DocumentOf(r).(schema := 1)) == Owners(DocumentOf(r));
  }

  /** A registry in the form of the first schema version is migrated by one reconciliation: afterwards it
      reads as it was, with owners, tunnels and leases, at the next epoch and with the catalogs of this
      version. */
  lemma LegacyMigrates(r: Registry, b: Builtin)
    requires WellFormed(r) && FirstLeases(r) && GoodBuiltin(b) && r.epoch < MAX_SAFE_INTEGER
    ensures var migrated := Step(Some(Legacy(DocumentOf(r))), ReconcileNow, Written, b);
      && Readable(migrated, b) && ChangeOf(migrated, ReconcileNow, b) == Unchanged
      && var s := Read(migrated, b);
         && s.epoch == r.epoch + 1 && s.admin == r.admin && |s.connectors| == 2
         && forall i :: 0 <= i < 2 ==>
              s.connectors[i] == WithCatalog(r.connectors[i], b.Of(r.connectors[i].id), b, r.epoch + 1)
  {
    var stored := Some(Legacy(DocumentOf(r)));
    LegacyReads(r, b);
    WritesIff(stored, ReconcileNow, b);
    ReconcileOnce(stored, b);
    ChangeGrows(stored.value, ReconcileNow, b);
    ReadBackIff(ChangeOf(stored, ReconcileNow, b).next, b);
  }

  /** A replaced manifest gives each connector the catalog of its own profile, with its fingerprint. */
  lemma ManifestInstalled(r: Registry, full: Catalog, pro: Catalog, b: Builtin, c: Connector)
    requires WellFormed(r) && ReplaceManifest(r, full, pro, b).Write?
    requires c in ReplaceManifest(r, full, pro, b).next.connectors
    ensures var target := if c.id == Full then full else pro;
      c.tools == target.names && c.hash == target.hash && c.fingerprint == b.fingerprint(target.names)
    ensures exists d ::
      d in r.connectors && d.id == c.id && d.tunnelId == c.tunnelId && d.machineId == c.machineId
        && d.runtimeId == c.runtimeId && d.lease == c.lease
  {
    Pair(r);
    Pair(ReplaceManifest(r, full, pro, b).next);
  }

  predicate SameCatalogs(r: Registry, s: Registry) {
    && |s.connectors| == |r.connectors|
    && forall i :: 0 <= i < |r.connectors| ==> SameCatalog(r.connectors[i], s.connectors[i])
  }

  predicate SameCatalog(c: Connector, d: Connector) {
    d.id == c.id && d.tools == c.tools && d.hash == c.hash && d.fingerprint == c.fingerprint
  }

  lemma ChangeKeepsCatalogs(d: RawDocument, e: Event, b: Builtin)
    requires Normalize(d, b).Success? && !e.Replace? && !e.ReconcileNow? && ChangeOf(Some(d), e, b).Write?
    ensures SameCatalogs(Normalize(d, b).value, ChangeOf(Some(d), e, b).next)
  {
  }

  lemma CatalogsStay(stored: Option<RawDocument>, e: Event, fate: Fate, b: Builtin)
    requires Readable(stored, b) && GoodBuiltin(b) && !e.Replace? && !e.ReconcileNow?
    requires Readable(Step(stored, e, fate, b), b)
    ensures SameCatalogs(Read(stored, b), Read(Step(stored, e, fate, b), b))
  {
    NormalizedIsWellFormed(stored.value, b);
    var change := ChangeOf(stored, e, b);
    if change.Write? {
      ChangeGrows(stored.value, e, b);
      ReadBackIff(change.next, b);
      ChangeKeepsCatalogs(stored.value, e, b);
    }
  }

  lemma {:induction false} CatalogsStayOver(stored: Option<RawDocument>, events: seq<(Event, Fate)>, b: Builtin)
    requires Readable(stored, b) && GoodBuiltin(b) && Readable(Run(stored, events, b), b)
    requires forall e :: e in events ==> !e.0.Replace? && !e.0.ReconcileNow?
    ensures SameCatalogs(Read(stored, b), Read(Run(stored, events, b), b))
    decreases |events|
  {
    if events != [] {
      var next := Step(stored, events[0].0, events[0].1, b);
      if !Readable(next, b) {
        UnreadableForever(next, events[1..], b);
      }
      CatalogsStay(stored, events[0].0, events[0].1, b);
      CatalogsStayOver(next, events[1..], b);
    }
  }

  /** The catalogs of a replaced manifest last: after it persisted, whatever is bound or advanced until the
      next manifest or reconciliation, every connector carries the catalog of its own profile. */
  lemma ManifestLasts(stored: Option<RawDocument>, full: Catalog, pro: Catalog, events: seq<(Event, Fate)>, b: Builtin,
                      c: Connector)
    requires Readable(stored, b) && GoodBuiltin(b) && ChangeOf(stored, Replace(full, pro), b).Write?
    requires forall e :: e in events ==> !e.0.Replace? && !e.0.ReconcileNow?
    requires var x := Run(Step(stored, Replace(full, pro), Written, b), events, b);
      Readable(x, b) && c in Read(x, b).connectors
    ensures var target := if c.id == Full then full else pro;
      c.tools == target.names && c.hash == target.hash && c.fingerprint == b.fingerprint(target.names)
  {
    var r, written := Read(stored, b), Step(stored, Replace(full, pro), Written, b);
    NormalizedIsWellFormed(stored.value, b);
    ChangeGrows(stored.value, Replace(full, pro), b);
    ReadBackIff(ChangeOf(stored, Replace(full, pro), b).next, b);
    CatalogsStayOver(written, events, b);
    var i :| 0 <= i < |Read(Run(written, events, b), b).connectors|
      && Read(Run(written, events, b), b).connectors[i] == c;
    assert SameCatalog(Read(written, b).connectors[i], c);
    ManifestInstalled(r, full, pro, b, Read(written, b).connectors[i]);
  }

  /** Over every run the owner of a connector never changes, and as long as one machine owns any, every
      other machine's attempt to bind a runtime is refused as an ownership conflict. */
  lemma OwnerNeverChanges(stored: Option<RawDocument>, events: seq<(Event, Fate)>, i: nat, runtimeId: string,
                          machine: Machine, b: Builtin)
    requires Readable(stored, b) && GoodBuiltin(b) && Readable(Run(stored, events, b), b)
    requires i < |Read(stored, b).connectors| && Read(stored, b).connectors[i].machineId.Some?
    ensures var x := Run(stored, events, b);
      && i < |Read(x, b).connectors| && Read(x, b).connectors[i].machineId == Read(stored, b).connectors[i].machineId
      && (Read(stored, b).connectors[i].machineId != Some(machine) ==>
            ChangeOf(x, Bind(runtimeId, machine), b) == Refuse(TunnelOwnershipConflict))
  {
    RunGrows(stored, events, b);
    var r, s := Read(stored, b), Read(Run(stored, events, b), b);
    assert ConnectorGrows(r.connectors[i], s.connectors[i]);
    NoTakeover(s, runtimeId, machine);
  }
}
