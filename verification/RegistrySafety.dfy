/** Fencing over every run of the connector registry, and when a registry can still be read. */
module RegistrySafety {
  import opened Sets
  import opened Wrappers
  import opened ConnectorRegistry

  // ---- a well-formed registry --------------------------------------------------------------

  predicate GoodBuiltin(b: Builtin) {
    CatalogNames(b.full.names) && CatalogNames(b.pro.names)
  }

  predicate GoodConnector(c: Connector, epoch: int) {
    && c.epoch == epoch && NonNegativeSafe(c.lease) && Fenced(c.machineId, c.lease)
    && (c.runtimeId.Some? ==> Name(c.runtimeId.value)) && CatalogNames(c.tools)
  }

  predicate SameOwner(a: Option<Machine>, b: Option<Machine>) {
    a.None? || b.None? || a == b
  }

  /** Both connectors, at the epoch of the document; a machine exactly where there is a lease; one
      owner; and an admin tunnel of its own. */
  predicate WellFormed(r: Registry) {
    && PositiveSafe(r.epoch) && |r.connectors| == 2 && r.connectors[0].id != r.connectors[1].id
    && GoodConnector(r.connectors[0], r.epoch) && GoodConnector(r.connectors[1], r.epoch)
    && SameOwner(r.connectors[0].machineId, r.connectors[1].machineId)
    && (r.admin.Some? ==>
          && NonNegativeSafe(r.admin.value.lease) && Fenced(r.admin.value.machineId, r.admin.value.lease)
          && r.admin.value.tunnelId != r.connectors[0].tunnelId && r.admin.value.tunnelId != r.connectors[1].tunnelId
          && SameOwner(r.admin.value.machineId, r.connectors[0].machineId)
             && SameOwner(r.admin.value.machineId, r.connectors[1].machineId))
  }

  lemma OneOwner(a: Option<Machine>, b: Option<Machine>, c: Option<Machine>)
    ensures |OwnerOf(Some(a)) + OwnerOf(Some(b)) + OwnerOf(Some(c))| <= 1
      <==> SameOwner(a, b) && SameOwner(c, a) && SameOwner(c, b)
  {
    var owners := OwnerOf(Some(a)) + OwnerOf(Some(b)) + OwnerOf(Some(c));
    var some := if a.Some? then a else if b.Some? then b else c;
    if some.None? {
      assert owners == {};
    } else if SameOwner(a, b) && SameOwner(c, a) && SameOwner(c, b) {
      assert owners == {some.value};
    } else {
      var x, y :| x in owners && y in owners && x != y;
      assert {x, y} <= owners;
      SubsetIsSmaller({x, y}, owners);
    }
  }

  /** Whatever document is accepted, its registry is fenced: every connector is at the document's epoch,
      and has a machine exactly when it has a lease. */
  lemma NormalizedIsWellFormed(d: RawDocument, b: Builtin)
    requires Normalize(d, b).Success? && GoodBuiltin(b)
    ensures WellFormed(Normalize(d, b).value)
  {
    var c0, c1 := d.connectors[0], d.connectors[1];
    OneOwner(OrNull(c0.machineId), OrNull(c1.machineId), if d.admin.Some? then OrNull(d.admin.value.machineId)
             else None);
    assert Owners(d) == OwnerOf(Some(OrNull(c0.machineId))) + OwnerOf(Some(OrNull(c1.machineId)))
                        + OwnerOf(Some(if d.admin.Some? then OrNull(d.admin.value.machineId) else None));
  }

  /** What is written is read back as it was, exactly when it is well-formed; otherwise it can no longer
      be read. Tool names are not checked when reading, so they are taken as valid here. */
  lemma ReadBackIff(r: Registry, b: Builtin)
    requires |r.connectors| == 2 && forall c :: c in r.connectors ==> CatalogNames(c.tools)
    ensures WellFormed(r) ==> Normalize(DocumentOf(r), b) == Success(r)
    ensures !WellFormed(r) ==> Normalize(DocumentOf(r), b).Failure?
  {
    var d := DocumentOf(r);
    var c0, c1 := r.connectors[0], r.connectors[1];
    assert d.connectors == [RawOf(c0), RawOf(c1)];
    OneOwner(c0.machineId, c1.machineId, if r.admin.Some? then r.admin.value.machineId else None);
    assert Owners(d) == OwnerOf(Some(c0.machineId)) + OwnerOf(Some(c1.machineId))
                        + OwnerOf(Some(if r.admin.Some? then r.admin.value.machineId else None));
    assert r.connectors == [c0, c1];
  }

  // ---- one step ----------------------------------------------------------------------------

  /** The writes that cannot be read back: an admin tunnel bound by one machine while another owns a
      connector, and a runtime id that is not a name. */
  predicate Unreadable(r: Registry, e: Event) {
    || (e.BindAdminTunnel? && exists c :: c in r.connectors && Foreign(c.machineId, e.machine))
    || (e.Bind? && !Name(e.runtimeId))
  }

  lemma Pair(r: Registry)
    requires |r.connectors| == 2
    ensures forall c :: c in r.connectors <==> c == r.connectors[0] || c == r.connectors[1]
  {
  }

  lemma BindWrites(r: Registry, runtimeId: string, machine: Machine)
    requires WellFormed(r) && BindRuntime(r, runtimeId, machine).Write?
    ensures var next := BindRuntime(r, runtimeId, machine).next; Grows(r, next) && next.epoch == r.epoch + 1
    ensures var next := BindRuntime(r, runtimeId, machine).next; WellFormed(next) <==> Name(runtimeId)
  {
    Pair(r);
  }

  lemma CatalogWrites(r: Registry, full: Catalog, pro: Catalog, b: Builtin)
    requires WellFormed(r) && CatalogNames(full.names) && CatalogNames(pro.names) && NextEpoch(r).Success?
    ensures var epoch := NextEpoch(r).value;
      var next :=
        r.(epoch := epoch,
           connectors :=
             MapConnectors(r, (c: Connector) => WithCatalog(c, if c.id == Full then full else pro, b, epoch)));
      WellFormed(next) && Grows(r, next) && next.epoch == r.epoch + 1
  {
  }

  lemma AdvanceWrites(r: Registry)
    requires WellFormed(r) && AdvanceEpoch(r).Write?
    ensures var next := AdvanceEpoch(r).next; WellFormed(next) && Grows(r, next) && next.epoch == r.epoch + 1
  {
  }

  lemma ReconcileWrites(r: Registry, changed: bool, b: Builtin)
    requires WellFormed(r) && GoodBuiltin(b) && Reconcile(r, changed, b).Write?
    ensures var next := Reconcile(r, changed, b).next; WellFormed(next) && Grows(r, next) && next.epoch == r.epoch + 1
  {
  }

  lemma AdminWrites(r: Registry, tunnelId: Tunnel, machine: Machine)
    requires WellFormed(r) && BindAdmin(r, tunnelId, machine).Write?
    ensures var next := BindAdmin(r, tunnelId, machine).next;
      Grows(r, next) && next.connectors == r.connectors && next.epoch == r.epoch
    ensures var next := BindAdmin(r, tunnelId, machine).next;
      WellFormed(next) <==> !(exists c :: c in r.connectors && Foreign(c.machineId, machine))
  {
    Pair(r);
  }

  /** Whoever owns a binding keeps it. */
  predicate KeepsOwner(before: Option<Machine>, after: Option<Machine>) {
    before.Some? ==> after == before
  }

  /** Epochs and leases do not go back, the tunnels stay, and no owner changes. */
  predicate Grows(r: Registry, s: Registry) {
    && r.epoch <= s.epoch && |r.connectors| == |s.connectors|
    && (forall i :: 0 <= i < |r.connectors| ==> ConnectorGrows(r.connectors[i], s.connectors[i]))
    && (r.admin.Some? ==> s.admin.Some? && AdminGrows(r.admin.value, s.admin.value))
  }

  predicate AdminGrows(a: Admin, b: Admin) {
    b.tunnelId == a.tunnelId && a.lease <= b.lease && KeepsOwner(a.machineId, b.machineId)
  }

  predicate ConnectorGrows(c: Connector, d: Connector) {
    d.id == c.id && d.tunnelId == c.tunnelId && c.lease <= d.lease && c.epoch <= d.epoch
      && KeepsOwner(c.machineId, d.machineId)
  }

  /** Every write but that of an admin tunnel raises the epoch by one; none lowers an epoch or a lease;
      and it can be read back unless it is one of the two unreadable ones. */
  lemma ChangeGrows(d: RawDocument, e: Event, b: Builtin)
    requires Normalize(d, b).Success? && GoodBuiltin(b) && ChangeOf(Some(d), e, b).Write?
    ensures var r, next := Normalize(d, b).value, ChangeOf(Some(d), e, b).next;
      && Grows(r, next) && next.epoch == (if e.BindAdminTunnel? then r.epoch else r.epoch + 1)
      && (WellFormed(next) <==> !Unreadable(r, e))
      && |next.connectors| == 2 && forall c :: c in next.connectors ==> CatalogNames(c.tools)
  {
    var r := Normalize(d, b).value;
    NormalizedIsWellFormed(d, b);
    Pair(r);
    Pair(ChangeOf(Some(d), e, b).next);
    match e
    case Bind(runtimeId, machine) => BindWrites(r, runtimeId, machine);
    case Advance => AdvanceWrites(r);
    case Replace(full, pro) => CatalogWrites(r, full, pro, b);
    case ReconcileNow => ReconcileWrites(r, Changed(d, b), b);
    case BindAdminTunnel(tunnelId, machine) => AdminWrites(r, tunnelId, machine);
  }
}
