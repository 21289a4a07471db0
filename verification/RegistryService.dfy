/** The registry operations as they run: read, normalize, rewrite. */
module RegistryService {
  import opened Storage
  import opened Wrappers
  import opened ConnectorRegistry

  class RegistryStore {
    /** The stored document, if there is one. */
    var stored: Option<RawDocument>
    const builtin: Builtin

    constructor (stored: Option<RawDocument>, builtin: Builtin)
      ensures this.stored == stored && this.builtin == builtin
    {
      this.stored, this.builtin := stored, builtin;
    }

    /** `requireConnectorRegistry`. */
    method Require() returns (r: Result<Registry, Error>)
      ensures r == if stored.None? then Failure(MigrationRequired) else Normalize(stored.value, builtin)
    {
      if stored.None? {
        return Failure(MigrationRequired);
      }
      return Normalize(stored.value, builtin);
    }

    method WriteRegistry(next: Registry, fate: Fate)
      modifies this`stored
      ensures stored == if Persists(fate) then Some(DocumentOf(next)) else old(stored)
    {
      if fate == Written || fate == CrashAfter {
        stored := Some(DocumentOf(next));
      }
    }

    /** The `map` over the connectors. */
    method RewriteConnectors(r: Registry, rewrite: Connector -> Connector) returns (connectors: seq<Connector>)
      ensures connectors == MapConnectors(r, rewrite)
    {
      connectors := [];
      for i := 0 to |r.connectors|
        invariant connectors == MapConnectors(r, rewrite)[..i]
      {
        connectors := connectors + [rewrite(r.connectors[i])];
      }
    }

    method InitializeRegistry(full: Tunnel, pro: Tunnel, admin: Option<Tunnel>, machine: Machine,
                              fate: Fate) returns (error: Option<Error>)
      modifies this`stored
      ensures stored == Step(old(stored), Initialize(full, pro, admin, machine), fate, builtin)
      ensures var change := ChangeOf(old(stored), Initialize(full, pro, admin, machine), builtin);
        error == if change.Refuse? then Some(change.error) else None
    {
      if stored.Some? {
        var existing := Normalize(stored.value, builtin);
        return if existing.Failure? then Some(existing.error) else None;
      }
      if full == pro || admin == Some(full) || admin == Some(pro) {
        return Some(InvalidRequest);
      }
      var created := Registry(1, [NewConnector(Full, full, machine, builtin), NewConnector(Pro, pro, machine, builtin)],
                              if admin.None? then None else Some(Admin(admin.value, Some(machine), 1)));
      WriteRegistry(created, fate);
      return None;
    }

    method BindConnectorRuntime(runtimeId: string, machine: Machine, fate: Fate) returns (error: Option<Error>)
      modifies this`stored
      ensures stored == Step(old(stored), Bind(runtimeId, machine), fate, builtin)
      ensures var change := ChangeOf(old(stored), Bind(runtimeId, machine), builtin);
        error == if change.Refuse? then Some(change.error) else None
    {
      var current := Require();
      if current.Failure? {
        return Some(current.error);
      }
      var change := BoundTo(current.value, runtimeId, machine);
      if change.Refuse? {
        return Some(change.error);
      }
      if change.Write? {
        WriteRegistry(change.next, fate);
      }
      return None;
    }

    /** What binding makes of the registry that was read. */
    method BoundTo(r: Registry, runtimeId: string, machine: Machine) returns (change: Change)
      ensures change == BindRuntime(r, runtimeId, machine)
    {
      if exists c :: c in r.connectors && Foreign(c.machineId, machine) {
        return Refuse(TunnelOwnershipConflict);
      }
      if r.admin.Some? && Foreign(r.admin.value.machineId, machine) {
        return Refuse(TunnelOwnershipConflict);
      }
      if forall c :: c in r.connectors ==> OwnedBy(c, machine, runtimeId) {
        return Unchanged;
      }
      var epoch := r.epoch + 1;
      if !PositiveSafe(epoch) || exists c :: c in r.connectors && !PositiveSafe(c.lease + 1) {
        return Refuse(PersistenceFailure);
      }
      var connectors :=
        RewriteConnectors(r, (c: Connector) =>
                            c.(machineId := Some(machine), runtimeId := Some(runtimeId), epoch := epoch,
                               lease := c.lease + 1));
      return Write(r.(epoch := epoch, connectors := connectors));
    }

    method AdvanceDeploymentEpoch(fate: Fate) returns (error: Option<Error>)
      modifies this`stored
      ensures stored == Step(old(stored), Advance, fate, builtin)
      ensures var change := ChangeOf(old(stored), Advance, builtin);
        error == if change.Refuse? then Some(change.error) else None
    {
      var current := Require();
      if current.Failure? {
        return Some(current.error);
      }
      var r := current.value;
      var epoch := r.epoch + 1;
      if !PositiveSafe(epoch) {
        return Some(PersistenceFailure);
      }
      var connectors := RewriteConnectors(r, (c: Connector) => c.(epoch := epoch));
      WriteRegistry(r.(epoch := epoch, connectors := connectors), fate);
      return None;
    }

    method ReplaceCatalogManifest(full: Catalog, pro: Catalog, fate: Fate) returns (error: Option<Error>)
      modifies this`stored
      ensures stored == Step(old(stored), Replace(full, pro), fate, builtin)
      ensures var change := ChangeOf(old(stored), Replace(full, pro), builtin);
        error == if change.Refuse? then Some(change.error) else None
    {
      if !GoodManifest(full, pro) {
        return Some(InvalidRequest);
      }
      var current := Require();
      if current.Failure? {
        return Some(current.error);
      }
      var r := current.value;
      var epoch := r.epoch + 1;
      if !PositiveSafe(epoch) {
        return Some(PersistenceFailure);
      }
      var b := builtin;
      var connectors :=
        RewriteConnectors(r, (c: Connector) => WithCatalog(c, if c.id == Full then full else pro, b, epoch));
      WriteRegistry(r.(epoch := epoch, connectors := connectors), fate);
      return None;
    }

    method ReconcileRegistry(fate: Fate) returns (error: Option<Error>)
      modifies this`stored
      ensures stored == Step(old(stored), ReconcileNow, fate, builtin)
      ensures var change := ChangeOf(old(stored), ReconcileNow, builtin);
        error == if change.Refuse? then Some(change.error) else None
    {
      if stored.None? {
        return None;
      }
      var parsed := Normalize(stored.value, builtin);
      if parsed.Failure? {
        return Some(parsed.error);
      }
      if !Changed(stored.value, builtin) {
        return None;
      }
      var r := parsed.value;
      var epoch := r.epoch + 1;
      if !PositiveSafe(epoch) {
        return Some(PersistenceFailure);
      }
      var b := builtin;
      var connectors := RewriteConnectors(r, (c: Connector) => WithCatalog(c, b.Of(c.id), b, epoch));
      WriteRegistry(r.(epoch := epoch, connectors := connectors), fate);
      return None;
    }

    method BindAdminTunnelIdentity(tunnelId: Tunnel, machine: Machine, fate: Fate) returns (error: Option<Error>)
      modifies this`stored
      ensures stored == Step(old(stored), BindAdminTunnel(tunnelId, machine), fate, builtin)
      ensures var change := ChangeOf(old(stored), BindAdminTunnel(tunnelId, machine), builtin);
        error == if change.Refuse? then Some(change.error) else None
    {
      var current := Require();
      if current.Failure? {
        return Some(current.error);
      }
      var change := AdminBoundTo(current.value, tunnelId, machine);
      if change.Refuse? {
        return Some(change.error);
      }
      if change.Write? {
        WriteRegistry(change.next, fate);
      }
      return None;
    }

    method AdminBoundTo(r: Registry, tunnelId: Tunnel, machine: Machine) returns (change: Change)
      ensures change == BindAdmin(r, tunnelId, machine)
    {
      if exists c :: c in r.connectors && c.tunnelId == tunnelId {
        return Refuse(PreconditionFailed);
      }
      var lease := 1;
      if r.admin.Some? {
        var admin := r.admin.value;
        if admin.machineId.Some? && admin.machineId.value != machine {
          return Refuse(TunnelOwnershipConflict);
        }
        if admin.tunnelId != tunnelId {
          return Refuse(PreconditionFailed);
        }
        if admin.machineId == Some(machine) && admin.lease > 0 {
          return Unchanged;
        }
        lease := admin.lease + 1;
      }
      if !PositiveSafe(lease) {
        return Refuse(PersistenceFailure);
      }
      return Write(r.(admin := Some(Admin(tunnelId, Some(machine), lease))));
    }
  }
}
