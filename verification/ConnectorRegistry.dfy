/** The connector registry: two workload connectors and an optional admin connector, whose deployment
    epoch and lease generations fence off the claims of earlier deployments and other machines. Reading,
    changing and rewriting the document is one step: the supervisor does it under its operation lock. */
module ConnectorRegistry {
  import opened Storage
  import opened Wrappers

  const MAX_SAFE_INTEGER: int := 9007199254740991

  /** A valid machine UUID and a valid tunnel id. */
  type Machine = nat
  type Tunnel = nat

  datatype Profile = Full | Pro

  // ---- the document as it is stored --------------------------------------------------------

  /** A connector entry as parsed from the file. `shaped` says that its label, mode, paths and port are
      those of its id; fields that may be missing are `None`, and a present null is `Some(None)`. */
  datatype RawConnector = RawConnector(
    id: Option<Profile>, shaped: bool, tunnelId: Tunnel, tools: Option<seq<string>>, fingerprint: Option<string>,
      hash: Option<string>,
    machineId: Option<Option<Machine>>, runtimeId: Option<Option<string>>, epoch: Option<int>, lease: Option<int>)

  datatype RawAdmin = RawAdmin(shaped: bool, tunnelId: Tunnel, machineId: Option<Option<Machine>>, lease: Option<int>)

  datatype RawDocument = RawDocument(schema: int, epoch: int, connectors: seq<RawConnector>, admin: Option<RawAdmin>)

  // ---- the registry ------------------------------------------------------------------------

  datatype Connector = Connector(
    id: Profile, tunnelId: Tunnel, tools: seq<string>, fingerprint: string, hash: string,
    machineId: Option<Machine>, runtimeId: Option<string>, epoch: int, lease: int)

  datatype Admin = Admin(tunnelId: Tunnel, machineId: Option<Machine>, lease: int)

  datatype Registry = Registry(epoch: int, connectors: seq<Connector>, admin: Option<Admin>)

  datatype Catalog = Catalog(names: seq<string>, hash: string)

  /** The tool catalogs built into this version, and the hash of a list of tool names. */
  datatype Builtin = Builtin(full: Catalog, pro: Catalog, fingerprint: seq<string> -> string)
  {
    function Of(id: Profile): Catalog {
      if id == Full then full else pro
    }
  }

  datatype Error =
    | InvalidRequest | PersistenceFailure | MigrationRequired
    | PreconditionFailed | TunnelOwnershipConflict | SplitIdentity

  // ---- reading -----------------------------------------------------------------------------

  predicate PositiveSafe(n: int) {
    0 < n <= MAX_SAFE_INTEGER
  }

  predicate NonNegativeSafe(n: int) {
    0 <= n <= MAX_SAFE_INTEGER
  }

  predicate NameCharacter(c: char) {
    'A' <= c <= 'Z' || 'a' <= c <= 'z' || '0' <= c <= '9' || c == '.' || c == '_' || c == ':' || c == '-'
  }

  /** A runtime id, and a tool name, is up to two hundred such characters. */
  predicate Name(s: string) {
    0 < |s| <= 200 && forall c :: c in s ==> NameCharacter(c)
  }

  predicate CatalogNames(names: seq<string>) {
    && |names| <= 256 && (forall n :: n in names ==> Name(n))
    && forall i, j :: 0 <= i < j < |names| ==> names[i] != names[j]
  }

  predicate ShapedConnector(c: RawConnector, epoch: int) {
    && c.id.Some? && c.shaped
    && (c.runtimeId.Some? && c.runtimeId.value.Some? ==> Name(c.runtimeId.value.value))
    && (c.epoch.Some? ==> PositiveSafe(c.epoch.value) && c.epoch.value == epoch)
    && (c.lease.Some? ==> NonNegativeSafe(c.lease.value))
  }

  predicate ShapedAdmin(a: RawAdmin) {
    a.shaped && (a.lease.Some? ==> NonNegativeSafe(a.lease.value))
  }

  /** `value ?? null`. */
  function OrNull<T>(field: Option<Option<T>>): Option<T> {
    if field.Some? then field.value else None
  }

  function Owners(d: RawDocument): set<Machine>
    requires |d.connectors| == 2
  {
    OwnerOf(d.connectors[0].machineId) + OwnerOf(d.connectors[1].machineId)
    + (if d.admin.Some? then OwnerOf(d.admin.value.machineId) else {})
  }

  function OwnerOf(field: Option<Option<Machine>>): set<Machine> {
    match OrNull(field) case None => {} case Some(m) => {m}
  }

  function LeaseOf(machineId: Option<Machine>, lease: Option<int>): int {
    if lease.Some? then lease.value else if machineId.None? then 0 else 1
  }

  predicate Fenced(machineId: Option<Machine>, lease: int) {
    machineId.None? <==> lease <= 0
  }

  function NormalConnector(c: RawConnector, epoch: int, b: Builtin): Connector
    requires c.id.Some?
  {
    var current := b.Of(c.id.value);
    var tools := if c.tools.Some? && CatalogNames(c.tools.value) then c.tools.value else current.names;
    Connector(c.id.value, c.tunnelId, tools,
              if c.fingerprint.Some? then c.fingerprint.value else b.fingerprint(tools),
              if c.hash.Some? then c.hash.value else current.hash,
              OrNull(c.machineId), OrNull(c.runtimeId), epoch, LeaseOf(OrNull(c.machineId), c.lease))
  }

  function NormalAdmin(a: RawAdmin): Admin {
    Admin(a.tunnelId, OrNull(a.machineId), LeaseOf(OrNull(a.machineId), a.lease))
  }

  /** What `normalizeRegistry` accepts. */
  predicate Acceptable(d: RawDocument) {
    && 1 <= d.schema <= 3 && PositiveSafe(d.epoch) && |d.connectors| == 2
    && ShapedConnector(d.connectors[0], d.epoch) && ShapedConnector(d.connectors[1], d.epoch)
    && d.connectors[0].id != d.connectors[1].id
    && (d.admin.Some? ==>
          ShapedAdmin(d.admin.value) && d.admin.value.tunnelId != d.connectors[0].tunnelId
            && d.admin.value.tunnelId != d.connectors[1].tunnelId)
    && |Owners(d)| <= 1
    && FencedField(d.connectors[0].machineId, d.connectors[0].lease)
       && FencedField(d.connectors[1].machineId, d.connectors[1].lease)
    && (d.admin.Some? ==> FencedField(d.admin.value.machineId, d.admin.value.lease))
  }

  predicate FencedField(machineId: Option<Option<Machine>>, lease: Option<int>) {
    Fenced(OrNull(machineId), LeaseOf(OrNull(machineId), lease))
  }

  predicate Stale(c: RawConnector, epoch: int, b: Builtin) {
    var source := if c.id == Some(Full) then b.full else b.pro;
    c.tools != Some(source.names) || c.fingerprint != Some(b.fingerprint(source.names)) || c.hash != Some(source.hash)
      || c.epoch != Some(epoch)
  }

  predicate Changed(d: RawDocument, b: Builtin)
    requires |d.connectors| == 2
  {
    || d.schema != 3
    || d.connectors[0].machineId.None? || d.connectors[0].lease.None? || d.connectors[1].machineId.None?
       || d.connectors[1].lease.None?
    || Stale(d.connectors[0], d.epoch, b) || Stale(d.connectors[1], d.epoch, b)
  }

  function Normalize(d: RawDocument, b: Builtin): Result<Registry, Error> {
    if !Acceptable(d) then Failure(PersistenceFailure)
    else Success(Registry(d.epoch,
                          [NormalConnector(d.connectors[0], d.epoch, b), NormalConnector(d.connectors[1], d.epoch, b)],
                          if d.admin.None? then None else Some(NormalAdmin(d.admin.value))))
  }

  // ---- writing -----------------------------------------------------------------------------

  function RawOf(c: Connector): RawConnector {
    RawConnector(Some(c.id), true, c.tunnelId, Some(c.tools), Some(c.fingerprint), Some(c.hash),
                 Some(c.machineId), Some(c.runtimeId), Some(c.epoch), Some(c.lease))
  }

  function DocumentOf(r: Registry): RawDocument {
    RawDocument(3, r.epoch, seq(|r.connectors|, i requires 0 <= i < |r.connectors| => RawOf(r.connectors[i])),
                if r.admin.None? then None
                  else Some(RawAdmin(true, r.admin.value.tunnelId, Some(r.admin.value.machineId),
                                     Some(r.admin.value.lease))))
  }

  // ---- the operations ----------------------------------------------------------------------

  /** What an operation does with the registry it read. */
  datatype Change = Unchanged | Write(next: Registry) | Refuse(error: Error)

  function MapConnectors(r: Registry, f: Connector -> Connector): seq<Connector> {
    seq(|r.connectors|, i requires 0 <= i < |r.connectors| => f(r.connectors[i]))
  }

  function NextEpoch(r: Registry): Result<int, Error> {
    if PositiveSafe(r.epoch + 1) then Success(r.epoch + 1) else Failure(PersistenceFailure)
  }

  predicate OwnedBy(c: Connector, machine: Machine, runtimeId: string) {
    c.machineId == Some(machine) && c.runtimeId == Some(runtimeId) && c.lease > 0
  }

  predicate Foreign(machineId: Option<Machine>, machine: Machine) {
    machineId.Some? && machineId.value != machine
  }

  /** `bindConnectorRuntime`. */
  function BindRuntime(r: Registry, runtimeId: string, machine: Machine): Change {
    if exists c :: c in r.connectors && Foreign(c.machineId, machine) then Refuse(TunnelOwnershipConflict)
    else if r.admin.Some? && Foreign(r.admin.value.machineId, machine) then Refuse(TunnelOwnershipConflict)
    else if forall c :: c in r.connectors ==> OwnedBy(c, machine, runtimeId) then Unchanged
    else match NextEpoch(r)
      case Failure(error) => Refuse(error)
      case Success(epoch) =>
        if exists c :: c in r.connectors && !PositiveSafe(c.lease + 1) then Refuse(PersistenceFailure)
        else Write(r.(epoch := epoch,
                      connectors :=
                        MapConnectors(r, (c: Connector) =>
                                        c.(machineId := Some(machine), runtimeId := Some(runtimeId), epoch := epoch,
                                           lease := c.lease + 1))))
  }

  /** `advanceConnectorDeploymentEpoch`. */
  function AdvanceEpoch(r: Registry): Change {
    match NextEpoch(r)
    case Failure(error) => Refuse(error)
    case Success(epoch) =>
      Write(r.(epoch := epoch, connectors := MapConnectors(r, (c: Connector) => c.(epoch := epoch))))
  }

  function WithCatalog(c: Connector, target: Catalog, b: Builtin, epoch: int): Connector {
    c.(tools := target.names, fingerprint := b.fingerprint(target.names), hash := target.hash, epoch := epoch)
  }

  /** A manifest that is let through before the registry is read; the hashes are taken as well-formed. */
  predicate GoodManifest(full: Catalog, pro: Catalog) {
    CatalogNames(full.names) && full.names != [] && CatalogNames(pro.names) && pro.names != []
  }

  /** `replaceConnectorCatalogManifest`. */
  function ReplaceManifest(r: Registry, full: Catalog, pro: Catalog, b: Builtin): Change {
    match NextEpoch(r)
    case Failure(error) => Refuse(error)
    case Success(epoch) =>
      Write(r.(epoch := epoch,
               connectors :=
                 MapConnectors(r, (c: Connector) => WithCatalog(c, if c.id == Full then full else pro, b, epoch))))
  }

  /** `reconcileConnectorRegistry`: `changed` is what reading the document found out. */
  function Reconcile(r: Registry, changed: bool, b: Builtin): Change {
    if !changed then Unchanged
    else match NextEpoch(r)
      case Failure(error) => Refuse(error)
      case Success(epoch) =>
        Write(r.(epoch := epoch,
                 connectors := MapConnectors(r, (c: Connector) => WithCatalog(c, b.Of(c.id), b, epoch))))
  }

  /** `bindAdminTunnelIdentity`. */
  function BindAdmin(r: Registry, tunnelId: Tunnel, machine: Machine): Change {
    if exists c :: c in r.connectors && c.tunnelId == tunnelId then Refuse(PreconditionFailed)
    else if r.admin.Some? && Foreign(r.admin.value.machineId, machine) then Refuse(TunnelOwnershipConflict)
    else if r.admin.Some? && r.admin.value.tunnelId != tunnelId then Refuse(PreconditionFailed)
    else if r.admin.Some? && r.admin.value.machineId == Some(machine) && r.admin.value.lease > 0 then Unchanged
    else
      var lease := (if r.admin.Some? then r.admin.value.lease else 0) + 1;
      if !PositiveSafe(lease) then Refuse(PersistenceFailure)
        else Write(r.(admin := Some(Admin(tunnelId, Some(machine), lease))))
  }

  /** `initializeConnectorRegistry` on an empty store. */
  function Create(full: Tunnel, pro: Tunnel, admin: Option<Tunnel>, machine: Machine, b: Builtin): Change {
    if full == pro || admin == Some(full) || admin == Some(pro) then Refuse(InvalidRequest)
    else Write(Registry(1, [NewConnector(Full, full, machine, b), NewConnector(Pro, pro, machine, b)],
                        if admin.None? then None else Some(Admin(admin.value, Some(machine), 1))))
  }

  function NewConnector(id: Profile, tunnelId: Tunnel, machine: Machine, b: Builtin): Connector {
    Connector(id, tunnelId, b.Of(id).names, b.fingerprint(b.Of(id).names), b.Of(id).hash, Some(machine), None, 1, 1)
  }

  // ---- claims and coherence ----------------------------------------------------------------

  datatype Claim = Claim(
    tunnelId: Tunnel, machineId: Machine, runtimeId: string, instanceGiven: bool, epoch: int, hash: string,
      profile: Profile, lease: int)

  /** `assertTunnelBindingClaim`. */
  function RefusedClaim(c: Connector, claim: Claim): Option<Error> {
    if c.machineId.None? || c.runtimeId.None? || c.lease <= 0 then Some(SplitIdentity)
    else if claim.tunnelId != c.tunnelId || Some(claim.machineId) != c.machineId || claim.lease != c.lease then
      Some(TunnelOwnershipConflict)
    else if Some(claim.runtimeId) != c.runtimeId || claim.profile != c.id || claim.epoch != c.epoch
      || claim.hash != c.hash then Some(SplitIdentity)
    else if !claim.instanceGiven then Some(SplitIdentity)
    else None
  }

  datatype Assessment = Coherent | Unbound | OwnershipConflict | Split

  /** `assessConnectorRegistryIdentity`. */
  function Assess(r: Registry, machine: Machine, runtimeId: string, anyStale: bool): Assessment {
    if exists c :: c in r.connectors && Foreign(c.machineId, machine) then OwnershipConflict
    else if exists c :: c in r.connectors && c.runtimeId.Some? && c.runtimeId.value != runtimeId then Split
    else if anyStale then Split
    else if exists c :: c in r.connectors && (c.machineId.None? || c.runtimeId.None? || c.lease <= 0) then Unbound
    else Coherent
  }

  // ---- events and runs ---------------------------------------------------------------------

  /** `machine` is what the machine-identity file answers, or the override. */
  datatype Event =
    | Initialize(full: Tunnel, pro: Tunnel, adminTunnel: Option<Tunnel>, machine: Machine)
    | Bind(runtimeId: string, machine: Machine)
    | Advance
    | Replace(fullCatalog: Catalog, proCatalog: Catalog)
    | ReconcileNow
    | BindAdminTunnel(tunnelId: Tunnel, machine: Machine)

  function ChangeOf(stored: Option<RawDocument>, e: Event, b: Builtin): Change {
    if e.Replace? && !GoodManifest(e.fullCatalog, e.proCatalog) then Refuse(InvalidRequest)
    else if stored.None? then
      if e.Initialize? then Create(e.full, e.pro, e.adminTunnel, e.machine, b)
      else if e.ReconcileNow? then Unchanged
      else Refuse(MigrationRequired)
    else match Normalize(stored.value, b)
      case Failure(error) => Refuse(error)
      case Success(r) =>
        match e
        case Initialize(_, _, _, _) => Unchanged
        case Bind(runtimeId, machine) => BindRuntime(r, runtimeId, machine)
        case Advance => AdvanceEpoch(r)
        case Replace(full, pro) => ReplaceManifest(r, full, pro, b)
        case ReconcileNow => Reconcile(r, Changed(stored.value, b), b)
        case BindAdminTunnel(tunnelId, machine) => BindAdmin(r, tunnelId, machine)
  }

  function Step(stored: Option<RawDocument>, e: Event, fate: Fate, b: Builtin): Option<RawDocument> {
    var change := ChangeOf(stored, e, b);
    if change.Write? && Persists(fate) then Some(DocumentOf(change.next)) else stored
  }

  function Run(stored: Option<RawDocument>, events: seq<(Event, Fate)>, b: Builtin): Option<RawDocument>
    decreases |events|
  {
    if events == [] then stored else Run(Step(stored, events[0].0, events[0].1, b), events[1..], b)
  }
}
