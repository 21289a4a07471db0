/** The single-owner lock of the runtime (apps/runtime/src/authority.ts).

    Any number of processes contend for one `owner.lock`. Every `await` of the source is a point
    where the others may run, so the model is a step machine: `Next` is what one process does
    between two awaits, `Apply` is one event of the whole system (a step, a crash, a new process),
    and `Run` is any interleaving of events. Each file operation is one atomic step. */
module Authority {
  import opened Wrappers

  type ProcId = nat

  /** What the operating system measures of a live process: its pid and its start marker. */
  datatype Start = Start(pid: nat, marker: nat)

  datatype Identity = Identity(pid: nat, instance: nat)

  /** The readable states of a record file. `Garbage` is an empty, partial or foreign file. */
  datatype Content =
    | Garbage
    | GuardRecord
    | Legacy(identity: Identity)
    | Owner(identity: Identity, marker: nat)
  {
    predicate IsOwner() { Legacy? || Owner? }
  }

  /** `By(p)` remembers who created the recovery lock; no process ever reads that. */
  datatype Lock = Absent | Leftover | By(creator: ProcId)

  datatype Files = Files(owner: Option<Content>, lock: Lock, guard: Option<Content>)

  datatype Code = AuthorityHeld | AuthorityIndeterminate | AuthorityChanged | PersistenceFailure | IoError

  datatype Verdict = Alive | Dead | Unknown

  datatype ClaimEnd = Published | Collided | Refused(code: Code)

  datatype RecoveryEnd = Retry | GiveUp(code: Code)

  /** The program counter: which await a process is at, with the locals it still needs. */
  datatype Pc =
    | Idle(outcome: Option<Code>)
    | MeasureSelf
    | Probe(attempt: nat)
    | ProbeLiveness(attempt: nat, doc: Content)
    | WriteClaim(attempt: nat)
    | LinkClaim(attempt: nat)
    | VerifyPublished(attempt: nat)
    | DropClaim(attempt: nat, end: ClaimEnd)
    | Held
    | ReleaseRead
    | ReleaseRename
    | ReleaseCheck(doc: Content)
    | ReleaseRestore(doc: Content)
    | ReleaseDrop
    | Released
    | ReleaseBroken
    | TakeLock(attempt: nat, expected: Identity)
    | WriteLock(attempt: nat, expected: Identity)
    | ReadUnderLock(attempt: nat, expected: Identity)
    | OtherLiveness(attempt: nat, doc: Content)
    | RecheckLiveness(attempt: nat, expected: Identity, doc: Content)
    | CreateGuard(attempt: nat, expected: Identity, doc: Content)
    | WriteGuard(attempt: nat, expected: Identity, doc: Content)
    | SwapIn(attempt: nat, expected: Identity, doc: Content)
    | AbortGuard(attempt: nat, expected: Identity, doc: Content)
    | CheckIsolated(attempt: nat, expected: Identity, doc: Content)
    | IsolatedLiveness(attempt: nat, expected: Identity, doc: Content)
    | RestoreMismatch(attempt: nat, isolated: Content)
    | RestoreSwap(attempt: nat, expected: Identity, doc: Content, code: Code)
    | RestoreDropGuard(attempt: nat, code: Code)
    | DropGuard(attempt: nat, expected: Identity, doc: Content)
    | DropOwner(attempt: nat, expected: Identity, doc: Content)
    | Unlock(attempt: nat, ending: RecoveryEnd)

  datatype Proc = Proc(identity: Identity, marker: nat, alive: bool, pc: Pc)

  datatype System = System(files: Files, procs: map<ProcId, Proc>, used: set<Identity>)

  /** What the environment decides about one step: whether the file operation succeeds, whether a
      failed swap took effect all the same, and whether a process start could be measured. */
  datatype Choice = Choice(io: bool, effect: bool, measured: bool)

  const MAX_ACQUISITION_ATTEMPTS: nat := 8
  const SMOOTH := Choice(true, true, true)

  function OwnRecord(identity: Identity, marker: nat): Content {
    Owner(identity, marker)
  }

  /** `processOwnerLiveness`: `live` holds the (pid, start marker) of every live process. */
  function Liveness(live: set<Start>, doc: Content, measured: bool): Verdict
    requires doc.IsOwner()
  {
    if !measured then Unknown
    else if doc.Legacy? then (if exists x | x in live :: x.pid == doc.identity.pid then Unknown else Dead)
    else if Start(doc.identity.pid, doc.marker) in live then Alive
    else Dead
  }

  function Swapped(f: Files): Files {
    f.(owner := f.guard, guard := f.owner)
  }

  /** `readOwner`: a file that cannot be read reads as an invalid one. */
  function ReadRecord(content: Option<Content>, io: bool): Option<Content> {
    if io then content else Some(Garbage)
  }

  /** One step of the process `p` with this identity, marker and program counter. */
  function Next(f: Files, live: set<Start>, p: ProcId, identity: Identity, marker: nat, pc: Pc,
                c: Choice): (r: (Files, Pc)) {
    match pc
    case MeasureSelf | Probe(_) | ProbeLiveness(_, _) | WriteClaim(_) | LinkClaim(_) | VerifyPublished(_) | DropClaim(_,
        _) =>
      NextAcquire(f, live, identity, marker, pc, c)
    case ReleaseRead | ReleaseRename | ReleaseCheck(_) | ReleaseRestore(_) | ReleaseDrop =>
      NextRelease(f, identity, marker, pc, c)
    case Idle(_) | Held | Released | ReleaseBroken => (f, pc)
    case TakeLock(_, _) | WriteLock(_, _) | ReadUnderLock(_, _) | OtherLiveness(_, _) | RecheckLiveness(_, _,
        _) | Unlock(_, _) =>
      NextLocked(f, live, p, pc, c)
    case CreateGuard(_, _, _) | WriteGuard(_, _, _) | SwapIn(_, _, _) | AbortGuard(_, _, _) =>
      NextIsolate(f, pc, c)
    case CheckIsolated(_, _, _) | IsolatedLiveness(_, _, _) | DropGuard(_, _, _) | DropOwner(_, _, _) =>
      NextRetire(f, live, pc, c)
    case RestoreMismatch(_, _) | RestoreSwap(_, _, _, _) | RestoreDropGuard(_, _) =>
      NextRestore(f, live, pc, c)
  }

  /** The body of the acquisition loop. */
  function NextAcquire(f: Files, live: set<Start>, identity: Identity, marker: nat, pc: Pc, c: Choice): (Files, Pc) {
    match pc
    case MeasureSelf =>
      (f, if c.measured then Probe(0) else Idle(Some(AuthorityIndeterminate)))
    case Probe(n) =>
      if n >= MAX_ACQUISITION_ATTEMPTS then (f, Idle(Some(AuthorityIndeterminate)))
      else (match ReadRecord(f.owner, c.io)
            case None => (f, WriteClaim(n))
            case Some(doc) => (f, if doc.IsOwner() then ProbeLiveness(n, doc) else Idle(Some(AuthorityIndeterminate))))
    case ProbeLiveness(n, doc) =>
      if !doc.IsOwner() then (f, Idle(Some(AuthorityIndeterminate)))
      else (match Liveness(live, doc, c.measured)
            case Alive => (f, Idle(Some(AuthorityHeld)))
            case Unknown => (f, Idle(Some(AuthorityIndeterminate)))
            case Dead => (f, TakeLock(n, doc.identity)))
    case WriteClaim(n) =>
      (f, if c.io then LinkClaim(n) else Idle(Some(IoError)))
    case LinkClaim(n) =>
      if f.owner.Some? then (f, DropClaim(n, Collided))
      else if !c.io then (f, DropClaim(n, Refused(PersistenceFailure)))
      else (f.(owner := Some(OwnRecord(identity, marker))), VerifyPublished(n))
    case VerifyPublished(n) =>
      var published := ReadRecord(f.owner, c.io) == Some(OwnRecord(identity, marker));
      (f, DropClaim(n, if published then Published else Refused(AuthorityIndeterminate)))
    case DropClaim(n, end) =>
      if !c.io then (f, Idle(Some(IoError)))
      else (match end
            case Published => (f, Held)
            case Collided => (f, Probe(n + 1))
            case Refused(code) => (f, Idle(Some(code))))
    case _ => (f, pc)
  }

  /** The body of `release`. */
  function NextRelease(f: Files, identity: Identity, marker: nat, pc: Pc, c: Choice): (Files, Pc) {
    match pc
    case ReleaseRead =>
      (f, if ReadRecord(f.owner, c.io) == Some(OwnRecord(identity, marker)) then ReleaseRename else Held)
    case ReleaseRename =>
      if !c.io || f.owner.None? then (f, Held)
      else (f.(owner := None), ReleaseCheck(f.owner.value))
    case ReleaseCheck(doc) =>
      // an unreadable quarantine is put back like a foreign one
      (f, if c.io && doc == OwnRecord(identity, marker) then ReleaseDrop else ReleaseRestore(doc))
    case ReleaseRestore(doc) =>
      if c.io && f.owner.None? then (f.(owner := Some(doc)), Held) else (f, ReleaseBroken)
    case ReleaseDrop =>
      (f, if c.io then Released else ReleaseBroken)
    case _ => (f, pc)
  }

  /** Under the recovery lock: taking it, re-reading the owner, letting it go. */
  function NextLocked(f: Files, live: set<Start>, p: ProcId, pc: Pc, c: Choice): (Files, Pc) {
    match pc
    case TakeLock(n, expected) =>
      if f.lock != Absent || !c.io then (f, Idle(Some(AuthorityIndeterminate)))
      else (f.(lock := By(p)), WriteLock(n, expected))
    case WriteLock(n, expected) =>
      (f, if c.io then ReadUnderLock(n, expected) else Idle(Some(IoError)))
    case ReadUnderLock(n, expected) =>
      (match ReadRecord(f.owner, c.io)
       case None => (f, Unlock(n, Retry))
       case Some(doc) =>
         if !doc.IsOwner() then (f, Unlock(n, GiveUp(AuthorityIndeterminate)))
         else if doc.identity != expected then (f, OtherLiveness(n, doc))
         else (f, RecheckLiveness(n, expected, doc)))
    case OtherLiveness(n, doc) =>
      (f, Unlock(n, GiveUp(CodeFor(live, doc, c))))
    case RecheckLiveness(n, expected, doc) =>
      if doc.IsOwner() && Liveness(live, doc, c.measured) == Dead then (f, CreateGuard(n, expected, doc))
      else (f, Unlock(n, GiveUp(CodeFor(live, doc, c))))
    case Unlock(n, end) =>
      if !c.io then (f, Idle(Some(AuthorityIndeterminate)))
      else (f.(lock := Absent), if end.Retry? then Probe(n + 1) else Idle(Some(end.code)))
    case _ => (f, pc)
  }

  /** The refusal for an owner record that turned out not to be the dead one. */
  function CodeFor(live: set<Start>, doc: Content, c: Choice): Code {
    if !doc.IsOwner() then AuthorityChanged
    else match Liveness(live, doc, c.measured)
      case Alive => AuthorityHeld
      case Unknown => AuthorityIndeterminate
      case Dead => AuthorityChanged
  }

  /** Writing the guard and swapping it with the owner file. */
  function NextIsolate(f: Files, pc: Pc, c: Choice): (Files, Pc) {
    match pc
    case CreateGuard(n, expected, doc) =>
      if f.guard.Some? || !c.io then (f, Unlock(n, GiveUp(IoError)))
      else (f.(guard := Some(Garbage)), WriteGuard(n, expected, doc))
    case WriteGuard(n, expected, doc) =>
      if !c.io then (f, Unlock(n, GiveUp(IoError)))
      else (f.(guard := Some(GuardRecord)), SwapIn(n, expected, doc))
    case SwapIn(n, expected, doc) =>
      if f.owner.None? || f.guard.None? then (f, AbortGuard(n, expected, doc))
      else if c.io then (Swapped(f), CheckIsolated(n, expected, doc))
      else (if c.effect then Swapped(f) else f, AbortGuard(n, expected, doc))
    case AbortGuard(n, _, _) =>
      if c.io then (f.(guard := None), Unlock(n, GiveUp(AuthorityIndeterminate)))
      else (f, Unlock(n, GiveUp(IoError)))
    case _ => (f, pc)
  }

  /** Checking what the swap isolated, then removing it and the guard in its place. */
  function NextRetire(f: Files, live: set<Start>, pc: Pc, c: Choice): (Files, Pc) {
    match pc
    case CheckIsolated(n, expected, doc) =>
      if !c.io then (f, RestoreSwap(n, expected, doc, AuthorityChanged))
      else if f.guard.Some? && f.guard.value.IsOwner() && f.guard.value.identity == expected
      then (f, IsolatedLiveness(n, expected, f.guard.value))
      else (f, RestoreMismatch(n, if f.guard.Some? then f.guard.value else Garbage))
    case IsolatedLiveness(n, expected, doc) =>
      if doc.IsOwner() && Liveness(live, doc, c.measured) == Dead then (f, DropGuard(n, expected, doc))
      else (f, RestoreSwap(n, expected, doc, CodeFor(live, doc, c)))
    case DropGuard(n, expected, doc) =>
      if c.io then (f.(guard := None), DropOwner(n, expected, doc)) else (f, Unlock(n, GiveUp(AuthorityIndeterminate)))
    case DropOwner(n, _, _) =>
      if c.io then (f.(owner := None), Unlock(n, Retry)) else (f, Unlock(n, GiveUp(AuthorityIndeterminate)))
    case _ => (f, pc)
  }

  /** `restoreSwappedOwner`: swapping back and removing the guard. */
  function NextRestore(f: Files, live: set<Start>, pc: Pc, c: Choice): (Files, Pc) {
    match pc
    case RestoreMismatch(n, isolated) =>
      if f.owner.Some? && f.guard.Some? && c.io then (Swapped(f), RestoreDropGuard(n, CodeFor(live, isolated, c)))
      else (f, Unlock(n, GiveUp(AuthorityIndeterminate)))
    case RestoreSwap(n, expected, doc, code) =>
      if f.owner.None? || f.guard.None? then (f, Unlock(n, GiveUp(AuthorityIndeterminate)))
      else if c.io then (Swapped(f), RestoreDropGuard(n, code))
      else (if c.effect then Swapped(f) else f, Unlock(n, GiveUp(AuthorityIndeterminate)))
    case RestoreDropGuard(n, code) =>
      if c.io then (f.(guard := None), Unlock(n, GiveUp(code))) else (f, Unlock(n, GiveUp(AuthorityIndeterminate)))
    case _ => (f, pc)
  }

  datatype Event =
    | Spawn(p: ProcId, identity: Identity, marker: nat)
    | Crash(p: ProcId)
    | BeginAcquire(p: ProcId)
    | BeginRelease(p: ProcId)
    | Step(p: ProcId, choice: Choice)

  ghost function LiveStarts(s: System): set<Start> {
    set p | p in s.procs && s.procs[p].alive :: Start(s.procs[p].identity.pid, s.procs[p].marker)
  }

  /** One event; an event that cannot happen changes nothing. A new process has a fresh instance
      id (a random UUID), and the operating system gives it a pid no live process has. */
  ghost function Apply(s: System, e: Event): System {
    match e
    case Spawn(p, identity, marker) =>
      if p in s.procs || identity in s.used || (exists x | x in LiveStarts(s) :: x.pid == identity.pid) then s
      else s.(procs := s.procs[p := Proc(identity, marker, true, Idle(None))], used := s.used + {identity})
    case Crash(p) =>
      if p !in s.procs then s else s.(procs := s.procs[p := s.procs[p].(alive := false)])
    case BeginAcquire(p) =>
      if p in s.procs && s.procs[p].alive && s.procs[p].pc.Idle? then WithPc(s, p, MeasureSelf) else s
    case BeginRelease(p) =>
      if p in s.procs && s.procs[p].alive && s.procs[p].pc.Held? then WithPc(s, p, ReleaseRead) else s
    case Step(p, c) =>
      if p in s.procs && s.procs[p].alive then StepOf(s, p, c) else s
  }

  function WithPc(s: System, p: ProcId, pc: Pc): System
    requires p in s.procs
  {
    s.(procs := s.procs[p := s.procs[p].(pc := pc)])
  }

  ghost function StepOf(s: System, p: ProcId, c: Choice): System
    requires p in s.procs
  {
    var me := s.procs[p];
    var r := Next(s.files, LiveStarts(s), p, me.identity, me.marker, me.pc, c);
    WithPc(s, p, r.1).(files := r.0)
  }

  ghost function Run(s: System, es: seq<Event>): System
    decreases es
  {
    if es == [] then s else Run(Apply(s, es[0]), es[1..])
  }
}
