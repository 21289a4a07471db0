/** The acquisition and release code itself, run by one process while nobody else moves and no file
    operation fails. Every file operation below is one step of the protocol in module Authority, so
    what the code does alone is one of the runs the safety theorems speak about. */
module AuthoritySolo {
  import opened Wrappers
  import opened Authority

  /** `n` undisturbed steps of one process. */
  function Solo(f: Files, live: set<Start>, p: ProcId, identity: Identity, marker: nat, pc: Pc, n: nat): (Files, Pc) {
    if n == 0 then (f, pc)
    else var r := Solo(f, live, p, identity, marker, pc, n - 1);
         Next(r.0, live, p, identity, marker, r.1, SMOOTH)
  }

  function Steps(p: ProcId, n: nat): seq<Event> {
    seq(n, _ => Step(p, SMOOTH))
  }

  lemma {:induction false} RunAppend(s: System, es: seq<Event>, e: Event)
    ensures Run(s, es + [e]) == Apply(Run(s, es), e)
    decreases es
  {
    if es == [] {
      assert Run(s, [e]) == Run(Apply(s, e), []);
      assert es + [e] == [e];
    } else {
      assert (es + [e])[0] == es[0] && (es + [e])[1..] == es[1..] + [e];
      RunAppend(Apply(s, es[0]), es[1..], e);
    }
  }

  /** Undisturbed steps are a run of the whole system. */
  lemma {:induction false} SoloIsRun(s: System, p: ProcId, n: nat)
    requires p in s.procs && s.procs[p].alive
    ensures var me := s.procs[p]; var s' := Run(s, Steps(p, n));
      && p in s'.procs
      && s'.procs[p] == me.(pc := s'.procs[p].pc)
      && LiveStarts(s') == LiveStarts(s)
      && (s'.files, s'.procs[p].pc) == Solo(s.files, LiveStarts(s), p, me.identity, me.marker, me.pc, n)
  {
    if n > 0 {
      SoloIsRun(s, p, n - 1);
      assert Steps(p, n) == Steps(p, n - 1) + [Step(p, SMOOTH)];
      RunAppend(s, Steps(p, n - 1), Step(p, SMOOTH));
      var before := Run(s, Steps(p, n - 1));
      var after := Run(s, Steps(p, n));
      assert after == StepOf(before, p, SMOOTH);
      assert forall q :: q in after.procs ==>
        after.procs[q].alive == before.procs[q].alive && after.procs[q].identity == before.procs[q].identity
                                              && after.procs[q].marker == before.procs[q].marker;
      assert LiveStarts(after) == LiveStarts(before);
    }
  }

  /** Each state of the trace is the next undisturbed step after the one before. */
  ghost predicate Trace(trace: seq<(Files, Pc)>, live: set<Start>, p: ProcId, identity: Identity, marker: nat) {
    && |trace| > 0
    && (|trace| == 1 ||
        (var n := |trace| - 1;
         && trace[n] == Next(trace[n - 1].0, live, p, identity, marker, trace[n - 1].1, SMOOTH)
         && Trace(trace[..n], live, p, identity, marker)))
  }

  /** A trace of undisturbed steps ends where `Solo` ends. */
  lemma {:induction false} TraceIsSolo(trace: seq<(Files, Pc)>, live: set<Start>, p: ProcId, identity: Identity,
                                       marker: nat)
    requires Trace(trace, live, p, identity, marker)
    ensures trace[|trace| - 1] == Solo(trace[0].0, live, p, identity, marker, trace[0].1, |trace| - 1)
    decreases |trace|
  {
    var n := |trace| - 1;
    if n > 0 {
      TraceIsSolo(trace[..n], live, p, identity, marker);
    }
  }

  /** Whether the recorded owner, if any, is verifiably gone. */
  predicate Vacant(owner: Option<Content>, live: set<Start>) {
    owner.None? || (owner.value.IsOwner() && Liveness(live, owner.value, true) == Dead)
  }

  /** Why an undisturbed acquisition is refused. */
  function RefusalOf(f: Files, live: set<Start>): Option<Code> {
    if f.owner.None? then None
    else if !f.owner.value.IsOwner() then Some(AuthorityIndeterminate)
    else match Liveness(live, f.owner.value, true)
      case Alive => Some(AuthorityHeld)
      case Unknown => Some(AuthorityIndeterminate)
      case Dead =>
        if f.lock != Absent then Some(AuthorityIndeterminate) else if f.guard.Some? then Some(IoError) else None
  }

  class AuthorityDirectory {
    var owner: Option<Content>
    var lock: Lock
    var guard: Option<Content>
    const live: set<Start>
    const self: ProcId
    const identity: Identity
    const marker: nat

    // where the protocol machine is, and every state it went through in the current call
    ghost var pc: Pc
    ghost var trace: seq<(Files, Pc)>

    function Snapshot(): Files
      reads this
    {
      Files(owner, lock, guard)
    }

    ghost predicate Traced()
      reads this
    {
      Trace(trace, live, self, identity, marker) && trace[|trace| - 1] == (Snapshot(), pc)
    }

    constructor (files: Files, live: set<Start>, self: ProcId, identity: Identity, marker: nat)
      ensures Snapshot() == files && this.live == live && this.self == self && this.identity == identity
      ensures this.marker == marker
      ensures pc == Idle(None) && Traced()
    {
      this.owner, this.lock, this.guard := files.owner, files.lock, files.guard;
      this.live, this.self, this.identity, this.marker := live, self, identity, marker;
      this.pc, this.trace := Idle(None), [(files, Idle(None))];
    }

    ghost method Begin(at: Pc)
      modifies `pc, `trace
      ensures pc == at && trace == [(Snapshot(), at)] && Traced()
    {
      pc, trace := at, [(Snapshot(), at)];
    }

    /** Checks that the file operation just done is the machine's next step, and takes that step. */
    ghost method Tick(before: Files, next: Pc)
      requires Trace(trace, live, self, identity, marker) && trace[|trace| - 1] == (before, pc)
      requires Next(before, live, self, identity, marker, pc, SMOOTH) == (Snapshot(), next)
      modifies `pc, `trace
      ensures pc == next && Traced() && trace[0] == old(trace[0])
    {
      var longer := trace + [(Snapshot(), next)];
      assert longer[..|trace|] == trace;
      pc, trace := next, longer;
    }

    method TakeRecoveryLock(n: nat, expected: Identity) returns (failure: Option<Code>)
      requires Traced() && pc == TakeLock(n, expected)
      modifies this
      ensures Traced() && trace[0] == old(trace[0]) && owner == old(owner) && guard == old(guard)
      ensures failure == if old(lock) == Absent then None else Some(AuthorityIndeterminate)
      ensures failure.None? ==> lock == By(self) && pc == ReadUnderLock(n, expected)
      ensures failure.Some? ==> lock == old(lock) && pc == Idle(failure)
    {
      ghost var before := Snapshot();
      if lock != Absent {
        Tick(before, Idle(Some(AuthorityIndeterminate)));
        return Some(AuthorityIndeterminate);
      }
      lock := By(self);
      Tick(before, WriteLock(n, expected));
      Tick(Snapshot(), ReadUnderLock(n, expected));
      return None;
    }

    /** Reads the owner again under the lock and measures its liveness once more. */
    method RecheckOwner(n: nat, expected: Identity) returns (current: Content)
      requires Traced() && pc == ReadUnderLock(n, expected)
      requires owner.Some? && owner.value.IsOwner() && owner.value.identity == expected
      requires Liveness(live, owner.value, true) == Dead
      modifies `pc, `trace
      ensures Traced() && trace[0] == old(trace[0]) && Some(current) == owner && pc == CreateGuard(n, expected, current)
    {
      current := owner.value;
      Tick(Snapshot(), RecheckLiveness(n, expected, current));
      Tick(Snapshot(), CreateGuard(n, expected, current));
    }

    /** `writeRecoveryGuard`: the guard file is created exclusively, then written and synced. */
    method WriteGuardFile(n: nat, expected: Identity, doc: Content) returns (failure: Option<Code>)
      requires Traced() && pc == CreateGuard(n, expected, doc)
      modifies this
      ensures Traced() && trace[0] == old(trace[0]) && owner == old(owner) && lock == old(lock)
      ensures old(guard).None? ==> failure.None? && guard == Some(GuardRecord) && pc == SwapIn(n, expected, doc)
      ensures old(guard).Some? ==> failure == Some(IoError) && guard == old(guard) && pc == Unlock(n, GiveUp(IoError))
    {
      ghost var before := Snapshot();
      if guard.Some? {
        Tick(before, Unlock(n, GiveUp(IoError)));
        return Some(IoError);
      }
      guard := Some(Garbage);
      Tick(before, WriteGuard(n, expected, doc));
      before := Snapshot();
      guard := Some(GuardRecord);
      Tick(before, SwapIn(n, expected, doc));
      return None;
    }

    /** Swaps the guard with the owner file and checks what was isolated. */
    method IsolateOwner(n: nat, expected: Identity, doc: Content)
      requires Traced() && pc == SwapIn(n, expected, doc) && owner == Some(doc) && guard == Some(GuardRecord)
      requires doc.IsOwner() && doc.identity == expected
      modifies this
      ensures Traced() && trace[0] == old(trace[0]) && lock == old(lock)
      ensures owner == Some(GuardRecord) && guard == Some(doc) && pc == IsolatedLiveness(n, expected, doc)
    {
      ghost var before := Snapshot();
      owner, guard := guard, owner;
      Tick(before, CheckIsolated(n, expected, doc));
      Tick(Snapshot(), IsolatedLiveness(n, expected, doc));
    }

    /** Removes the isolated record and the guard that took its place. */
    method RetireIsolated(n: nat, expected: Identity, doc: Content)
      requires Traced() && pc == DropGuard(n, expected, doc)
      modifies this
      ensures Traced() && trace[0] == old(trace[0]) && lock == old(lock)
      ensures owner == None && guard == None && pc == Unlock(n, Retry)
    {
      ghost var before := Snapshot();
      guard := None;
      Tick(before, DropOwner(n, expected, doc));
      before := Snapshot();
      owner := None;
      Tick(before, Unlock(n, Retry));
    }

    method ReleaseRecoveryLock(n: nat, ending: RecoveryEnd)
      requires Traced() && pc == Unlock(n, ending)
      modifies this
      ensures Traced() && trace[0] == old(trace[0]) && lock == Absent && owner == old(owner) && guard == old(guard)
      ensures pc == if ending.Retry? then Probe(n + 1) else Idle(Some(ending.code))
    {
      ghost var before := Snapshot();
      lock := Absent;
      Tick(before, if ending.Retry? then Probe(n + 1) else Idle(Some(ending.code)));
    }

    method RemoveVerifiedStaleOwner(n: nat, expected: Identity) returns (failure: Option<Code>)
      requires Traced() && pc == TakeLock(n, expected)
      requires owner.Some? && owner.value.IsOwner() && owner.value.identity == expected
      requires Liveness(live, owner.value, true) == Dead
      modifies this
      ensures Traced() && trace[0] == old(trace[0])
      ensures failure == RefusalOf(old(Snapshot()), live)
      ensures failure.None? ==> Snapshot() == Files(None, Absent, None) && pc == Probe(n + 1)
      ensures failure.Some? ==> Snapshot() == old(Snapshot()) && pc == Idle(failure)
    {
      failure := TakeRecoveryLock(n, expected);
      if failure.Some? { return; }
      var current := RecheckOwner(n, expected);
      failure := WriteGuardFile(n, expected, current);
      if failure.None? {
        IsolateOwner(n, expected, current);
        Tick(Snapshot(), DropGuard(n, expected, current));
        RetireIsolated(n, expected, current);
        ReleaseRecoveryLock(n, Retry);
      } else {
        ReleaseRecoveryLock(n, GiveUp(IoError));
      }
    }

    /** Links a claim over the absent owner file, reads it back and drops the claim. */
    method PublishClaim(n: nat)
      requires Traced() && pc == WriteClaim(n) && owner.None?
      modifies this
      ensures Traced() && trace[0] == old(trace[0])
      ensures owner == Some(OwnRecord(identity, marker)) && lock == old(lock) && guard == old(guard) && pc == Held
    {
      Tick(Snapshot(), LinkClaim(n));
      ghost var before := Snapshot();
      owner := Some(OwnRecord(identity, marker));
      Tick(before, VerifyPublished(n));
      Tick(Snapshot(), DropClaim(n, Published));
      Tick(Snapshot(), Held);
    }

    /** `acquireRuntimeAuthority` with nobody else running. It succeeds exactly when the recorded
        owner is missing or verifiably dead and recovery left nothing behind, within two attempts;
        otherwise it changes no file. */
    method Acquire() returns (outcome: Option<Code>, attempts: nat)
      requires pc.Idle?
      modifies this
      ensures Traced() && trace[0] == (old(Snapshot()), MeasureSelf)
      ensures outcome == RefusalOf(old(Snapshot()), live)
      ensures outcome.None?
        <==> Vacant(old(owner), live) && (old(owner).None? || (old(lock) == Absent && old(guard).None?))
      ensures outcome.None? ==>
        owner == Some(OwnRecord(identity, marker)) && lock == old(lock) && guard == old(guard) && pc == Held
          && attempts <= 2
      ensures outcome.Some? ==> Snapshot() == old(Snapshot()) && pc == Idle(outcome)
    {
      Begin(MeasureSelf);
      Tick(Snapshot(), Probe(0));
      attempts := 0;
      while attempts < MAX_ACQUISITION_ATTEMPTS
        invariant Traced() && trace[0] == (old(Snapshot()), MeasureSelf)
        invariant attempts <= 1 && pc == Probe(attempts)
        invariant attempts == 0 ==> Snapshot() == old(Snapshot())
        invariant attempts == 1 ==>
          Snapshot() == Files(None, Absent, None) && old(owner).Some? && RefusalOf(old(Snapshot()), live) == None
      {
        var observed := owner;
        if observed.None? {
          Tick(Snapshot(), WriteClaim(attempts));
          PublishClaim(attempts);
          return None, attempts + 1;
        }
        if !observed.value.IsOwner() {
          Tick(Snapshot(), Idle(Some(AuthorityIndeterminate)));
          return Some(AuthorityIndeterminate), attempts + 1;
        }
        Tick(Snapshot(), ProbeLiveness(attempts, observed.value));
        var verdict := Liveness(live, observed.value, true);
        if verdict == Alive {
          Tick(Snapshot(), Idle(Some(AuthorityHeld)));
          return Some(AuthorityHeld), attempts + 1;
        }
        if verdict == Unknown {
          Tick(Snapshot(), Idle(Some(AuthorityIndeterminate)));
          return Some(AuthorityIndeterminate), attempts + 1;
        }
        Tick(Snapshot(), TakeLock(attempts, observed.value.identity));
        outcome := RemoveVerifiedStaleOwner(attempts, observed.value.identity);
        if outcome.Some? {
          return outcome, attempts + 1;
        }
        attempts := attempts + 1;
      }
      outcome := Some(AuthorityIndeterminate);
    }

    /** `release`: the owner file is renamed away, checked, and removed; what others left stays. */
    method Release() returns (failure: Option<Code>)
      requires pc == Held
      modifies this
      ensures Traced() && trace[0] == (old(Snapshot()), ReleaseRead)
      ensures failure.None? <==> old(owner) == Some(OwnRecord(identity, marker))
      ensures failure.None? ==> Snapshot() == old(Snapshot()).(owner := None) && pc == Released
      ensures failure.Some? ==> failure == Some(AuthorityChanged) && Snapshot() == old(Snapshot()) && pc == Held
    {
      Begin(ReleaseRead);
      if owner != Some(OwnRecord(identity, marker)) {
        Tick(Snapshot(), Held);
        return Some(AuthorityChanged);
      }
      var mine := owner.value;
      Tick(Snapshot(), ReleaseRename);
      ghost var before := Snapshot();
      owner := None;
      Tick(before, ReleaseCheck(mine));
      Tick(Snapshot(), ReleaseDrop);
      Tick(Snapshot(), Released);
      return None;
    }
  }

  /** A lock that was free or stale is acquired alone and given back: only the owner file changes,
      and it ends absent. */
  method AcquireThenRelease(directory: AuthorityDirectory) returns (outcome: Option<Code>)
    requires directory.pc.Idle?
    modifies directory
    ensures outcome == RefusalOf(old(directory.Snapshot()), directory.live)
    ensures directory.Snapshot() == if outcome.None? then old(directory.Snapshot()).(owner := None)
      else old(directory.Snapshot())
  {
    var attempts;
    outcome, attempts := directory.Acquire();
    if outcome.None? {
      var failure := directory.Release();
      assert failure.None?;
    }
  }
}
