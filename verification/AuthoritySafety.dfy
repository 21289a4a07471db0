/** Safety of the single-owner lock over every interleaving: mutual exclusion, exact isolation of the
    verified dead owner, and what a crashed recovery leaves behind. */
module AuthoritySafety {
  import opened Wrappers
  import opened Authority

  // ---- what each program counter promises -------------------------------------------------

  /** From publication to the rename of a release, a process relies on naming the owner file. */
  predicate Relies(pc: Pc) {
    pc.VerifyPublished? || (pc.DropClaim? && pc.end.Published?) || pc.Held? || pc.ReleaseRead? || pc.ReleaseRename?
  }

  /** The handle has been returned and its release has not renamed the owner file yet. */
  predicate Holds(pc: Pc) {
    pc.Held? || pc.ReleaseRead? || pc.ReleaseRename?
  }

  predicate InRecovery(pc: Pc) {
    pc.WriteLock? || pc.ReadUnderLock? || pc.OtherLiveness? || Verified(pc) || pc.RestoreMismatch?
      || pc.RestoreDropGuard? || pc.Unlock?
  }

  /** The owner record `doc` was read under the recovery lock and has the expected identity. */
  predicate Verified(pc: Pc) {
    pc.RecheckLiveness? || pc.CreateGuard? || pc.WriteGuard? || pc.SwapIn? || pc.AbortGuard? || pc.CheckIsolated?
    || pc.IsolatedLiveness? || pc.RestoreSwap? || pc.DropGuard? || pc.DropOwner?
  }

  /** No live process has this identity, and a fresh instance id can never bring it back. */
  ghost predicate DeadIdentity(s: System, i: Identity) {
    i in s.used && forall q :: q in s.procs && s.procs[q].identity == i ==> !s.procs[q].alive
  }

  /** A version 2 record was written by the process it names. */
  ghost predicate Genuine(s: System, doc: Content) {
    doc.IsOwner() ==>
      doc.identity in s.used
      && (doc.Owner? ==> forall q :: q in s.procs && s.procs[q].identity == doc.identity ==>
            s.procs[q].marker == doc.marker)
  }

  ghost predicate GenuineFile(s: System, content: Option<Content>) {
    content.Some? ==> Genuine(s, content.value)
  }

  ghost predicate FilesMatch(f: Files, pc: Pc) {
    match pc
    case RecheckLiveness(_, _, doc) => f.owner == Some(doc)
    case CreateGuard(_, _, doc) => f.owner == Some(doc)
    case WriteGuard(_, _, doc) => f.owner == Some(doc) && f.guard.Some?
    case SwapIn(_, _, doc) => f.owner == Some(doc) && f.guard == Some(GuardRecord)
    case AbortGuard(_, _, doc) =>
      (f.owner == Some(doc) && f.guard == Some(GuardRecord)) || (f.owner == Some(GuardRecord) && f.guard == Some(doc))
    case CheckIsolated(_, _, doc) => f.owner == Some(GuardRecord) && f.guard == Some(doc)
    case IsolatedLiveness(_, _, doc) => f.owner == Some(GuardRecord) && f.guard == Some(doc)
    case RestoreSwap(_, _, doc, _) => f.owner == Some(GuardRecord) && f.guard == Some(doc)
    case DropGuard(_, _, doc) => f.owner == Some(GuardRecord) && f.guard == Some(doc)
    case DropOwner(_, _, doc) => f.owner == Some(GuardRecord)
    case _ => true
  }

  /** The invariant of process `p` if the files were `f` and its program counter were `pc`. */
  ghost predicate PcInvAt(s: System, p: ProcId, f: Files, pc: Pc)
    requires p in s.procs
  {
    var own := OwnRecord(s.procs[p].identity, s.procs[p].marker);
    && (s.procs[p].alive && Relies(pc) ==> f.owner == Some(own))
    && (InRecovery(pc) ==> f.lock == By(p))
    && (Verified(pc) ==> pc.doc.IsOwner() && pc.doc.identity == pc.expected && Genuine(s, pc.doc) && FilesMatch(f, pc))
    && ((pc.TakeLock? || pc.WriteLock? || pc.ReadUnderLock? || Verified(pc)) ==> DeadIdentity(s, pc.expected))
    && (pc.ProbeLiveness? ==> Genuine(s, pc.doc))
    && !pc.RestoreMismatch?
    && (pc.ReleaseCheck? || pc.ReleaseRestore? ==> pc.doc == own)
  }

  ghost predicate PcInv(s: System, p: ProcId)
    requires p in s.procs
  {
    PcInvAt(s, p, s.files, s.procs[p].pc)
  }

  ghost predicate Identities(s: System) {
    && (forall p :: p in s.procs ==> s.procs[p].identity in s.used)
    && (forall p, q :: p in s.procs && q in s.procs && s.procs[p].identity == s.procs[q].identity ==> p == q)
  }

  ghost predicate Inv(s: System) {
    && Identities(s)
    && GenuineFile(s, s.files.owner)
    && GenuineFile(s, s.files.guard)
    && (forall p :: p in s.procs ==> PcInv(s, p))
  }

  /** Any files may be left from earlier runs, with any processes around: what counts is that
      identities are distinct, that version 2 records are genuine, and that nobody has started. */
  ghost predicate Init(s: System) {
    && Identities(s)
    && GenuineFile(s, s.files.owner)
    && GenuineFile(s, s.files.guard)
    && (forall p :: p in s.procs ==> s.procs[p].pc.Idle?)
  }

  // ---- one step --------------------------------------------------------------------------

  lemma DeadVerdict(s: System, doc: Content, c: Choice)
    requires doc.IsOwner() && Genuine(s, doc) && Liveness(LiveStarts(s), doc, c.measured) == Dead
    ensures DeadIdentity(s, doc.identity)
  {
    forall q | q in s.procs && s.procs[q].identity == doc.identity
      ensures !s.procs[q].alive
    {
      var seen := Start(s.procs[q].identity.pid, s.procs[q].marker);
      assert s.procs[q].alive ==> seen in LiveStarts(s);
    }
  }

  /** The step comes to ask for the recovery lock, to isolate the owner file, or to remove what it
      isolated. */
  predicate Proceeds(pc: Pc, next: Pc) {
    (next.TakeLock? && !pc.TakeLock?) || (next.CreateGuard? && !pc.CreateGuard?) || (next.DropGuard? && !pc.DropGuard?)
  }

  /** Each of these three follows a measurement of its own that found the owner dead: in the probe, under
      the recovery lock, and on the isolated record. */
  lemma ThreeVerdicts(f: Files, live: set<Start>, p: ProcId, identity: Identity, marker: nat, pc: Pc, c: Choice)
    requires Proceeds(pc, Next(f, live, p, identity, marker, pc, c).1)
    ensures c.measured && (pc.ProbeLiveness? || pc.RecheckLiveness? || pc.IsolatedLiveness?) && pc.doc.IsOwner()
    ensures Liveness(live, pc.doc, true) == Dead
    ensures var next := Next(f, live, p, identity, marker, pc, c).1;
      && (next.TakeLock? ==> pc.ProbeLiveness? && next.expected == pc.doc.identity)
      && (next.CreateGuard? ==> pc.RecheckLiveness? && next.doc == pc.doc)
         && (next.DropGuard? ==> pc.IsolatedLiveness? && next.doc == pc.doc)
  {
  }

  ghost predicate StepKept(s: System, p: ProcId, r: (Files, Pc))
    requires p in s.procs
  {
    PcInvAt(s, p, r.0, r.1) && GenuineFile(s, r.0.owner) && GenuineFile(s, r.0.guard)
  }

  lemma ProbeStepSelf(s: System, p: ProcId, c: Choice)
    requires Inv(s) && p in s.procs
    requires var pc := s.procs[p].pc; pc.MeasureSelf? || pc.Probe? || pc.ProbeLiveness?
    ensures StepKept(s, p,
                     NextAcquire(s.files, LiveStarts(s), s.procs[p].identity, s.procs[p].marker, s.procs[p].pc, c))
  {
    var me := s.procs[p];
    assert PcInv(s, p);
    if me.pc.ProbeLiveness? && me.pc.doc.IsOwner() && Liveness(LiveStarts(s), me.pc.doc, c.measured) == Dead {
      DeadVerdict(s, me.pc.doc, c);
    }
  }

  lemma ClaimStepSelf(s: System, p: ProcId, c: Choice)
    requires Inv(s) && p in s.procs && s.procs[p].alive
    requires var pc := s.procs[p].pc; pc.WriteClaim? || pc.LinkClaim? || pc.VerifyPublished? || pc.DropClaim?
    ensures StepKept(s, p,
                     NextAcquire(s.files, LiveStarts(s), s.procs[p].identity, s.procs[p].marker, s.procs[p].pc, c))
  {
    assert PcInv(s, p);
    assert Genuine(s, OwnRecord(s.procs[p].identity, s.procs[p].marker));
  }

  lemma ReleaseStepSelf(s: System, p: ProcId, c: Choice)
    requires Inv(s) && p in s.procs && s.procs[p].alive
    ensures StepKept(s, p, NextRelease(s.files, s.procs[p].identity, s.procs[p].marker, s.procs[p].pc, c))
  {
    assert PcInv(s, p);
    assert Genuine(s, OwnRecord(s.procs[p].identity, s.procs[p].marker));
  }

  lemma LockStepSelf(s: System, p: ProcId, c: Choice)
    requires Inv(s) && p in s.procs
    requires var pc := s.procs[p].pc;
      pc.TakeLock? || pc.WriteLock? || pc.ReadUnderLock? || pc.OtherLiveness? || pc.RecheckLiveness? || pc.Unlock?
    ensures StepKept(s, p, NextLocked(s.files, LiveStarts(s), p, s.procs[p].pc, c))
  {
    assert PcInv(s, p);
  }

  lemma IsolateStepSelf(s: System, p: ProcId, c: Choice)
    requires Inv(s) && p in s.procs
    requires var pc := s.procs[p].pc; pc.CreateGuard? || pc.WriteGuard? || pc.SwapIn? || pc.AbortGuard?
    ensures StepKept(s, p, NextIsolate(s.files, s.procs[p].pc, c))
  {
    assert PcInv(s, p);
  }

  lemma RetireStepSelf(s: System, p: ProcId, c: Choice)
    requires Inv(s) && p in s.procs
    requires var pc := s.procs[p].pc; pc.CheckIsolated? || pc.IsolatedLiveness? || pc.DropGuard? || pc.DropOwner?
    ensures StepKept(s, p, NextRetire(s.files, LiveStarts(s), s.procs[p].pc, c))
  {
    assert PcInv(s, p);
  }

  lemma RestoreStepSelf(s: System, p: ProcId, c: Choice)
    requires Inv(s) && p in s.procs
    requires var pc := s.procs[p].pc; pc.RestoreMismatch? || pc.RestoreSwap? || pc.RestoreDropGuard?
    ensures StepKept(s, p, NextRestore(s.files, LiveStarts(s), s.procs[p].pc, c))
  {
    assert PcInv(s, p);
  }

  lemma StepOther(s: System, p: ProcId, c: Choice, q: ProcId)
    requires Inv(s) && p in s.procs && s.procs[p].alive && q in s.procs && q != p
    ensures PcInvAt(s, q, StepOf(s, p, c).files, s.procs[q].pc)
  {
    assert PcInv(s, p) && PcInv(s, q);
  }

  lemma StepSelf(s: System, p: ProcId, c: Choice)
    requires Inv(s) && p in s.procs && s.procs[p].alive
    ensures var me := s.procs[p]; StepKept(s, p, Next(s.files, LiveStarts(s), p, me.identity, me.marker, me.pc, c))
  {
    assert PcInv(s, p);
    match s.procs[p].pc
    case MeasureSelf | Probe(_) | ProbeLiveness(_, _) => ProbeStepSelf(s, p, c);
    case WriteClaim(_) | LinkClaim(_) | VerifyPublished(_) | DropClaim(_, _) => ClaimStepSelf(s, p, c);
    case ReleaseRead | ReleaseRename | ReleaseCheck(_) | ReleaseRestore(_) | ReleaseDrop => ReleaseStepSelf(s, p, c);
    case Idle(_) | Held | Released | ReleaseBroken =>
    case TakeLock(_, _) | WriteLock(_, _) | ReadUnderLock(_, _) | OtherLiveness(_, _) | RecheckLiveness(_, _,
        _) | Unlock(_, _) => LockStepSelf(s, p, c);
    case CreateGuard(_, _, _) | WriteGuard(_, _, _) | SwapIn(_, _, _) | AbortGuard(_, _, _) => IsolateStepSelf(s, p, c);
    case CheckIsolated(_, _, _) | IsolatedLiveness(_, _, _) | DropGuard(_, _, _) | DropOwner(_, _, _) =>
      RetireStepSelf(s, p, c);
    case RestoreMismatch(_, _) | RestoreSwap(_, _, _, _) | RestoreDropGuard(_, _) => RestoreStepSelf(s, p, c);
  }

  // ---- every event, every run ------------------------------------------------------------

  /** What a process promises reads only identities, markers and liveness of the others. */
  lemma PcInvCarries(s: System, s': System, p: ProcId, f: Files, pc: Pc)
    requires p in s.procs && p in s'.procs && PcInvAt(s, p, f, pc)
    requires s'.procs[p].identity == s.procs[p].identity && s'.procs[p].marker == s.procs[p].marker
    requires s'.procs[p].alive ==> s.procs[p].alive
    requires s.used <= s'.used
    requires forall q :: q in s'.procs ==>
      if q in s.procs then
        s'.procs[q].identity == s.procs[q].identity && s'.procs[q].marker == s.procs[q].marker
          && (s'.procs[q].alive ==> s.procs[q].alive)
      else s'.procs[q].identity !in s.used
    ensures PcInvAt(s', p, f, pc)
  {
  }

  lemma StepInv(s: System, p: ProcId, c: Choice)
    requires Inv(s) && p in s.procs && s.procs[p].alive
    ensures Inv(StepOf(s, p, c))
  {
    var s' := StepOf(s, p, c);
    StepSelf(s, p, c);
    forall q | q in s'.procs
      ensures PcInv(s', q)
    {
      if q != p { StepOther(s, p, c, q); }
      PcInvCarries(s, s', q, s'.files, s'.procs[q].pc);
    }
  }

  /** What an event outside the steps does to a process that was already there. */
  lemma OutsideShape(s: System, e: Event, q: ProcId)
    requires !e.Step? && q in s.procs
    ensures var s' := Apply(s, e);
      && q in s'.procs && s'.files == s.files && s.used <= s'.used
      && s'.procs[q].identity == s.procs[q].identity && s'.procs[q].marker == s.procs[q].marker
      && (s'.procs[q].alive ==> s.procs[q].alive)
      && (s'.procs[q].pc == s.procs[q].pc || (s.procs[q].pc.Idle? && s'.procs[q].pc.MeasureSelf?)
          || (s.procs[q].pc.Held? && s'.procs[q].pc.ReleaseRead?))
  {
  }

  lemma OutsideNew(s: System, e: Event, q: ProcId)
    requires !e.Step? && q in Apply(s, e).procs && q !in s.procs
    ensures Apply(s, e).procs[q].identity !in s.used && Apply(s, e).procs[q].pc == Idle(None)
  {
  }

  lemma OutsideInv(s: System, e: Event, q: ProcId)
    requires Inv(s) && !e.Step? && q in Apply(s, e).procs
    ensures PcInv(Apply(s, e), q)
  {
    var s' := Apply(s, e);
    forall r | r in s'.procs
      ensures if r in s.procs then
        s'.procs[r].identity == s.procs[r].identity && s'.procs[r].marker == s.procs[r].marker
          && (s'.procs[r].alive ==> s.procs[r].alive)
              else s'.procs[r].identity !in s.used
    {
      if r in s.procs { OutsideShape(s, e, r); } else { OutsideNew(s, e, r); }
    }
    if q in s.procs {
      OutsideShape(s, e, q);
      assert PcInv(s, q);
      PcInvCarries(s, s', q, s'.files, s.procs[q].pc);
      BeginInv(s', q, s'.files, s.procs[q].pc, s'.procs[q].pc);
    } else {
      OutsideNew(s, e, q);
    }
  }

  /** A call that begins brings nothing to show for yet. */
  lemma BeginInv(s: System, p: ProcId, f: Files, from: Pc, pc: Pc)
    requires p in s.procs && PcInvAt(s, p, f, from)
    requires pc == from || (from.Idle? && pc.MeasureSelf?) || (from.Held? && pc.ReleaseRead?)
    ensures PcInvAt(s, p, f, pc)
  {
  }

  lemma EventInv(s: System, e: Event)
    requires Inv(s)
    ensures Inv(Apply(s, e))
  {
    var s' := Apply(s, e);
    if e.Step? {
      if s' != s { StepInv(s, e.p, e.choice); }
    } else {
      forall q | q in s'.procs
        ensures PcInv(s', q)
      {
        OutsideInv(s, e, q);
      }
    }
  }

  lemma InitInv(s: System)
    requires Init(s)
    ensures Inv(s)
  {
  }

  lemma {:induction false} RunInv(s: System, es: seq<Event>)
    requires Inv(s)
    ensures Inv(Run(s, es))
    decreases es
  {
    if es != [] {
      EventInv(s, es[0]);
      RunInv(Apply(s, es[0]), es[1..]);
    }
  }

  // ---- results ---------------------------------------------------------------------------

  /** At most one live process holds the authority, after any events, and the owner file names it. */
  lemma MutualExclusion(s: System, es: seq<Event>, p: ProcId, q: ProcId)
    requires Init(s)
    requires var s' := Run(s, es);
      && p in s'.procs && s'.procs[p].alive && Holds(s'.procs[p].pc)
      && q in s'.procs && s'.procs[q].alive && Holds(s'.procs[q].pc)
    ensures p == q
    ensures Run(s, es).files.owner == Some(OwnRecord(Run(s, es).procs[p].identity, Run(s, es).procs[p].marker))
  {
    InitInv(s);
    RunInv(s, es);
    var s' := Run(s, es);
    assert PcInv(s', p) && PcInv(s', q);
  }

  /** An owner record leaves the owner file in two ways only: its own live process renames it away
      in a release, or a recovery swaps it out once its process can never run again. */
  lemma OwnerRecordDisplaced(s: System, es: seq<Event>, e: Event, doc: Content)
    requires Init(s) && doc.IsOwner()
    requires Run(s, es).files.owner == Some(doc) && Apply(Run(s, es), e).files.owner != Some(doc)
    ensures e.Step? && e.p in Run(s, es).procs && Run(s, es).procs[e.p].alive
    ensures var me := Run(s, es).procs[e.p];
      || (me.pc.ReleaseRename? && doc == OwnRecord(me.identity, me.marker))
      || (me.pc.SwapIn? && me.pc.doc == doc && DeadIdentity(Run(s, es), doc.identity))
  {
    InitInv(s);
    RunInv(s, es);
    var r := Run(s, es);
    assert e.Step? && e.p in r.procs && r.procs[e.p].alive;
    assert PcInv(r, e.p);
    var me := r.procs[e.p];
    assert me.pc.ReleaseRename? || me.pc.SwapIn? || me.pc.RestoreSwap? || me.pc.DropOwner? || me.pc.RestoreMismatch?
      || me.pc.LinkClaim? || me.pc.ReleaseRestore?;
  }

  /** The re-check after the swap finds in the guard exactly the record verified under the lock, and
      the branch for a foreign record is never taken. */
  lemma RecheckFindsVerifiedOwner(s: System, es: seq<Event>, p: ProcId)
    requires Init(s) && p in Run(s, es).procs
    ensures var r := Run(s, es); var pc := r.procs[p].pc;
      && !pc.RestoreMismatch?
      && (pc.CheckIsolated? ==>
            r.files.guard == Some(pc.doc) && pc.doc.IsOwner() && pc.doc.identity == pc.expected
              && DeadIdentity(r, pc.expected))
      && (pc.DropOwner? ==> r.files.owner == Some(GuardRecord))
      && (pc.ReleaseCheck? ==> pc.doc == OwnRecord(r.procs[p].identity, r.procs[p].marker))
  {
    InitInv(s);
    RunInv(s, es);
    assert PcInv(Run(s, es), p);
  }

  /** A process that died while holding the recovery lock between its verification and the removal. */
  ghost predicate CrashedRecovery(s: System, r: ProcId) {
    r in s.procs && !s.procs[r].alive && Verified(s.procs[r].pc)
  }

  ghost predicate NoHolder(s: System) {
    forall p :: p in s.procs && s.procs[p].alive ==> !Holds(s.procs[p].pc)
  }

  lemma FrozenStep(s: System, e: Event, r: ProcId)
    requires Inv(s) && CrashedRecovery(s, r)
    ensures CrashedRecovery(Apply(s, e), r) && Apply(s, e).files == s.files && NoHolder(s)
  {
    assert PcInv(s, r);
    if e.Step? && e.p in s.procs && s.procs[e.p].alive {
      assert PcInv(s, e.p);
    }
    forall p | p in s.procs && s.procs[p].alive
      ensures !Holds(s.procs[p].pc)
    {
      assert PcInv(s, p);
    }
  }

  /** A crash inside the verified part of a recovery leaves files that never change again, so no
      process ever holds the authority afterwards: the lock fails closed, for good. */
  lemma {:induction false} CrashedRecoveryFreezes(s: System, es: seq<Event>, r: ProcId)
    requires Inv(s) && CrashedRecovery(s, r)
    ensures Run(s, es).files == s.files && NoHolder(Run(s, es))
    decreases es
  {
    if es == [] {
      FrozenStep(s, Crash(r), r);
    } else {
      EventInv(s, es[0]);
      FrozenStep(s, es[0], r);
      CrashedRecoveryFreezes(Apply(s, es[0]), es[1..], r);
    }
  }
}
