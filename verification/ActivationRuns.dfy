/** The main results about activation transactions, for every run from an empty store. */
module ActivationRuns {
  import opened Storage
  import opened Wrappers
  import opened Activation
  import opened ActivationSafety

  predicate Init(w: World) {
    w.document == [] && w.applies == []
  }

  lemma Reachable(w: World, events: seq<Event>)
    requires Init(w)
    ensures WorldInv(Run(w, events))
  {
    RunKeeps(w, events);
  }

  // ---- evidence --------------------------------------------------------------------------

  /** The candidate ran: ready, from its own source root, in another instance of the captured runtime,
      and at a later deployment epoch than before the activation. */
  predicate RanAsCandidate(s: Snapshot, t: Transaction) {
    && s.ready && s.sourceRoot == t.candidate.sourceRoot
    && s.runtimeId.Some? && s.runtimeId == t.pre.runtimeId && s.instanceId.Some? && s.instanceId != t.pre.instanceId
    && s.proTools == t.pre.proTools
    && s.epoch.Some? && t.pre.epoch.Some? && s.epoch.value > t.pre.epoch.value
  }

  /** What ran before the activation ran again, with the captured catalog and tool counts. */
  predicate RanAsBefore(s: Snapshot, t: Transaction) {
    && s.ready && s.sourceRoot == t.pre.sourceRoot
    && s.runtimeId == t.pre.runtimeId && s.catalogId == t.pre.catalogId && s.fullTools == t.pre.fullTools
       && s.proTools == t.pre.proTools
    && s.epoch.Some? && t.pre.epoch.Some? && s.epoch.value >= t.pre.epoch.value
  }

  predicate CarriesEvidence(t: Transaction) {
    && (t.state == Applied || t.state == Confirmed ==> t.postApply.Some? && RanAsCandidate(t.postApply.value, t))
    && (t.state == RolledBack ==> t.postRollback.Some? && RanAsBefore(t.postRollback.value, t))
    && t.candidate.head == t.expected.head && t.candidate.fingerprint == t.expected.fingerprint
    && t.pre.epoch == Some(t.expected.epoch)
  }

  /** In every reachable store each transaction carries the evidence of its state, at most one is not
      terminal, and there are at most sixty-four, with unique ids. */
  lemma EvidenceAlways(w: World, events: seq<Event>)
    requires Init(w)
    ensures var document := Run(w, events).document;
      && (forall t :: t in document ==> CarriesEvidence(t))
      && OneActive(document) && |document| <= MAX_TRANSACTIONS && UniqueIds(document)
  {
    Reachable(w, events);
    forall t | t in Run(w, events).document ensures CarriesEvidence(t) {
      assert Evidenced(t);
    }
  }

  /** A confirmed or rolled back transaction is never changed: later it is still the same entry, or
      gone. */
  lemma TerminalIsFinal(w: World, before: seq<Event>, after: seq<Event>, t: Transaction, u: Transaction)
    requires Init(w) && t in Run(w, before).document && Terminal(t)
    requires u in Run(Run(w, before), after).document && u.id == t.id
    ensures u == t
  {
    Reachable(w, before);
    RunKeeps(Run(w, before), after);
    Found(Run(w, before).document, t);
    assert FollowsIn(Run(w, before).document, u);
  }

  /** No candidate is handed to the runtime twice for one transaction. */
  lemma CandidateAppliedOnce(w: World, events: seq<Event>)
    requires Init(w)
    ensures var applies := Run(w, events).applies; forall i, j :: 0 <= i < j < |applies| ==> applies[i] != applies[j]
  {
    Reachable(w, events);
  }

  // ---- the active transaction ------------------------------------------------------------

  lemma {:induction false} NoActiveOnes(document: seq<Transaction>)
    requires forall t :: t in document ==> Terminal(t)
    ensures ActiveOnes(document) == []
    decreases |document|
  {
    if document != [] {
      NoActiveOnes(document[..|document| - 1]);
    }
  }

  lemma {:induction false} AtMostOne(document: seq<Transaction>)
    requires OneActive(document)
    ensures |ActiveOnes(document)| <= 1
    decreases |document|
  {
    if document != [] {
      var n := |document| - 1;
      AtMostOne(document[..n]);
      if !Terminal(document[n]) {
        NoActiveOnes(document[..n]);
      }
    }
  }

  lemma ActiveIs(document: seq<Transaction>, t: Transaction)
    requires OneActive(document) && t in document && !Terminal(t)
    ensures Active(document) == Success(Some(t))
  {
    AtMostOne(document);
    assert t in ActiveOnes(document);
  }

  lemma OnlyActive(document: seq<Transaction>, t: Transaction)
    requires OneActive(document) && t in document && !Terminal(t)
    ensures forall v :: v in document && !Terminal(v) ==> v == t
  {
    ActiveIs(document, t);
    forall v | v in document && !Terminal(v) ensures v == t {
      ActiveIs(document, v);
    }
  }

  lemma ActiveNone(document: seq<Transaction>)
    requires forall t :: t in document ==> Terminal(t)
    ensures Active(document) == Success(None)
  {
    NoActiveOnes(document);
  }

  lemma PrepareErrors(document: seq<Transaction>, id: Id, e: Expectation, inspected: Inspected, observed: Observed,
                      fate: Fate)
    requires PositiveInteger(e.epoch) && Active(document).Success?
    ensures var outcome := Prepare(document, id, e, inspected, observed, fate).1;
      && (outcome == Threw(SupervisorBusy) <==> Active(document).value.Some?) && outcome != Threw(MultipleActive)
  {
  }

  /** In a reachable store `prepare` is refused as busy exactly when some transaction is not terminal,
      and it never finds two of them or a history without room. */
  lemma BusyIffActive(w: World, events: seq<Event>, e: Expectation, inspected: Inspected, observed: Observed,
                      fate: Fate)
    requires Init(w) && PositiveInteger(e.epoch)
    ensures var x := Run(w, events);
      var outcome := Prepare(x.document, x.next, e, inspected, observed, fate).1;
      && (outcome == Threw(SupervisorBusy) <==> exists t :: t in x.document && !Terminal(t))
      && outcome != Threw(MultipleActive) && outcome != Threw(HistoryExhausted)
  {
    Reachable(w, events);
    var x := Run(w, events);
    PrepareKeeps(x.document, x.next, e, inspected, observed, fate);
    if t :| t in x.document && !Terminal(t) {
      ActiveIs(x.document, t);
    } else {
      ActiveNone(x.document);
    }
    PrepareErrors(x.document, x.next, e, inspected, observed, fate);
  }

  lemma ReplaceValid(document: seq<Transaction>, t: Transaction, u: Transaction)
    requires ValidDocument(document) && t in document && u.id == t.id
    ensures ValidDocument(Replace(document, u)) <==> ValidTransaction(u)
    ensures u in Replace(document, u)
    ensures forall v :: v in Replace(document, u) && v != u ==> v in document && v.id != u.id
  {
    var after := Replace(document, u);
    var k :| 0 <= k < |document| && document[k] == t;
    assert after[k] == u;
    forall v | v in after && v != u ensures v in document && v.id != u.id {
      var i :| 0 <= i < |after| && after[i] == v;
    }
    assert forall i :: 0 <= i < |after| ==> after[i].id == document[i].id;
  }

  /** What lets a candidate be prepared. */
  predicate MayPrepare(e: Expectation, inspected: Inspected, observed: Observed) {
    && PositiveInteger(e.epoch) && inspected.Some? && CandidateMatches(inspected.value, e).None?
       && WellFormedCandidate(inspected.value)
    && observed.Some? && PreparePreconditions(observed.value, e).None? && WellFormed(observed.value)
  }

  lemma AppendedLast(document: seq<Transaction>, t: Transaction)
    requires DocumentInv(document) && forall u :: u in document ==> Terminal(u) && u.id < t.id
    ensures Append(document, t).Success? && Append(document, t).value != []
    ensures var next := Append(document, t).value;
      next[|next| - 1] == t && (ValidDocument(next) <==> ValidTransaction(t))
  {
    AppendKeeps(document, t);
    var next := Append(document, t).value;
    assert forall u :: u in next && u != t ==> ValidTransaction(u);
  }

  lemma PrepareWrites(document: seq<Transaction>, id: Id, e: Expectation, inspected: Inspected, observed: Observed,
                      fate: Fate)
    requires Active(document) == Success(None) && PositiveInteger(e.epoch) && inspected.Some? && observed.Some?
    requires CandidateMatches(inspected.value, e).None? && PreparePreconditions(observed.value, e).None?
    requires Append(document, Transaction(id, Prepared, e, inspected.value, observed.value, None, None, None)).Success?
    ensures var t := Transaction(id, Prepared, e, inspected.value, observed.value, None, None, None);
      Prepare(document, id, e, inspected, observed, fate)
        == Save(document, Append(document, t).value, fate, Returned(Some(t)))
  {
  }

  /** `prepare` succeeds exactly when nothing is active, candidate and runtime are what was expected,
      and the write goes through; its transaction is then the newest one, and the only active one. */
  lemma PreparesIff(document: seq<Transaction>, id: Id, e: Expectation, inspected: Inspected, observed: Observed,
                    fate: Fate)
    requires DocumentInv(document) && forall u :: u in document ==> u.id < id
    ensures var (after, outcome) := Prepare(document, id, e, inspected, observed, fate);
      && (outcome.Returned?
          <==> (forall u :: u in document ==> Terminal(u)) && MayPrepare(e, inspected, observed) && fate == Written)
      && (outcome.Returned? ==>
            var t := Transaction(id, Prepared, e, inspected.value, observed.value, None, None, None);
            outcome == Returned(Some(t)) && after != [] && after[|after| - 1] == t && Active(after) == Success(Some(t)))
  {
    if u :| u in document && !Terminal(u) {
      ActiveIs(document, u);
    } else {
      ActiveNone(document);
      if PositiveInteger(e.epoch) && inspected.Some? && observed.Some?
        && CandidateMatches(inspected.value, e).None? && PreparePreconditions(observed.value, e).None? {
        var t := Transaction(id, Prepared, e, inspected.value, observed.value, None, None, None);
        AppendedLast(document, t);
        PrepareWrites(document, id, e, inspected, observed, fate);
        AppendKeeps(document, t);
        ActiveIs(Append(document, t).value, t);
      }
    }
  }

  // ---- apply and confirm -----------------------------------------------------------------

  lemma MayApplyIff(t: Transaction, inspected: Inspected, observed: Observed)
    requires Evidenced(t)
    ensures MayApply(t, inspected, observed).None?
      <==> t.state == Prepared && inspected == Some(t.candidate)
           && observed.Some? && SameIdentity(observed.value, t.pre) && observed.value.epoch == t.pre.epoch
  {
  }

  lemma ApplyCalls(document: seq<Transaction>, t: Transaction, inspected: Inspected, observed: Observed, post: Observed,
                   first: Fate, second: Fate, third: Fate)
    requires Find(document, t.id) == Some(t) && ValidDocument(Replace(document, t.(state := Applying, failure := None)))
    ensures Apply(document, t.id, inspected, observed, post, first, second, third).called
      <==> t.state != Applied && MayApply(t, inspected, observed).None? && first == Written
  {
  }

  /** The candidate is handed to the runtime exactly when the transaction is prepared, the candidate
      and the runtime are still what they were at preparation, and that intention was written first. */
  lemma AppliesIff(document: seq<Transaction>, t: Transaction, inspected: Inspected, observed: Observed, post: Observed,
                   first: Fate, second: Fate, third: Fate)
    requires DocumentInv(document) && t in document
    ensures Apply(document, t.id, inspected, observed, post, first, second, third).called
      <==> && t.state == Prepared && inspected == Some(t.candidate) && first == Written
           && observed.Some? && SameIdentity(observed.value, t.pre) && observed.value.epoch == t.pre.epoch
  {
    Found(document, t);
    ReplaceValid(document, t, t.(state := Applying, failure := None));
    assert Evidenced(t);
    MayApplyIff(t, inspected, observed);
    ApplyCalls(document, t, inspected, observed, post, first, second, third);
  }

  /** What an apply leaves of the transaction once its intention was written, whatever the runtime answers
      and however the later writes end: the evidence, the failure, or the bare intention. */
  function AppliedAs(t: Transaction, post: Observed, second: Fate, third: Fate): Transaction {
    var applying := t.(state := Applying, failure := None);
    if post.None? then FailedAs(applying, Foreign, third)
    else match AppliedBinding(post.value, t)
      case Some(error) => FailedAs(applying, error, third)
      case None => SettledAs(applying, applying.(state := Applied, postApply := post, failure := None), second, third)
  }

  function FailedAs(t: Transaction, error: Error, fate: Fate): Transaction {
    if Persists(fate) then t.(state := ApplyFailed, failure := Some(error)) else t
  }

  function SettledAs(before: Transaction, done: Transaction, second: Fate, third: Fate): Transaction {
    if !ValidTransaction(done) || second == CrashBefore then before
    else if Persists(second) then done
    else if Persists(third) then done.(state := ApplyFailed, failure := Some(PersistenceFailure)) else before
  }

  lemma ReplaceSame(document: seq<Transaction>, t: Transaction)
    requires UniqueIds(document) && t in document
    ensures Replace(document, t) == document
  {
    forall i | 0 <= i < |document| ensures document[i].id == t.id ==> document[i] == t {
      var k :| 0 <= k < |document| && document[k] == t;
    }
  }

  lemma FailThere(saved: seq<Transaction>, t: Transaction, current: Transaction, error: Error, fate: Fate)
    requires ValidDocument(saved) && t in saved && current.id == t.id
    ensures Fail(saved, current, error, fate).0
         == if ValidTransaction(current) && Persists(fate) then
           Replace(saved, current.(state := ApplyFailed, failure := Some(error))) else saved
  {
    ReplaceValid(saved, t, current.(state := ApplyFailed, failure := Some(error)));
  }

  lemma SettlesBy(saved: seq<Transaction>, done: Transaction, second: Fate, third: Fate)
    ensures var next := Replace(saved, done);
      Settle(saved, done, second, third).0
        == if !ValidDocument(next) || second == Refused then Fail(saved, done, PersistenceFailure, third).0
           else if Persists(second) then next else saved
  {
  }

  lemma SettleRefused(saved: seq<Transaction>, t: Transaction, done: Transaction, second: Fate, third: Fate)
    requires ValidDocument(saved) && t in saved && done.id == t.id && (!ValidTransaction(done) || second == Refused)
    ensures Settle(saved, done, second, third).0
         == if ValidTransaction(done) && Persists(third)
            then Replace(saved, done.(state := ApplyFailed, failure := Some(PersistenceFailure))) else saved
  {
    ReplaceValid(saved, t, done);
    SettlesBy(saved, done, second, third);
    FailThere(saved, t, done, PersistenceFailure, third);
  }

  lemma SettleWritten(saved: seq<Transaction>, t: Transaction, done: Transaction, second: Fate, third: Fate)
    requires ValidDocument(saved) && t in saved && done.id == t.id && ValidTransaction(done) && second != Refused
    ensures Settle(saved, done, second, third).0 == if Persists(second) then Replace(saved, done) else saved
  {
    ReplaceValid(saved, t, done);
    SettlesBy(saved, done, second, third);
  }

  lemma SettleThere(saved: seq<Transaction>, t: Transaction, done: Transaction, second: Fate, third: Fate)
    requires ValidDocument(saved) && t in saved && done.id == t.id
    ensures Settle(saved, done, second, third).0 == Replace(saved, SettledAs(t, done, second, third))
  {
    ReplaceSame(saved, t);
    if ValidTransaction(done) && second != Refused {
      SettleWritten(saved, t, done, second, third);
      assert SettledAs(t, done, second, third) == if Persists(second) then done else t;
    } else {
      SettleRefused(saved, t, done, second, third);
      assert SettledAs(t, done, second, third)
          == if ValidTransaction(done) && Persists(third)
             then done.(state := ApplyFailed, failure := Some(PersistenceFailure)) else t;
    }
  }

  lemma FinishesBy(saved: seq<Transaction>, applying: Transaction, post: Observed, second: Fate, third: Fate)
    ensures FinishApply(saved, applying, post, second, third).0
         == if post.None? then Fail(saved, applying, Foreign, third).0
            else if AppliedBinding(post.value, applying).Some? then
              Fail(saved, applying, AppliedBinding(post.value, applying).value, third).0
            else Settle(saved, applying.(state := Applied, postApply := post, failure := None), second, third).0
  {
  }

  lemma FailEffect(saved: seq<Transaction>, t: Transaction, error: Error, fate: Fate)
    requires ValidDocument(saved) && t in saved
    ensures Fail(saved, t, error, fate).0 == Replace(saved, FailedAs(t, error, fate))
  {
    ReplaceSame(saved, t);
    FailThere(saved, t, t, error, fate);
  }

  lemma AppliedBy(t: Transaction, applying: Transaction, post: Observed, second: Fate, third: Fate)
    requires applying == t.(state := Applying, failure := None)
    ensures AppliedAs(t, post, second, third)
         == if post.None? then FailedAs(applying, Foreign, third)
            else if AppliedBinding(post.value, applying).Some? then
              FailedAs(applying, AppliedBinding(post.value, applying).value, third)
            else SettledAs(applying, applying.(state := Applied, postApply := post, failure := None), second, third)
  {
  }

  lemma FinishApplyEffect(saved: seq<Transaction>, applying: Transaction, t: Transaction, post: Observed, second: Fate,
                          third: Fate)
    requires ValidDocument(saved) && applying in saved && applying == t.(state := Applying, failure := None)
    ensures FinishApply(saved, applying, post, second, third).0 == Replace(saved, AppliedAs(t, post, second, third))
  {
    FinishesBy(saved, applying, post, second, third);
    AppliedBy(t, applying, post, second, third);
    if post.None? {
      FailEffect(saved, applying, Foreign, third);
    } else if AppliedBinding(post.value, applying).Some? {
      FailEffect(saved, applying, AppliedBinding(post.value, applying).value, third);
    } else {
      SettleThere(saved, applying, applying.(state := Applied, postApply := post, failure := None), second, third);
    }
  }

  lemma ApplyProceeds(document: seq<Transaction>, t: Transaction, inspected: Inspected, observed: Observed,
                      post: Observed, second: Fate, third: Fate)
    requires Find(document, t.id) == Some(t) && MayApply(t, inspected, observed).None?
    requires ValidDocument(Replace(document, t.(state := Applying, failure := None)))
    ensures var applying := t.(state := Applying, failure := None);
      var x, y := Apply(document, t.id, inspected, observed, post, Written, second, third),
        FinishApply(Replace(document, applying), applying, post, second, third);
      x.document == y.0 && x.outcome == y.1
  {
  }

  lemma AppliedMeans(t: Transaction, post: Observed, second: Fate, third: Fate)
    requires ValidTransaction(t)
    ensures AppliedAs(t, post, second, third).id == t.id
    ensures AppliedAs(t, post, second, third).state == Applied
      <==> post.Some? && AppliedBinding(post.value, t).None? && WellFormed(post.value) && Persists(second)
  {
  }

  /** What was handed to the runtime ends applied exactly when the runtime then proves it, with numbers
      that can be stored, and the write persists; no other transaction changes. */
  lemma ApplyEffect(document: seq<Transaction>, t: Transaction, inspected: Inspected, observed: Observed,
                    post: Observed, second: Fate, third: Fate)
    requires ValidDocument(document) && t in document && MayApply(t, inspected, observed).None?
    ensures Apply(document, t.id, inspected, observed, post, Written, second, third).document
      == Replace(document, AppliedAs(t, post, second, third))
    ensures AppliedAs(t, post, second, third).state == Applied
      <==> post.Some? && AppliedBinding(post.value, t).None? && WellFormed(post.value) && Persists(second)
  {
    var applying := t.(state := Applying, failure := None);
    Found(document, t);
    ReplaceValid(document, t, applying);
    ApplyProceeds(document, t, inspected, observed, post, second, third);
    FinishApplyEffect(Replace(document, applying), applying, t, post, second, third);
    AppliedMeans(t, post, second, third);
    ReplaceTwice(document, applying, AppliedAs(t, post, second, third));
  }

  // ---- repeated calls --------------------------------------------------------------------

  lemma ReplacedIn(document: seq<Transaction>, t: Transaction)
    requires exists u :: u in document && u.id == t.id
    ensures t in Replace(document, t)
  {
    var u :| u in document && u.id == t.id;
    var k :| 0 <= k < |document| && document[k] == u;
    assert Replace(document, t)[k] == t;
  }

  lemma SettleReturns(saved: seq<Transaction>, done: Transaction, second: Fate, third: Fate)
    ensures Settle(saved, done, second, third).1.Returned? ==>
      Settle(saved, done, second, third) == (Replace(saved, done), Returned(Some(done)))
  {
  }

  /** The call returned the transaction, which is now stored in this state. */
  predicate Reached(document: seq<Transaction>, outcome: Outcome, id: Id, state: TransactionState) {
    && outcome.Returned? && outcome.transaction.Some? && outcome.transaction.value in document
    && outcome.transaction.value.id == id && outcome.transaction.value.state == state
  }

  lemma FinishApplyReturns(saved: seq<Transaction>, applying: Transaction, post: Observed, second: Fate, third: Fate)
    requires applying in saved
    ensures var (next, outcome) := FinishApply(saved, applying, post, second, third);
      outcome.Returned? ==> Reached(next, outcome, applying.id, Applied)
  {
    if post.Some? && AppliedBinding(post.value, applying).None? {
      var done := applying.(state := Applied, postApply := Some(post.value), failure := None);
      SettleReturns(saved, done, second, third);
      ReplacedIn(saved, done);
    }
  }

  lemma ApplyStops(document: seq<Transaction>, t: Transaction, inspected: Inspected, observed: Observed, post: Observed,
                   first: Fate, second: Fate, third: Fate)
    requires Find(document, t.id) == Some(t)
    requires t.state == Applied || MayApply(t, inspected, observed).Some? || first != Written
      || !ValidDocument(Replace(document, t.(state := Applying, failure := None)))
    ensures var x := Apply(document, t.id, inspected, observed, post, first, second, third);
      x.outcome.Returned? ==> t.state == Applied && x.document == document && x.outcome == Returned(Some(t))
  {
  }

  lemma ApplyReturns(document: seq<Transaction>, id: Id, inspected: Inspected, observed: Observed, post: Observed,
                     first: Fate, second: Fate, third: Fate)
    ensures var x := Apply(document, id, inspected, observed, post, first, second, third);
      x.outcome.Returned? ==> Reached(x.document, x.outcome, id, Applied)
  {
    var found := Find(document, id);
    if found.Some? {
      var t := found.value;
      var applying := t.(state := Applying, failure := None);
      if t.state != Applied && MayApply(t, inspected, observed).None? && first == Written
        && ValidDocument(Replace(document, applying)) {
        ApplyProceeds(document, t, inspected, observed, post, second, third);
        ReplacedIn(document, applying);
        FinishApplyReturns(Replace(document, applying), applying, post, second, third);
      } else {
        ApplyStops(document, t, inspected, observed, post, first, second, third);
      }
    }
  }

  /** An apply, a confirmation or a rollback that returned can be repeated: whatever the runtime says by
      then, the same transaction is returned, and neither the store nor the runtime is touched. */
  lemma ApplyRepeats(document: seq<Transaction>, id: Id, i: Inspected, o: Observed, p: Observed, f: Fate, g: Fate,
                     h: Fate,
                     inspected: Inspected, observed: Observed, post: Observed, first: Fate, second: Fate, third: Fate)
    requires DocumentInv(document)
    ensures var x := Apply(document, id, i, o, p, f, g, h);
      x.outcome.Returned? ==>
        Apply(x.document, id, inspected, observed, post, first, second, third)
          == AppliedTo(x.document, x.outcome, false)
  {
    var x := Apply(document, id, i, o, p, f, g, h);
    ApplyReturns(document, id, i, o, p, f, g, h);
    ApplyRewrites(document, id, i, o, p, f, g, h);
    if x.outcome.Returned? {
      Found(x.document, x.outcome.transaction.value);
    }
  }

  lemma ConfirmReturns(document: seq<Transaction>, id: Id, inspected: Inspected, observed: Observed, fate: Fate)
    ensures var (next, outcome) := Confirm(document, id, inspected, observed, fate);
      outcome.Returned? ==> Reached(next, outcome, id, Confirmed)
  {
    var found := Find(document, id);
    if found.Some? {
      ReplacedIn(document, found.value.(state := Confirmed, failure := None));
    }
  }

  lemma ConfirmRepeats(document: seq<Transaction>, id: Id, i: Inspected, o: Observed, f: Fate, inspected: Inspected,
                       observed: Observed, fate: Fate)
    requires DocumentInv(document)
    ensures var x := Confirm(document, id, i, o, f);
      x.1.Returned? ==> Confirm(x.0, id, inspected, observed, fate) == x
  {
    var x := Confirm(document, id, i, o, f);
    ConfirmReturns(document, id, i, o, f);
    ConfirmRewrites(document, id, i, o, f);
    if x.1.Returned? {
      Found(x.0, x.1.transaction.value);
    }
  }

  lemma FinishRollbackReturns(saved: seq<Transaction>, rolling: Transaction, post: Observed, second: Fate, third: Fate)
    requires rolling in saved
    ensures var (next, outcome) := FinishRollback(saved, rolling, post, second, third);
      outcome.Returned? ==> Reached(next, outcome, rolling.id, RolledBack)
  {
    if post.Some? && RolledBackBinding(post.value, rolling).None? {
      var done := rolling.(state := RolledBack, postRollback := Some(post.value), failure := None);
      SettleReturns(saved, done, second, third);
      ReplacedIn(saved, done);
    }
  }

  lemma RollbackShape(document: seq<Transaction>, t: Transaction, post: Observed, first: Fate, second: Fate,
                      third: Fate)
    requires Find(document, t.id) == Some(t)
    ensures var x := Rollback(document, t.id, post, first, second, third);
      var rolling := t.(state := RollbackInProgress, failure := None);
      x.1.Returned? ==> (t.state == RolledBack && x == (document, Returned(Some(t))))
                        || x == FinishRollback(Replace(document, rolling), rolling, post, second, third)
  {
    if t.state != RolledBack && MayRollBack(t) {
      var rolling := t.(state := RollbackInProgress, failure := None);
      SavesBy(document, Replace(document, rolling), first, Returned(Some(rolling)));
    }
  }

  lemma SavesBy(saved: seq<Transaction>, next: seq<Transaction>, fate: Fate, outcome: Outcome)
    requires outcome.Returned?
    ensures Save(saved, next, fate, outcome).1.Returned? ==> Save(saved, next, fate, outcome) == (next, outcome)
  {
  }

  lemma RollbackReturns(document: seq<Transaction>, id: Id, post: Observed, first: Fate, second: Fate, third: Fate)
    ensures var (next, outcome) := Rollback(document, id, post, first, second, third);
      outcome.Returned? ==> Reached(next, outcome, id, RolledBack)
  {
    var found := Find(document, id);
    if found.Some? {
      var rolling := found.value.(state := RollbackInProgress, failure := None);
      RollbackShape(document, found.value, post, first, second, third);
      ReplacedIn(document, rolling);
      FinishRollbackReturns(Replace(document, rolling), rolling, post, second, third);
    }
  }

  lemma RollbackRepeats(document: seq<Transaction>, id: Id, p: Observed, f: Fate, g: Fate, h: Fate, post: Observed,
                        first: Fate, second: Fate, third: Fate)
    requires DocumentInv(document)
    ensures var x := Rollback(document, id, p, f, g, h);
      x.1.Returned? ==> Rollback(x.0, id, post, first, second, third) == x
  {
    var x := Rollback(document, id, p, f, g, h);
    RollbackReturns(document, id, p, f, g, h);
    RollbackRewrites(document, id, p, f, g, h);
    if x.1.Returned? {
      Found(x.0, x.1.transaction.value);
    }
  }

  lemma ConfirmsBy(document: seq<Transaction>, t: Transaction, inspected: Inspected, observed: Observed, fate: Fate)
    requires Find(document, t.id) == Some(t) && t.state == Applied && t.postApply.Some?
    ensures var next := Replace(document, t.(state := Confirmed, failure := None));
      Confirm(document, t.id, inspected, observed, fate).0
        == if && inspected == Some(t.candidate) && observed.Some? && SameIdentity(observed.value, t.postApply.value)
              && AppliedBinding(observed.value, t).None? && ValidDocument(next) && Persists(fate)
           then next else document
  {
  }

  /** An applied transaction is confirmed exactly when its candidate is unchanged and the runtime is
      still the one that was recorded after applying, and the write persists; nothing else changes. */
  lemma ConfirmsIff(document: seq<Transaction>, t: Transaction, inspected: Inspected, observed: Observed, fate: Fate)
    requires DocumentInv(document) && t in document && t.state == Applied
    ensures var after := Confirm(document, t.id, inspected, observed, fate).0;
      if && inspected == Some(t.candidate) && observed.Some? && SameIdentity(observed.value, t.postApply.value)
         && AppliedBinding(observed.value, t).None? && Persists(fate)
      then after == Replace(document, t.(state := Confirmed, failure := None)) else after == document
  {
    Found(document, t);
    assert Evidenced(t);
    ConfirmsBy(document, t, inspected, observed, fate);
    ReplaceValid(document, t, t.(state := Confirmed, failure := None));
  }

  // ---- restart ---------------------------------------------------------------------------

  /** The runtime proves that the interrupted step took effect, with numbers the store refuses. */
  predicate Unstorable(t: Transaction, inspected: Inspected, current: Snapshot) {
    && !WellFormed(current)
    && (if t.state == Applying then inspected == Some(t.candidate) && AppliedBinding(current, t).None?
        else RolledBackBinding(current, t).None?)
  }

  lemma RecoveredValid(t: Transaction, inspected: Inspected, current: Snapshot)
    requires Interrupted(t) && ValidTransaction(t)
    ensures ValidTransaction(Recovered(t, inspected, current)) <==> !Unstorable(t, inspected, current)
    ensures !Interrupted(Recovered(t, inspected, current))
  {
  }

  /** The recovery settles an interrupted transaction: the runtime answers, what it proves can be stored,
      and the write persists. */
  predicate Settles(t: Transaction, inspected: Inspected, observed: Observed, fate: Fate) {
    observed.Some? && !Unstorable(t, inspected, observed.value) && Persists(fate)
  }

  /** What recovery writes for an interrupted transaction, if it can. */
  lemma RecoveryWrites(document: seq<Transaction>, t: Transaction, inspected: Inspected, observed: Observed, fate: Fate)
    requires DocumentInv(document) && t in document && Interrupted(t)
    ensures RecoverInterrupted(document, inspected, observed, fate).0
      == if Settles(t, inspected, observed, fate)
         then Replace(document, Recovered(t, inspected, observed.value)) else document
  {
    ActiveIs(document, t);
    if observed.Some? {
      RecoveredValid(t, inspected, observed.value);
      ReplaceValid(document, t, Recovered(t, inspected, observed.value));
    }
  }

  lemma NoneInterrupted(document: seq<Transaction>, t: Transaction, u: Transaction)
    requires ValidDocument(document) && t in document && u.id == t.id && !Interrupted(u)
    requires forall v :: v in document && !Terminal(v) ==> v == t
    ensures forall v :: v in Replace(document, u) ==> !Interrupted(v)
  {
    ReplaceValid(document, t, u);
  }

  lemma InterruptedSettles(document: seq<Transaction>, t: Transaction, inspected: Inspected, observed: Observed,
                           fate: Fate)
    requires DocumentInv(document) && t in document && Interrupted(t)
    ensures var after := RecoverInterrupted(document, inspected, observed, fate).0;
      if Settles(t, inspected, observed, fate) then forall v :: v in after ==> !Interrupted(v) else t in after
    ensures forall v :: v in document && Interrupted(v) ==> v == t
  {
    RecoveryWrites(document, t, inspected, observed, fate);
    OnlyActive(document, t);
    if Settles(t, inspected, observed, fate) {
      RecoveredValid(t, inspected, observed.value);
      NoneInterrupted(document, t, Recovered(t, inspected, observed.value));
    }
  }

  /** Whatever the runtime answers and however the write ends, a recovery leaves something applying or
      rolling back exactly when it found such a transaction and the runtime did not answer, proved it with
      numbers that cannot be stored, or the write did not persist. */
  lemma RecoverySettles(document: seq<Transaction>, inspected: Inspected, observed: Observed, fate: Fate)
    requires DocumentInv(document)
    ensures var after := RecoverInterrupted(document, inspected, observed, fate).0;
      (exists t :: t in after && Interrupted(t))
        <==> (exists t :: t in document && Interrupted(t) && !Settles(t, inspected, observed, fate))
  {
    if t :| t in document && Interrupted(t) {
      InterruptedSettles(document, t, inspected, observed, fate);
    } else {
      ActiveIsIn(document);
      assert RecoverInterrupted(document, inspected, observed, fate).0 == document;
    }
  }

  /** A concrete case: the candidate came up, but the runtime reports a negative number of full tools,
      which the binding of an applied candidate does not look at and the store refuses. The transaction
      stays applying after a recovery that wrote nothing. */
  lemma UnstorableExample()
    ensures var pre := Snapshot(true, Some("r"), Some("i"), Some("c"), Some(1), Some(9), Some(5), "/old");
      var candidate := Candidate(1, 2, 3, "/new", "head", "print", 0);
      var t :=
        Transaction(0, Applying, Expectation(1, 2, 3, "head", "print", 1, None, None), candidate, pre, None, None,
                    None);
      var current := Snapshot(true, Some("r"), Some("j"), Some("c"), Some(2), Some(-1), Some(5), "/new");
      && DocumentInv([t]) && AppliedBinding(current, t).None? && Unstorable(t, Some(candidate), current)
      && RecoverInterrupted([t], Some(candidate), Some(current), Written).0 == [t]
  {
    var pre := Snapshot(true, Some("r"), Some("i"), Some("c"), Some(1), Some(9), Some(5), "/old");
    var candidate := Candidate(1, 2, 3, "/new", "head", "print", 0);
    var t :=
      Transaction(0, Applying, Expectation(1, 2, 3, "head", "print", 1, None, None), candidate, pre, None, None, None);
    var current := Snapshot(true, Some("r"), Some("j"), Some("c"), Some(2), Some(-1), Some(5), "/new");
    assert "/old"[0] == '/' && "/new"[0] == '/';
    assert "/new" != "" && "/old" != "" && "i"[0] != "j"[0];
    assert Evidenced(t) && ValidTransaction(t);
    RecoveryWrites([t], t, Some(candidate), Some(current), Written);
    RecoveredValid(t, Some(candidate), current);
  }

  // ---- rolling back ----------------------------------------------------------------------

  /** One rollback: what the runtime answers, and how its writes end. */
  datatype Attempt = Attempt(post: Observed, first: Fate, second: Fate, third: Fate)

  function After(document: seq<Transaction>, id: Id, x: Attempt): seq<Transaction> {
    Rollback(document, id, x.post, x.first, x.second, x.third).0
  }

  /** The runtime proves that the captured binding runs again. */
  predicate Restores(post: Observed, t: Transaction) {
    post.Some? && RolledBackBinding(post.value, t).None?
  }

  /** The rollback gets through: the proof is there, in numbers that the store takes, and is written. */
  predicate Completes(t: Transaction, x: Attempt) {
    x.first == Written && Restores(x.post, t) && WellFormed(x.post.value) && Persists(x.second)
  }

  /** The rollback stops half way: the process dies after the first write, the proof has numbers that the
      store refuses, or neither the proof nor the failure is written. */
  predicate StopsHalfWay(t: Transaction, x: Attempt) {
    || x.first == CrashAfter
    || (x.first == Written && Restores(x.post, t)
        && (!WellFormed(x.post.value) || x.second == CrashBefore || (x.second == Refused && !Persists(x.third))))
    || (x.first == Written && !Restores(x.post, t) && !Persists(x.third))
  }

  /** What is left of the transaction once the runtime answered. */
  function FinishedAs(rolling: Transaction, x: Attempt): Transaction {
    if x.post.None? then FailedAs(rolling, Foreign, x.third)
    else match RolledBackBinding(x.post.value, rolling)
      case Some(error) => FailedAs(rolling, error, x.third)
      case None =>
        SettledAs(rolling, rolling.(state := RolledBack, postRollback := x.post, failure := None), x.second, x.third)
  }

  /** What a rollback leaves of the transaction. */
  function RolledTo(t: Transaction, x: Attempt): Transaction {
    var rolling := t.(state := RollbackInProgress, failure := None);
    if x.first == Written then FinishedAs(rolling, x) else if x.first == CrashAfter then rolling else t
  }

  lemma {:induction false} ReplaceTwice(document: seq<Transaction>, t: Transaction, u: Transaction)
    requires t.id == u.id
    ensures Replace(Replace(document, t), u) == Replace(document, u)
  {
  }

  lemma FinishesRollbackBy(saved: seq<Transaction>, rolling: Transaction, x: Attempt)
    ensures FinishRollback(saved, rolling, x.post, x.second, x.third).0
         == if x.post.None? then Fail(saved, rolling, Foreign, x.third).0
            else if RolledBackBinding(x.post.value, rolling).Some? then
              Fail(saved, rolling, RolledBackBinding(x.post.value, rolling).value, x.third).0
            else
              Settle(saved, rolling.(state := RolledBack, postRollback := x.post, failure := None), x.second, x.third).0
  {
  }

  lemma FinishEffect(saved: seq<Transaction>, rolling: Transaction, x: Attempt)
    requires ValidDocument(saved) && rolling in saved
    ensures FinishRollback(saved, rolling, x.post, x.second, x.third).0 == Replace(saved, FinishedAs(rolling, x))
  {
    FinishesRollbackBy(saved, rolling, x);
    if !Restores(x.post, rolling) {
      FailEffect(saved, rolling, if x.post.None? then Foreign else RolledBackBinding(x.post.value, rolling).value,
                 x.third);
    } else {
      SettleThere(saved, rolling, rolling.(state := RolledBack, postRollback := x.post, failure := None), x.second,
                  x.third);
    }
  }

  lemma RollbackProceeds(document: seq<Transaction>, t: Transaction, x: Attempt)
    requires Find(document, t.id) == Some(t) && MayRollBack(t)
    requires ValidDocument(Replace(document, t.(state := RollbackInProgress, failure := None)))
    ensures var rolling := t.(state := RollbackInProgress, failure := None);
      After(document, t.id, x)
        == if x.first == Written
           then FinishRollback(Replace(document, rolling), rolling, x.post, x.second, x.third).0
           else if x.first == CrashAfter then Replace(document, rolling)
           else document
  {
  }

  lemma RollbackFinishes(document: seq<Transaction>, t: Transaction, x: Attempt, u: Transaction)
    requires ValidDocument(document) && t in document && MayRollBack(t) && x.first == Written
    requires u == FinishedAs(t.(state := RollbackInProgress, failure := None), x) && u.id == t.id
    ensures After(document, t.id, x) == Replace(document, u)
  {
    var rolling := t.(state := RollbackInProgress, failure := None);
    Found(document, t);
    ReplaceValid(document, t, rolling);
    RollbackProceeds(document, t, x);
    FinishEffect(Replace(document, rolling), rolling, x);
    ReplaceTwice(document, rolling, u);
  }

  lemma RollbackEffect(document: seq<Transaction>, t: Transaction, x: Attempt, u: Transaction)
    requires ValidDocument(document) && t in document && MayRollBack(t) && u == RolledTo(t, x) && u.id == t.id
    ensures After(document, t.id, x) == Replace(document, u)
  {
    if x.first == Written {
      RollbackFinishes(document, t, x, u);
    } else {
      Found(document, t);
      ReplaceSame(document, t);
      ReplaceValid(document, t, t.(state := RollbackInProgress, failure := None));
      RollbackProceeds(document, t, x);
    }
  }

  lemma RolledMeans(t: Transaction, x: Attempt)
    requires MayRollBack(t) && ValidTransaction(t)
    ensures var u := RolledTo(t, x);
      && u.id == t.id && u.pre == t.pre && (MayRollBack(u) || u.state == RollbackInProgress || u.state == RolledBack)
      && (u.state == RolledBack <==> Completes(t, x)) && (u.state == RollbackInProgress <==> StopsHalfWay(t, x))
  {
  }

  /** How one rollback ends, whatever the runtime answers and however the writes end: rolled back, with
      `prepare` enabled again, exactly when it gets through; rolling back exactly when it stops half way;
      otherwise it may be tried again. */
  lemma RollbackEnds(document: seq<Transaction>, t: Transaction, x: Attempt)
    requires DocumentInv(document) && t in document && MayRollBack(t)
    ensures var after := After(document, t.id, x);
      && DocumentInv(after) && Find(after, t.id).Some?
      && var u := Find(after, t.id).value;
         && u.pre == t.pre && (MayRollBack(u) || u.state == RollbackInProgress || u.state == RolledBack)
         && (u.state == RolledBack <==> Completes(t, x)) && (u.state == RollbackInProgress <==> StopsHalfWay(t, x))
         && (u.state == RolledBack ==> Active(after) == Success(None))
  {
    var u, after := RolledTo(t, x), After(document, t.id, x);
    RolledMeans(t, x);
    RollbackEffect(document, t, x, u);
    RollbackRewrites(document, t.id, x.post, x.first, x.second, x.third);
    ReplaceValid(document, t, u);
    Found(after, u);
    if u.state == RolledBack {
      OnlyActive(document, t);
      OnlyTerminal(document, t, u);
    }
  }

  /** From every state that may be rolled back, whatever the runtime answers and however the writes end:
      two rollbacks end rolled back, with `prepare` enabled again, exactly when the first gets through, or
      does not stop half way and the second gets through. */
  lemma TwoRollbacks(document: seq<Transaction>, t: Transaction, first: Attempt, second: Attempt)
    requires DocumentInv(document) && t in document && MayRollBack(t)
    ensures var after := After(After(document, t.id, first), t.id, second);
      && Find(after, t.id).Some?
      && (Find(after, t.id).value.state == RolledBack
          <==> Completes(t, first) || (!StopsHalfWay(t, first) && Completes(t, second)))
      && (Find(after, t.id).value.state == RolledBack ==> Active(after) == Success(None))
  {
    var once := After(document, t.id, first);
    RollbackEnds(document, t, first);
    var u := Find(once, t.id).value;
    if MayRollBack(u) {
      RollbackEnds(once, u, second);
    } else {
      RefusedRollback(once, u, second);
    }
  }

  /** In a valid transaction the only number of such a proof that the store can refuse is an epoch that is
      too large. */
  lemma RefusedProof(t: Transaction, post: Observed)
    requires Evidenced(t) && ValidTransaction(t) && Restores(post, t)
    ensures WellFormed(post.value) <==> post.value.epoch.value <= MAX_SAFE_INTEGER
  {
  }

  lemma RefusedRollback(document: seq<Transaction>, t: Transaction, x: Attempt)
    requires UniqueIds(document) && t in document && !MayRollBack(t)
    ensures After(document, t.id, x) == document
  {
    Found(document, t);
  }

  /** Recovery itself ends an interrupted rollback whose captured binding the runtime proves. */
  predicate RecoversRolledBack(t: Transaction, observed: Observed) {
    t.state == RollbackInProgress && Restores(observed, t)
  }

  lemma RecoveredShape(t: Transaction, inspected: Inspected, current: Snapshot)
    requires Interrupted(t)
    ensures var u := Recovered(t, inspected, current);
      && u.id == t.id && u.pre == t.pre && (MayRollBack(u) || u.state == RolledBack)
      && (u.state == RolledBack <==> RecoversRolledBack(t, Some(current)))
  {
  }

  lemma OnlyTerminal(document: seq<Transaction>, t: Transaction, u: Transaction)
    requires ValidDocument(document) && t in document && u.id == t.id && Terminal(u)
    requires forall v :: v in document && !Terminal(v) ==> v == t
    ensures Active(Replace(document, u)) == Success(None)
  {
    ReplaceValid(document, t, u);
    ActiveNone(Replace(document, u));
  }

  lemma RecoversTo(document: seq<Transaction>, t: Transaction, inspected: Inspected, observed: Observed, fate: Fate)
    requires DocumentInv(document) && t in document && Interrupted(t) && Settles(t, inspected, observed, fate)
    ensures var after, u := RecoverInterrupted(document, inspected, observed, fate).0,
      Recovered(t, inspected, observed.value);
      && DocumentInv(after) && u in after && u.id == t.id && u.pre == t.pre && (MayRollBack(u) || u.state == RolledBack)
      && (u.state == RolledBack <==> RecoversRolledBack(t, observed))
      && (Terminal(u) ==> Active(after) == Success(None))
  {
    var u, after := Recovered(t, inspected, observed.value), RecoverInterrupted(document, inspected, observed, fate).0;
    RecoveryWrites(document, t, inspected, observed, fate);
    ReplaceValid(document, t, u);
    RecoverRewrites(document, inspected, observed, fate);
    RecoveredShape(t, inspected, observed.value);
    assert after == Replace(document, u);
    if Terminal(u) {
      OnlyActive(document, t);
      OnlyTerminal(document, t, u);
    }
  }

  lemma SettledBefore(document: seq<Transaction>, t: Transaction, inspected: Inspected, observed: Observed, fate: Fate)
    requires DocumentInv(document) && t in document && !Terminal(t) && !Interrupted(t)
    ensures RecoverInterrupted(document, inspected, observed, fate).0 == document
  {
    ActiveIs(document, t);
  }

  lemma SameAttempt(t: Transaction, u: Transaction, x: Attempt)
    requires u.pre == t.pre
    ensures Completes(u, x) == Completes(t, x) && StopsHalfWay(u, x) == StopsHalfWay(t, x)
  {
  }

  lemma RecoveredThenRolled(recovered: seq<Transaction>, t: Transaction, u: Transaction, first: Attempt,
                            second: Attempt)
    requires DocumentInv(recovered) && u in recovered && u.id == t.id && u.pre == t.pre
    requires MayRollBack(u) || u.state == RolledBack
    requires Terminal(u) ==> Active(recovered) == Success(None)
    ensures var after := After(After(recovered, t.id, first), t.id, second);
      && Find(after, t.id).Some?
      && (Find(after, t.id).value.state == RolledBack
          <==> u.state == RolledBack || Completes(t, first) || (!StopsHalfWay(t, first) && Completes(t, second)))
      && (Find(after, t.id).value.state == RolledBack ==> Active(after) == Success(None))
  {
    SameAttempt(t, u, first);
    SameAttempt(t, u, second);
    if MayRollBack(u) {
      TwoRollbacks(recovered, u, first, second);
    } else {
      RefusedRollback(recovered, u, first);
      RefusedRollback(recovered, u, second);
      Found(recovered, u);
    }
  }

  /** How an activation that is not over leaves its state, whatever the runtime answers and however the
      writes end: a recovery that settles it, if it was interrupted, and then two rollbacks end it rolled
      back, with `prepare` enabled again, exactly when the recovery proves an interrupted rollback, the
      first rollback gets through, or the first does not stop half way and the second gets through. When
      the recovery does not settle it, nothing changes at all. */
  lemma NeverWedged(document: seq<Transaction>, t: Transaction, inspected: Inspected, observed: Observed, fate: Fate,
                    first: Attempt, second: Attempt)
    requires DocumentInv(document) && t in document && !Terminal(t)
    ensures var recovered := RecoverInterrupted(document, inspected, observed, fate).0;
      var after := After(After(recovered, t.id, first), t.id, second);
      if Interrupted(t) && !Settles(t, inspected, observed, fate) then after == document
      else
        && Find(after, t.id).Some?
        && (Find(after, t.id).value.state == RolledBack
            <==> RecoversRolledBack(t, observed) || Completes(t, first)
                 || (!StopsHalfWay(t, first) && Completes(t, second)))
        && (Find(after, t.id).value.state == RolledBack ==> Active(after) == Success(None))
  {
    if !Interrupted(t) {
      SettledBefore(document, t, inspected, observed, fate);
      TwoRollbacks(document, t, first, second);
    } else if !Settles(t, inspected, observed, fate) {
      RecoveryWrites(document, t, inspected, observed, fate);
      RefusedRollback(document, t, first);
      RefusedRollback(document, t, second);
    } else {
      var u := Recovered(t, inspected, observed.value);
      RecoversTo(document, t, inspected, observed, fate);
      RecoveredThenRolled(RecoverInterrupted(document, inspected, observed, fate).0, t, u, first, second);
    }
  }
}
