/** The activation controller as it runs: `transaction` and `document` are reassigned, the store is
    rewritten around each call to the runtime, and each method does exactly what its step function
    says. */
module ActivationService {
  import opened Storage
  import opened Wrappers
  import opened Activation

  /** `replaceTransaction`, with its `found` flag. */
  method ReplaceTransaction(document: seq<Transaction>, t: Transaction) returns (replaced: Result<seq<Transaction>,
                                                                                 Error>)
    ensures replaced == if exists u ::
      u in document && u.id == t.id then Success(Replace(document, t)) else Failure(PersistenceFailure)
  {
    var found := false;
    var transactions: seq<Transaction> := [];
    for i := 0 to |document|
      invariant transactions == Replace(document, t)[..i]
      invariant found <==> exists j :: 0 <= j < i && document[j].id == t.id
    {
      if document[i].id != t.id {
        transactions := transactions + [document[i]];
      } else {
        found := true;
        transactions := transactions + [t];
      }
    }
    assert transactions == Replace(document, t);
    if !found {
      return Failure(PersistenceFailure);
    }
    ghost var j :| 0 <= j < |document| && document[j].id == t.id;
    assert document[j] in document;
    return Success(transactions);
  }

  class ActivationController {
    var document: seq<Transaction>
    /** Ids are handed out in order, so none is used twice. */
    var nextId: Id
    /** The transactions whose candidate was handed to the runtime. */
    var applies: seq<Id>

    function World(): World
      reads this
    {
      Activation.World.World(document, nextId, applies)
    }

    constructor ()
      ensures World() == Activation.World.World([], 0, [])
    {
      document, nextId, applies := [], 0, [];
    }

    /** `writeDocument`: refuses an invalid document, then one atomic write. */
    method WriteDocument(next: seq<Transaction>, fate: Fate) returns (stop: Option<Outcome>)
      modifies this`document
      ensures forall outcome ::
        Save(old(document), next, fate, outcome) == (document, if stop.Some? then stop.value else outcome)
      ensures stop.None? ==> document == next
      ensures stop.Some? ==>
        stop.value == Died || (stop.value == Threw(PersistenceFailure) && document == old(document))
    {
      if !ValidDocument(next) {
        return Some(Threw(PersistenceFailure));
      }
      match fate
      case Written => document := next; return None;
      case Refused => return Some(Threw(PersistenceFailure));
      case CrashBefore => return Some(Died);
      case CrashAfter => document := next; return Some(Died);
    }

    method PrepareTransaction(e: Expectation, inspected: Inspected, observed: Observed, fate: Fate) returns (o: Outcome)
      modifies this`document, this`nextId
      ensures (document, o) == Prepare(old(document), old(nextId), e, inspected, observed, fate)
      ensures nextId == old(nextId) + 1
    {
      var id := nextId;
      nextId := nextId + 1;
      if !PositiveInteger(e.epoch) {
        return Threw(InvalidRequest);
      }
      var active := Active(document);
      if active.Failure? {
        return Threw(active.error);
      }
      if active.value.Some? {
        return Threw(SupervisorBusy);
      }
      if inspected.None? {
        return Threw(Foreign);
      }
      var mismatch := CandidateMatches(inspected.value, e);
      if mismatch.Some? {
        return Threw(mismatch.value);
      }
      if observed.None? {
        return Threw(Foreign);
      }
      var unready := PreparePreconditions(observed.value, e);
      if unready.Some? {
        return Threw(unready.value);
      }
      var transaction := Transaction(id, Prepared, e, inspected.value, observed.value, None, None, None);
      var appended := Append(document, transaction);
      if appended.Failure? {
        return Threw(appended.error);
      }
      var stop := WriteDocument(appended.value, fate);
      return if stop.Some? then stop.value else Returned(Some(transaction));
    }

    /** The catch blocks. */
    method RecordFailure(current: Transaction, error: Error, fate: Fate) returns (o: Outcome)
      requires exists u :: u in document && u.id == current.id
      modifies this`document
      ensures (document, o) == Fail(old(document), current, error, fate)
    {
      var failed := current.(state := ApplyFailed, failure := Some(error));
      var replaced := ReplaceTransaction(document, failed);
      var stop := WriteDocument(replaced.value, fate);
      return if stop.Some? then stop.value else Threw(error);
    }

    /** The last write of the try blocks and, if it is refused, the catch block after it. */
    method RecordSuccess(done: Transaction, second: Fate, third: Fate) returns (o: Outcome)
      requires exists u :: u in document && u.id == done.id
      modifies this`document
      ensures (document, o) == Settle(old(document), done, second, third)
    {
      var replaced := ReplaceTransaction(document, done);
      var stop := WriteDocument(replaced.value, second);
      if stop.None? {
        return Returned(Some(done));
      }
      if stop.value.Died? {
        return Died;
      }
      o := RecordFailure(done, PersistenceFailure, third);
    }

    method ApplyTransaction(id: Id, inspected: Inspected, observed: Observed, post: Observed, first: Fate, second: Fate,
                            third: Fate) returns (o: Outcome)
      modifies this`document, this`applies
      ensures var applied := Activation.Apply(old(document), id, inspected, observed, post, first, second, third);
        document == applied.document && o == applied.outcome && applies == if applied.called then old(applies) + [id]
          else old(applies)
    {
      var found := Find(document, id);
      if found.None? {
        return Threw(InvalidRequest);
      }
      var transaction := found.value;
      if transaction.state == Applied {
        return Returned(Some(transaction));
      }
      var refusal := MayApply(transaction, inspected, observed);
      if refusal.Some? {
        return Threw(refusal.value);
      }
      transaction := transaction.(state := Applying, failure := None);
      var stop := Announce(found.value, transaction, first);
      if stop.Some? {
        return stop.value;
      }
      applies := applies + [id];
      o := Activate(transaction, post, second, third);
    }

    method Activate(applying: Transaction, post: Observed, second: Fate, third: Fate) returns (o: Outcome)
      requires applying in document
      modifies this`document
      ensures (document, o) == FinishApply(old(document), applying, post, second, third)
    {
      if post.None? {
        o := RecordFailure(applying, Foreign, third);
        return;
      }
      var mismatch := AppliedBinding(post.value, applying);
      if mismatch.Some? {
        o := RecordFailure(applying, mismatch.value, third);
        return;
      }
      o := RecordSuccess(applying.(state := Applied, postApply := post, failure := None), second, third);
    }

    method ConfirmTransaction(id: Id, inspected: Inspected, observed: Observed, fate: Fate) returns (o: Outcome)
      modifies this`document
      ensures (document, o) == Confirm(old(document), id, inspected, observed, fate)
    {
      var found := Find(document, id);
      if found.None? {
        return Threw(InvalidRequest);
      }
      var transaction := found.value;
      if transaction.state == Confirmed {
        return Returned(Some(transaction));
      }
      if transaction.state != Applied || transaction.postApply.None? {
        return Threw(PreconditionFailed);
      }
      if inspected.None? {
        return Threw(Foreign);
      }
      if inspected.value != transaction.candidate {
        return Threw(PreconditionFailed);
      }
      if observed.None? {
        return Threw(Foreign);
      }
      if !SameIdentity(observed.value, transaction.postApply.value) {
        return Threw(PreconditionFailed);
      }
      var mismatch := AppliedBinding(observed.value, transaction);
      if mismatch.Some? {
        return Threw(mismatch.value);
      }
      transaction := transaction.(state := Confirmed, failure := None);
      var replaced := ReplaceTransaction(document, transaction);
      var stop := WriteDocument(replaced.value, fate);
      return if stop.Some? then stop.value else Returned(Some(transaction));
    }

    /** The write that precedes a call to the runtime. */
    method Announce(was: Transaction, transaction: Transaction, fate: Fate) returns (stop: Option<Outcome>)
      requires was in document && transaction.id == was.id
      modifies this`document
      ensures var (next, outcome) :=
        Save(old(document), Replace(old(document), transaction), fate, Returned(Some(transaction)));
        && document == next && (if stop.Some? then outcome == stop.value else outcome == Returned(Some(transaction)))
        && (stop.Some? ==> !stop.value.Returned?) && (stop.None? ==> transaction in document)
    {
      StillThere(document, transaction, was);
      var replaced := ReplaceTransaction(document, transaction);
      stop := WriteDocument(replaced.value, fate);
    }

    method RollbackTransaction(id: Id, post: Observed, first: Fate, second: Fate, third: Fate) returns (o: Outcome)
      modifies this`document
      ensures (document, o) == Rollback(old(document), id, post, first, second, third)
    {
      var found := Find(document, id);
      if found.None? {
        return Threw(InvalidRequest);
      }
      var transaction := found.value;
      if transaction.state == RolledBack {
        return Returned(Some(transaction));
      }
      if !MayRollBack(transaction) {
        return Threw(PreconditionFailed);
      }
      transaction := transaction.(state := RollbackInProgress, failure := None);
      var stop := Announce(found.value, transaction, first);
      if stop.Some? {
        return stop.value;
      }
      o := Restore(transaction, post, second, third);
    }

    method Restore(rolling: Transaction, post: Observed, second: Fate, third: Fate) returns (o: Outcome)
      requires rolling in document
      modifies this`document
      ensures (document, o) == FinishRollback(old(document), rolling, post, second, third)
    {
      if post.None? {
        o := RecordFailure(rolling, Foreign, third);
        return;
      }
      var mismatch := RolledBackBinding(post.value, rolling);
      if mismatch.Some? {
        o := RecordFailure(rolling, mismatch.value, third);
        return;
      }
      o := RecordSuccess(rolling.(state := RolledBack, postRollback := post, failure := None), second, third);
    }

    method RecoverTransaction(inspected: Inspected, observed: Observed, fate: Fate) returns (o: Outcome)
      modifies this`document
      ensures (document, o) == RecoverInterrupted(old(document), inspected, observed, fate)
    {
      var active := Active(document);
      if active.Failure? {
        return Threw(active.error);
      }
      if active.value.None?
        || (active.value.value.state != Applying && active.value.value.state != RollbackInProgress) {
        return Returned(active.value);
      }
      var transaction := active.value.value;
      if observed.None? {
        return Threw(Foreign);
      }
      var current := observed.value;
      if transaction.state == Applying {
        if inspected.Some? && inspected.value == transaction.candidate && AppliedBinding(current, transaction).None? {
          transaction := transaction.(state := Applied, postApply := Some(current), failure := None);
        } else {
          transaction := transaction.(state := ApplyFailed, failure := Some(RecoveryRequired));
        }
      } else if RolledBackBinding(current, transaction).None? {
        transaction := transaction.(state := RolledBack, postRollback := Some(current), failure := None);
      } else {
        transaction := transaction.(state := ApplyFailed, failure := Some(RecoveryRequired));
      }
      ActiveIsThere(document);
      var replaced := ReplaceTransaction(document, transaction);
      var stop := WriteDocument(replaced.value, fate);
      return if stop.Some? then stop.value else Returned(Some(transaction));
    }
  }

  lemma StillThere(document: seq<Transaction>, t: Transaction, was: Transaction)
    requires was in document && t.id == was.id
    ensures t in Replace(document, t)
  {
    var i :| 0 <= i < |document| && document[i] == was;
    assert Replace(document, t)[i] == t;
  }

  lemma ActiveIsThere(document: seq<Transaction>)
    requires Active(document).Success? && Active(document).value.Some?
    ensures Active(document).value.value in document
  {
    assert ActiveOnes(document)[0] in ActiveOnes(document);
  }
}
