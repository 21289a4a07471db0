/** What holds of the activation transactions over every run with failures, crashes and recoveries. */
module ActivationSafety {
  import opened Storage
  import opened Wrappers
  import opened Activation

  // ---- the invariant ---------------------------------------------------------------------

  /** A transaction carries the evidence its state claims. */
  predicate Evidenced(t: Transaction) {
    && PreparePreconditions(t.pre, t.expected).None? && CandidateMatches(t.candidate, t.expected).None?
    && (t.postApply.Some? ==> AppliedBinding(t.postApply.value, t).None?)
    && (t.postRollback.Some? ==> RolledBackBinding(t.postRollback.value, t).None?)
    && (t.state == Applied || t.state == Confirmed ==> t.postApply.Some?)
    && (t.state == RolledBack ==> t.postRollback.Some?)
  }

  predicate OneActive(document: seq<Transaction>) {
    forall i, j :: 0 <= i < j < |document| ==> Terminal(document[i]) || Terminal(document[j])
  }

  predicate DocumentInv(document: seq<Transaction>) {
    ValidDocument(document) && OneActive(document) && forall t :: t in document ==> Evidenced(t)
  }

  predicate Distinct(ids: seq<Id>) {
    forall i, j :: 0 <= i < j < |ids| ==> ids[i] != ids[j]
  }

  ghost predicate WorldInv(w: World) {
    && DocumentInv(w.document)
    && (forall t :: t in w.document ==> t.id < w.next)
    && Distinct(w.applies) && (forall id :: id in w.applies ==> id < w.next)
    && (forall t :: t in w.document && t.id in w.applies ==> t.state != Prepared)
  }

  // ---- how a document can change ---------------------------------------------------------

  /** `u` is what `t` is or may have become: what was prepared is fixed, and a terminal transaction
      never changes. */
  predicate Follows(t: Transaction, u: Transaction) {
    && u.id == t.id && u.expected == t.expected && u.candidate == t.candidate && u.pre == t.pre
    && (Terminal(t) ==> u == t)
    && (t.state != Prepared ==> u.state != Prepared)
  }

  predicate FollowsIn(document: seq<Transaction>, u: Transaction) {
    Find(document, u.id).Some? && Follows(Find(document, u.id).value, u)
  }

  /** Every entry of `after` is an entry of `before`, or what it became. */
  predicate Rewrites(before: seq<Transaction>, after: seq<Transaction>) {
    DocumentInv(after) && forall u :: u in after ==> FollowsIn(before, u)
  }

  lemma Found(document: seq<Transaction>, t: Transaction)
    requires UniqueIds(document) && t in document
    ensures Find(document, t.id) == Some(t)
  {
    var u := Find(document, t.id).value;
    var i, j :| 0 <= i < |document| && 0 <= j < |document| && document[i] == t && document[j] == u;
  }

  lemma RewritesSelf(document: seq<Transaction>)
    requires DocumentInv(document)
    ensures Rewrites(document, document)
  {
    forall u | u in document ensures FollowsIn(document, u) {
      Found(document, u);
    }
  }

  lemma RewritesTrans(a: seq<Transaction>, b: seq<Transaction>, c: seq<Transaction>)
    requires Rewrites(a, b) && Rewrites(b, c)
    ensures Rewrites(a, c)
  {
    forall u | u in c ensures FollowsIn(a, u) {
      assert FollowsIn(b, u);
      assert FollowsIn(a, Find(b, u.id).value);
    }
  }

  lemma ReplaceRewrites(document: seq<Transaction>, t: Transaction, u: Transaction)
    requires DocumentInv(document) && t in document && !Terminal(t) && Follows(t, u) && Evidenced(u)
    requires ValidDocument(Replace(document, u))
    ensures Rewrites(document, Replace(document, u))
    ensures u in Replace(document, u)
  {
    var after := Replace(document, u);
    Found(document, t);
    var k :| 0 <= k < |document| && document[k] == t;
    assert after[k] == u;
    forall v | v in after ensures FollowsIn(document, v) && Evidenced(v) {
      var i :| 0 <= i < |after| && after[i] == v;
      if document[i].id != u.id {
        Found(document, document[i]);
      }
    }
    forall i, j | 0 <= i < j < |after| ensures Terminal(after[i]) || Terminal(after[j]) {
      assert document[i].id == t.id ==> i == k;
      assert document[j].id == t.id ==> j == k;
    }
  }

  /** A write of the updated entry `u` over `saved`, whether it persists or not. */
  lemma SaveRewrites(saved: seq<Transaction>, t: Transaction, u: Transaction, fate: Fate, outcome: Outcome)
    requires DocumentInv(saved) && t in saved && !Terminal(t) && Follows(t, u) && Evidenced(u)
    ensures Rewrites(saved, Save(saved, Replace(saved, u), fate, outcome).0)
  {
    RewritesSelf(saved);
    if ValidDocument(Replace(saved, u)) {
      ReplaceRewrites(saved, t, u);
    }
  }

  lemma FailRewrites(saved: seq<Transaction>, t: Transaction, current: Transaction, error: Error, fate: Fate)
    requires DocumentInv(saved) && t in saved && !Terminal(t) && Evidenced(current)
    requires current.id == t.id && current.expected == t.expected && current.candidate == t.candidate
    requires current.pre == t.pre
    ensures Rewrites(saved, Fail(saved, current, error, fate).0)
  {
    SaveRewrites(saved, t, current.(state := ApplyFailed, failure := Some(error)), fate, Threw(error));
  }

  lemma SettleRewrites(saved: seq<Transaction>, t: Transaction, done: Transaction, second: Fate, third: Fate)
    requires DocumentInv(saved) && t in saved && !Terminal(t) && Follows(t, done) && Evidenced(done)
    ensures Rewrites(saved, Settle(saved, done, second, third).0)
  {
    SaveRewrites(saved, t, done, second, Returned(Some(done)));
    FailRewrites(saved, t, done, PersistenceFailure, third);
  }

  // ---- each operation --------------------------------------------------------------------

  lemma ApplyRewrites(document: seq<Transaction>, id: Id, inspected: Inspected, observed: Observed, post: Observed,
                      first: Fate, second: Fate, third: Fate)
    requires DocumentInv(document)
    ensures var applied := Apply(document, id, inspected, observed, post, first, second, third);
      && Rewrites(document, applied.document)
      && (applied.called ==> Find(document, id).Some? && Find(document, id).value.state == Prepared)
      && (applied.called ==> forall u :: u in applied.document && u.id == id ==> u.state != Prepared)
  {
    RewritesSelf(document);
    var t := Find(document, id);
    if t.Some? && t.value.state != Applied && MayApply(t.value, inspected, observed).None? {
      var applying := t.value.(state := Applying, failure := None);
      SaveRewrites(document, t.value, applying, first, Returned(Some(applying)));
      if ValidDocument(Replace(document, applying)) && first == Written {
        var saved := Replace(document, applying);
        ReplaceRewrites(document, t.value, applying);
        FinishApplyRewrites(saved, applying, post, second, third);
        RewritesTrans(document, saved, FinishApply(saved, applying, post, second, third).0);
        Found(saved, applying);
      }
    }
  }

  lemma FinishApplyRewrites(saved: seq<Transaction>, applying: Transaction, post: Observed, second: Fate, third: Fate)
    requires DocumentInv(saved) && applying in saved && applying.state == Applying
    ensures Rewrites(saved, FinishApply(saved, applying, post, second, third).0)
  {
    if post.None? {
      FailRewrites(saved, applying, applying, Foreign, third);
    } else {
      match AppliedBinding(post.value, applying)
      case Some(error) => FailRewrites(saved, applying, applying, error, third);
      case None =>
        SettleRewrites(saved, applying, applying.(state := Applied, postApply := Some(post.value), failure := None),
                       second, third);
    }
  }

  lemma ConfirmRewrites(document: seq<Transaction>, id: Id, inspected: Inspected, observed: Observed, fate: Fate)
    requires DocumentInv(document)
    ensures Rewrites(document, Confirm(document, id, inspected, observed, fate).0)
  {
    RewritesSelf(document);
    var t := Find(document, id);
    if t.Some? && t.value.state == Applied {
      var confirmed := t.value.(state := Confirmed, failure := None);
      SaveRewrites(document, t.value, confirmed, fate, Returned(Some(confirmed)));
    }
  }

  lemma FinishRollbackRewrites(saved: seq<Transaction>, rolling: Transaction, post: Observed, second: Fate, third: Fate)
    requires DocumentInv(saved) && rolling in saved && rolling.state == RollbackInProgress
    ensures Rewrites(saved, FinishRollback(saved, rolling, post, second, third).0)
  {
    if post.None? {
      FailRewrites(saved, rolling, rolling, Foreign, third);
    } else {
      match RolledBackBinding(post.value, rolling)
      case Some(error) => FailRewrites(saved, rolling, rolling, error, third);
      case None =>
        SettleRewrites(saved, rolling, rolling.(state := RolledBack, postRollback := Some(post.value), failure := None),
                       second, third);
    }
  }

  lemma RollbackRewrites(document: seq<Transaction>, id: Id, post: Observed, first: Fate, second: Fate, third: Fate)
    requires DocumentInv(document)
    ensures Rewrites(document, Rollback(document, id, post, first, second, third).0)
  {
    RewritesSelf(document);
    var t := Find(document, id);
    if t.Some? && MayRollBack(t.value) {
      var rolling := t.value.(state := RollbackInProgress, failure := None);
      SaveRewrites(document, t.value, rolling, first, Returned(Some(rolling)));
      if ValidDocument(Replace(document, rolling)) && first == Written {
        var saved := Replace(document, rolling);
        ReplaceRewrites(document, t.value, rolling);
        FinishRollbackRewrites(saved, rolling, post, second, third);
        RewritesTrans(document, saved, FinishRollback(saved, rolling, post, second, third).0);
      }
    }
  }

  lemma ActiveIsIn(document: seq<Transaction>)
    ensures var active := Active(document);
      active.Success? && active.value.Some? ==> active.value.value in document && !Terminal(active.value.value)
  {
    var active := ActiveOnes(document);
    assert active != [] ==> active[0] in active;
  }

  lemma RecoverRewrites(document: seq<Transaction>, inspected: Inspected, observed: Observed, fate: Fate)
    requires DocumentInv(document)
    ensures Rewrites(document, RecoverInterrupted(document, inspected, observed, fate).0)
  {
    RewritesSelf(document);
    ActiveIsIn(document);
    var active := Active(document);
    if active.Success? && active.value.Some? && Interrupted(active.value.value) && observed.Some? {
      var t := active.value.value;
      var u := Recovered(t, inspected, observed.value);
      SaveRewrites(document, t, u, fate, Returned(Some(u)));
    }
  }

  // ---- prepare ---------------------------------------------------------------------------

  lemma NoneActive(document: seq<Transaction>)
    requires Active(document) == Success(None)
    ensures forall t :: t in document ==> Terminal(t)
  {
    assert forall t :: t in document && !Terminal(t) ==> t in ActiveOnes(document);
  }

  lemma {:induction false} WithoutKeeps(document: seq<Transaction>, id: Id)
    requires UniqueIds(document)
    ensures UniqueIds(Without(document, id)) && |Without(document, id)| <= |document|
    ensures (exists t :: t in document && t.id == id) ==> |Without(document, id)| < |document|
    decreases |document|
  {
    if document != [] {
      var n := |document| - 1;
      WithoutKeeps(document[..n], id);
      assert document == document[..n] + [document[n]];
      forall t | t in Without(document[..n], id) ensures t.id != document[n].id {
      }
    }
  }

  /** A new transaction is added to a document in which every entry is terminal; at most one entry
      makes room for it, and the refusal for want of room cannot happen. */
  lemma AppendKeeps(document: seq<Transaction>, t: Transaction)
    requires DocumentInv(document) && (forall u :: u in document ==> Terminal(u) && u.id < t.id)
    ensures var next := Append(document, t);
      && next.Success? && t in next.value
      && |next.value| <= MAX_TRANSACTIONS && UniqueIds(next.value) && OneActive(next.value)
      && forall u :: u in next.value ==> u == t || u in document
  {
    var kept := if |document| < MAX_TRANSACTIONS then document
      else Without(document, OldestTerminal(document).value.id);
    if |document| >= MAX_TRANSACTIONS {
      assert document[0] in document;
      WithoutKeeps(document, OldestTerminal(document).value.id);
    }
    var next := kept + [t];
    assert Append(document, t) == Success(next);
    forall i, j | 0 <= i < j < |next| ensures next[i].id != next[j].id && Terminal(next[i]) {
      assert next[i] in kept;
      if j < |kept| {
        assert next[j] in kept;
      }
    }
  }

  lemma PrepareKeeps(document: seq<Transaction>, id: Id, e: Expectation, inspected: Inspected, observed: Observed,
                     fate: Fate)
    requires DocumentInv(document) && forall u :: u in document ==> u.id < id
    ensures var (after, outcome) := Prepare(document, id, e, inspected, observed, fate);
      && DocumentInv(after) && outcome != Threw(HistoryExhausted)
      && (forall u :: u in after ==> u.id <= id)
      && (forall u :: u in after && u.id < id ==> u in document)
  {
    if Active(document) == Success(None) && inspected.Some? && observed.Some?
      && CandidateMatches(inspected.value, e).None? && PreparePreconditions(observed.value, e).None? {
      NoneActive(document);
      AppendKeeps(document, Transaction(id, Prepared, e, inspected.value, observed.value, None, None, None));
    }
  }

  // ---- runs ------------------------------------------------------------------------------

  /** `x` is a later store: an entry with an old id is what the old entry became. */
  ghost predicate Later(w: World, x: World) {
    && w.next <= x.next && w.applies <= x.applies
    && forall u :: u in x.document ==> w.next <= u.id || FollowsIn(w.document, u)
  }

  lemma LaterTrans(w: World, x: World, y: World)
    requires Later(w, x) && Later(x, y)
    ensures Later(w, y)
  {
    forall u | u in y.document ensures w.next <= u.id || FollowsIn(w.document, u) {
      if FollowsIn(x.document, u) {
        var t := Find(x.document, u.id).value;
        assert w.next <= t.id || FollowsIn(w.document, t);
      }
    }
  }

  lemma Rewritten(w: World, document: seq<Transaction>)
    requires WorldInv(w) && Rewrites(w.document, document)
    ensures WorldInv(w.(document := document)) && Later(w, w.(document := document))
  {
    forall u | u in document ensures u.id < w.next && (u.id in w.applies ==> u.state != Prepared) {
      assert FollowsIn(w.document, u);
    }
  }

  lemma PreparedStep(w: World, e: Event)
    requires WorldInv(w) && e.PrepareEvent?
    ensures WorldInv(Step(w, e)) && Later(w, Step(w, e))
  {
    PrepareKeeps(w.document, w.next, e.expected, e.inspected, e.observed, e.first);
    RewritesSelf(w.document);
  }

  lemma AppliedStep(w: World, e: Event)
    requires WorldInv(w) && e.ApplyEvent?
    ensures WorldInv(Step(w, e)) && Later(w, Step(w, e))
  {
    var applied := Apply(w.document, e.id, e.inspected, e.observed, e.post, e.first, e.second, e.third);
    ApplyRewrites(w.document, e.id, e.inspected, e.observed, e.post, e.first, e.second, e.third);
    Rewritten(w, applied.document);
    assert applied.called ==> Find(w.document, e.id).value in w.document;
  }

  lemma EventKeeps(w: World, e: Event)
    requires WorldInv(w)
    ensures WorldInv(Step(w, e)) && Later(w, Step(w, e))
  {
    match e
    case PrepareEvent(_, _, _, _) => PreparedStep(w, e);
    case ApplyEvent(_, _, _, _, _, _, _) => AppliedStep(w, e);
    case ConfirmEvent(id, inspected, observed, first) =>
      ConfirmRewrites(w.document, id, inspected, observed, first);
      Rewritten(w, Step(w, e).document);
    case RollbackEvent(id, post, first, second, third) =>
      RollbackRewrites(w.document, id, post, first, second, third);
      Rewritten(w, Step(w, e).document);
    case RecoverEvent(inspected, observed, first) =>
      RecoverRewrites(w.document, inspected, observed, first);
      Rewritten(w, Step(w, e).document);
  }

  lemma {:induction false} RunKeeps(w: World, events: seq<Event>)
    requires WorldInv(w)
    ensures WorldInv(Run(w, events)) && Later(w, Run(w, events))
    decreases |events|
  {
    if events == [] {
      RewritesSelf(w.document);
    } else {
      EventKeeps(w, events[0]);
      RunKeeps(Step(w, events[0]), events[1..]);
      LaterTrans(w, Step(w, events[0]), Run(w, events));
    }
  }
}
