/** How each single acceptance ends in a run without faults, whatever the others do meanwhile. */
module SagaOutcomes {
  import opened Wrappers
  import opened Catalog
  import opened Ledger
  import opened MarketplaceRules
  import opened Saga
  import opened SagaInvariant
  import opened SagaSteps
  import opened SagaTheorems
  import opened SagaFaults

  /**
    The same for each listing at every moment, with any number of requests under way: it is unavailable exactly when
    somebody still has a claim on it, and then only one has.
  */
  lemma UnavailableExactlyWhenClaimed(acts: seq<Action>, l: Id)
    requires FaultFree(acts) && l in Exec(INIT, acts).rows
    ensures var s := Exec(INIT, acts);
            && (!s.rows[l].availability.Available? <==> exists x :: Claims(s, x, l))
            && (forall x, y :: Claims(s, x, l) && Claims(s, y, l) ==> x == y)
  {
    NoFaultNoLeak(acts);
    HoldConservation(acts, l);
    hide Exec, Claims, Leaked;
  }

  /** The step in which acceptance `r` claims its proposal and creates its transaction. */
  ghost predicate Commits(s: State, a: Action, r: nat) {
    a.OnAccept? && a.accept.DoAcceptCommit? && a.accept.r == r && Committing(s, r, a.accept.tid, a.accept.rivals)
  }

  /** The transaction is this acceptance's, and every listing it is about is in its hands. */
  ghost predicate Delivers(s: State, a: Accept, tid: Id) {
    && tid in s.ledger.transactions && s.ledger.transactions[tid].proposal == a.id
    && s.ledger.transactions[tid].target == a.p.target && s.ledger.transactions[tid].offered == a.p.offered
    && forall l :: Involves(s.ledger.transactions[tid], l) ==> l in s.rows && s.rows[l].availability.Reserved?
  }

  /** Nothing is held in the name of acceptance `r` any more, save by releases it has sent and that are under way. */
  ghost predicate GaveBack(s: State, r: nat) {
    forall l :: l in s.holder ==>
      match s.holder[l]
      case ByAccept(q) => q != r
      case ByReserve(c) => c in s.calls && s.calls[c].caller != r
      case ByRelease(c) => c in s.calls
      case _ => true
  }

  lemma NotLeakedGaveBack(s: State, r: nat)
    requires r !in s.accepts && forall l :: !Leaked(s, l)
    ensures GaveBack(s, r)
  {
    forall l | l in s.holder
      ensures !Leaked(s, l)
    {
    }
  }

  lemma OnlyCommitChangesLedger(s: State, a: Action, r: nat)
    requires Inv(s) && r in s.accepts && r !in Apply(s, a).accepts && !IsFault(a) && !Commits(s, a, r)
    ensures Apply(s, a).ledger == s.ledger
  {
    match a
    case OnAccept(x) => AcceptEndsQuietly(s, x, r);
    case OnServer(x) => ServerKeepsAccepts(s, x);
    case OnListing(x) => ListingKeepsCallers(s, x);
    case OnDraft(x) => DraftKeepsCallers(s, x);
    case OnConfirm(x) => ConfirmKeepsAccepts(s, x);
    hide Inv, ApplyListing, ApplyServer, ApplyDraft, ApplyAccept, ApplyConfirm, Commits;
  }

  lemma ConfirmKeepsAccepts(s: State, a: ConfirmAction)
    ensures ApplyConfirm(s, a).accepts == s.accepts
  {
  }

  lemma AcceptEndsQuietly(s: State, a: AcceptAction, r: nat)
    requires r in s.accepts && r !in ApplyAccept(s, a).accepts && !a.DoAcceptCrash? && !Commits(s, OnAccept(a), r)
    ensures ApplyAccept(s, a).ledger == s.ledger
  {
    hide RejectAll, Resolve, RivalRows, HandOver, Enumerates, ReadTargetForAccept, ReadOfferedForAccept, NextToReserve;
  }

  lemma CommitDelivers(s: State, a: Action, r: nat)
    requires Inv(s) && r in s.accepts && Commits(s, a, r) && Inv(Apply(s, a))
    ensures r !in Apply(s, a).accepts && a.accept.tid !in s.ledger.transactions && Delivers(Apply(s, a), s.accepts[r], a.accept.tid)
  {
    var t := Apply(s, a);
    CommittedTransaction(s, a, r);
    AcceptKeepsRows(s, a.accept);
    AcceptedListingsReserved(s, r);
    hide Inv, Apply, Commits;
  }

  lemma CommittedTransaction(s: State, a: Action, r: nat)
    requires r in s.accepts && Commits(s, a, r)
    ensures var t := Apply(s, a);
            var p := s.accepts[r].p;
            && r !in t.accepts && a.accept.tid !in s.ledger.transactions && a.accept.tid in t.ledger.transactions
            && t.ledger.transactions[a.accept.tid]
               == Transaction(s.accepts[r].id, p.target, p.offered, s.accepts[r].owner, p.requester, InProgress, false, false)
  {
    hide RejectAll, Resolve, RivalRows, Enumerates, HandOver;
  }

  lemma AcceptedListingsReserved(s: State, r: nat)
    requires Inv(s) && ReadyToCommit(s, r)
    ensures var p := s.accepts[r].p;
            && p.target in s.rows && s.rows[p.target].availability.Reserved?
            && (p.offered.Some? ==> p.offered.value in s.rows && s.rows[p.offered.value].availability.Reserved?)
  {
    hide CallInv, ConfirmInv, DraftInv, LedgerInv, Numbered;
  }

  /** Numbers are given out upwards, and an acceptance that is gone does not come back. */
  ghost predicate Gone(s: State, t: State, r: nat) {
    s.next <= t.next && (r < s.next && r !in s.accepts ==> r !in t.accepts)
  }

  lemma DraftKeepsGone(s: State, a: DraftAction, r: nat)
    ensures Gone(s, ApplyDraft(s, a), r)
  {
    hide Put, ReadTargetForCreate, ReadOfferedForCreate, CheckOwner, InsertProposal, RejectTx, FreshEventId;
  }

  lemma CommitKeepsGone(s: State, q: nat, tid: Id, rivals: seq<Rival>, at: string, r: nat)
    ensures Gone(s, AcceptCommit(s, q, tid, rivals, at), r)
  {
    hide NextToReserve, HandOver, AcceptTx, Enumerates;
  }

  lemma ReadsKeepGone(s: State, a: AcceptAction, r: nat)
    requires a.DoAcceptLoad? || a.DoAcceptReadTarget? || a.DoAcceptReadOffered? || a.DoAcceptIssue?
    ensures Gone(s, ApplyAccept(s, a), r)
  {
    hide ReadTargetForAccept, ReadOfferedForAccept, NextToReserve, AcceptSeen, AcceptRefused, AcceptInDoubt, AcceptCommit, AcceptAbort,
         AcceptRelease, AcceptCrash;
  }

  lemma AcceptKeepsGone(s: State, a: AcceptAction, r: nat)
    ensures Gone(s, ApplyAccept(s, a), r)
  {
    if a.DoAcceptCommit? {
      CommitKeepsGone(s, a.r, a.tid, a.rivals, a.at, r);
    } else if a.DoAcceptLoad? || a.DoAcceptReadTarget? || a.DoAcceptReadOffered? || a.DoAcceptIssue? {
      ReadsKeepGone(s, a, r);
    }
    hide AcceptLoad, AcceptReadTarget, AcceptReadOffered, AcceptIssue, AcceptCommit, NextToReserve, WithHold;
  }

  lemma ConfirmKeepsGone(s: State, a: ConfirmAction, r: nat)
    ensures Gone(s, ApplyConfirm(s, a), r)
  {
    hide Put, Reread, NextToComplete, CanClaim, ClaimCompletion;
  }

  lemma ServerKeepsGone(s: State, a: ServerAction, r: nat)
    ensures Gone(s, ApplyServer(s, a), r)
  {
    hide Decide, CanReserve, ReserveRow;
  }

  lemma StepKeepsGone(s: State, a: Action, r: nat)
    ensures Gone(s, Apply(s, a), r)
  {
    match a
    case OnListing(x) => ListingKeepsCallers(s, x);
    case OnServer(x) => ServerKeepsGone(s, x, r);
    case OnDraft(x) => DraftKeepsGone(s, x, r);
    case OnAccept(x) => AcceptKeepsGone(s, x, r);
    case OnConfirm(x) => ConfirmKeepsGone(s, x, r);
    hide Gone, ApplyServer, ApplyDraft, ApplyAccept, ApplyConfirm;
  }

  lemma {:induction false} NeverReturns(acts: seq<Action>, i: nat, r: nat)
    requires i <= |acts| && r < Exec(INIT, acts[..i]).next && r !in Exec(INIT, acts[..i]).accepts
    ensures r < Exec(INIT, acts).next && r !in Exec(INIT, acts).accepts
  {
    if i == |acts| {
      assert acts[..i] == acts;
    } else {
      var last := |acts| - 1;
      var s := Exec(INIT, acts[..last]);
      assert Exec(INIT, acts) == Apply(s, acts[last]);
      hide Exec, Apply;
      assert acts[..last][..i] == acts[..i];
      NeverReturns(acts[..last], i, r);
      StepKeepsGone(s, acts[last], r);
    }
  }

  /**
    All or nothing for each request, under any interference: without faults, an acceptance that ends has either
    created its one transaction, with every listing Reserved for it, or committed nothing in its whole life and given
    back everything it took, but for releases it has sent.
  */
  lemma AcceptanceEndsWhole(acts: seq<Action>, r: nat)
    requires FaultFree(acts) && acts != []
    requires r in Exec(INIT, acts[..|acts| - 1]).accepts && r !in Exec(INIT, acts).accepts
    ensures var s, t, a := Exec(INIT, acts[..|acts| - 1]), Exec(INIT, acts), acts[|acts| - 1];
            if Commits(s, a, r) then a.accept.tid !in s.ledger.transactions && Delivers(t, s.accepts[r], a.accept.tid)
            else t.ledger == s.ledger && GaveBack(t, r)
    ensures forall k :: 0 <= k < |acts| - 1 ==> !Commits(Exec(INIT, acts[..k]), acts[k], r)
  {
    var last := |acts| - 1;
    var s, a := Exec(INIT, acts[..last]), acts[last];
    assert Exec(INIT, acts) == Apply(s, a);
    RunKeepsInv(acts[..last]);
    RunKeepsInv(acts);
    NoFaultNoLeak(acts);
    assert !IsFault(a);
    forall k | 0 <= k < last
      ensures !Commits(Exec(INIT, acts[..k]), acts[k], r)
    {
      CommitIsTheEnd(acts, k, r);
    }
    hide Inv, Exec, Apply, Leaked, Commits, Delivers, GaveBack;
    if Commits(s, a, r) {
      CommitDelivers(s, a, r);
    } else {
      OnlyCommitChangesLedger(s, a, r);
      NotLeakedGaveBack(Apply(s, a), r);
    }
  }

  lemma CommitIsTheEnd(acts: seq<Action>, k: nat, r: nat)
    requires k < |acts| - 1 && r in Exec(INIT, acts[..|acts| - 1]).accepts
    ensures !Commits(Exec(INIT, acts[..k]), acts[k], r)
  {
    hide Exec, Commits;
    var last := |acts| - 1;
    if Commits(Exec(INIT, acts[..k]), acts[k], r) {
      CommitRemoves(acts, k, r);
      assert acts[..last][..k + 1] == acts[..k + 1];
      NeverReturns(acts[..last], k + 1, r);
    }
  }

  lemma CommitRemoves(acts: seq<Action>, k: nat, r: nat)
    requires k < |acts| && Commits(Exec(INIT, acts[..k]), acts[k], r)
    ensures var t := Exec(INIT, acts[..k + 1]); r < t.next && r !in t.accepts
  {
    var s := Exec(INIT, acts[..k]);
    assert acts[..k + 1][..k] == acts[..k] && acts[..k + 1][k] == acts[k];
    assert Exec(INIT, acts[..k + 1]) == Apply(s, acts[k]);
    RunKeepsInv(acts[..k]);
    hide Exec, Apply, Inv, Commits;
    CommitIsHis(s, acts[k], r);
    CommittedTransaction(s, acts[k], r);
    NumberKept(s, acts[k], r);
  }

  lemma CommitIsHis(s: State, a: Action, r: nat)
    requires Commits(s, a, r)
    ensures r in s.accepts
  {
    hide Enumerates;
  }

  lemma NumberKept(s: State, a: Action, r: nat)
    requires Inv(s) && r in s.accepts
    ensures r < s.next <= Apply(s, a).next
  {
    hide HoldInv, CallInv, AcceptInv, ConfirmInv, DraftInv, LedgerInv, Apply;
    StepKeepsGone(s, a, r);
  }
}
