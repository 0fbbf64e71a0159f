/** Which completions are announced: each one once, unless the request that claimed it dies before it hands the event over. */
module SagaAnnouncements {
  import opened Wrappers
  import opened Catalog
  import opened Ledger
  import opened Saga
  import opened SagaInvariant
  import opened SagaSteps
  import opened SagaTheorems

  predicate IsSettled(l: Ledger, t: Id) {
    t in l.transactions && l.transactions[t].status.Completed?
  }

  /** The step claims a completion and lives on to publish it. */
  predicate HandsOver(a: Action) {
    a.OnConfirm? && a.confirm.DoConfirmClaim? && a.confirm.handed
  }

  /** The transaction is completed by this very step. */
  ghost predicate CompletesAt(acts: seq<Action>, i: nat, t: Id)
    requires i < |acts|
  {
    !IsSettled(Exec(INIT, acts[..i]).ledger, t) && IsSettled(Exec(INIT, acts[..i + 1]).ledger, t)
  }

  ghost predicate CompletedBy(acts: seq<Action>, t: Id, handed: bool) {
    exists i: nat :: i < |acts| && HandsOver(acts[i]) == handed && CompletesAt(acts, i, t)
  }

  lemma OnlyClaimSettles(l: Ledger, op: Op, t: Id)
    requires Enabled(l, op)
    ensures IsSettled(l, t) ==> IsSettled(ApplyOp(l, op), t)
    ensures !IsSettled(l, t) && IsSettled(ApplyOp(l, op), t) ==> op == Claim(t)
    ensures op.Claim? && CanClaim(l, op.tid) ==> !IsSettled(l, op.tid) && IsSettled(ApplyOp(l, op), op.tid)
  {
    hide Enumerates, RivalRows, RejectAll, MarkOutbox, RivalIds, FreshEventId, Consistent;
  }

  lemma DraftAnnouncesNothing(s: State, a: DraftAction)
    ensures ApplyDraft(s, a).announced == s.announced
  {
    hide FreshEventId, RejectTx, InsertProposal, ReadTargetForCreate, ReadOfferedForCreate, CheckOwner;
  }

  lemma AcceptAnnouncesNothing(s: State, a: AcceptAction)
    ensures ApplyAccept(s, a).announced == s.announced
  {
    hide Enumerates, AcceptTx, RivalIds, HandOver, ReadTargetForAccept, ReadOfferedForAccept, NextToReserve, WithHold;
  }

  lemma OthersAnnounceNothing(s: State, a: Action)
    requires !a.OnConfirm?
    ensures Apply(s, a).announced == s.announced && !HandsOver(a)
  {
    match a
    case OnListing(x) =>
    case OnServer(x) =>
    case OnDraft(x) => DraftAnnouncesNothing(s, x);
    case OnAccept(x) => AcceptAnnouncesNothing(s, x);
    hide ApplyDraft, ApplyAccept, ReserveRow, CanReserve, SetAvailability, Decide;
  }

  lemma ClaimAnnounces(s: State, r: nat, handed: bool)
    ensures var op := ConfirmOp(s, DoConfirmClaim(r, handed));
            && (op.Some? ==> op.value.Claim? && CanClaim(s.ledger, op.value.tid))
            && ConfirmClaim(s, r, handed).announced == if op.Some? && handed then s.announced + [op.value.tid] else s.announced
  {
    hide NextToComplete, CanClaim, ClaimCompletion;
  }

  lemma OtherConfirmsAnnounceNothing(s: State, a: ConfirmAction)
    requires !a.DoConfirmClaim?
    ensures ApplyConfirm(s, a).announced == s.announced
    ensures ConfirmOp(s, a).Some? ==> !ConfirmOp(s, a).value.Claim?
  {
    hide NextToComplete, Reread, ConfirmAsOwner, ConfirmAsRequester;
  }

  lemma ConfirmAnnounces(s: State, a: ConfirmAction)
    ensures var op := ConfirmOp(s, a);
            && ApplyConfirm(s, a).announced ==
                 (if op.Some? && op.value.Claim? && HandsOver(OnConfirm(a)) then s.announced + [op.value.tid] else s.announced)
            && (op.Some? && op.value.Claim? ==> CanClaim(s.ledger, op.value.tid))
            && (op.Some? && HandsOver(OnConfirm(a)) ==> op.value.Claim?)
  {
    if a.DoConfirmClaim? {
      ClaimAnnounces(s, a.r, a.handed);
      assert ApplyConfirm(s, a) == ConfirmClaim(s, a.r, a.handed);
    } else {
      OtherConfirmsAnnounceNothing(s, a);
    }
    hide ConfirmOp, ApplyConfirm, ConfirmClaim, CanClaim;
  }

  lemma StepAnnounces(s: State, a: Action, t: Id)
    requires Inv(s)
    ensures IsSettled(s.ledger, t) ==> IsSettled(Apply(s, a).ledger, t)
    ensures t in Apply(s, a).announced <==>
            t in s.announced || (HandsOver(a) && !IsSettled(s.ledger, t) && IsSettled(Apply(s, a).ledger, t))
  {
    ActionIsLedgerOp(s, a);
    var op := OpOf(s, a);
    if op.Some? {
      OnlyClaimSettles(s.ledger, op.value, t);
    }
    if a.OnConfirm? {
      assert Apply(s, a) == ApplyConfirm(s, a.confirm) && op == ConfirmOp(s, a.confirm);
      ConfirmAnnounces(s, a.confirm);
    } else {
      OthersAnnounceNothing(s, a);
    }
    hide Inv, Apply, ApplyConfirm, ConfirmOp, OpOf, Enabled, ApplyOp, CanClaim, IsSettled;
  }

  lemma SameMoment(acts: seq<Action>, i: nat, t: Id)
    requires i < |acts| - 1
    ensures CompletesAt(acts[..|acts| - 1], i, t) <==> CompletesAt(acts, i, t)
  {
    hide Exec, IsSettled;
    assert acts[..|acts| - 1][..i] == acts[..i] && acts[..|acts| - 1][..i + 1] == acts[..i + 1];
  }

  lemma CompletedByGrows(acts: seq<Action>, t: Id, handed: bool)
    requires acts != []
    ensures var last := |acts| - 1;
            CompletedBy(acts, t, handed) <==>
              CompletedBy(acts[..last], t, handed) || (HandsOver(acts[last]) == handed && CompletesAt(acts, last, t))
  {
    hide CompletesAt, HandsOver;
    var last := |acts| - 1;
    var before := acts[..last];
    forall i: nat | i < last
      ensures before[i] == acts[i] && (CompletesAt(before, i, t) <==> CompletesAt(acts, i, t))
    {
      SameMoment(acts, i, t);
    }
  }

  /**
    A completion is announced exactly when it was completed by a claim that handed it over, and it is completed but
    never announced exactly when the request that claimed it died in between. So without such a death the announced
    transactions are exactly the completed ones.
  */
  lemma {:induction false} AnnouncedExactly(acts: seq<Action>, t: Id)
    ensures var s := Exec(INIT, acts);
            && (t in s.announced <==> CompletedBy(acts, t, true))
            && (IsSettled(s.ledger, t) && t !in s.announced <==> CompletedBy(acts, t, false))
            && (t in s.announced ==> IsSettled(s.ledger, t))
  {
    if acts != [] {
      var last := |acts| - 1;
      var s := Exec(INIT, acts[..last]);
      assert acts[..last + 1] == acts;
      assert Exec(INIT, acts) == Apply(s, acts[last]);
      assert CompletesAt(acts, last, t) <==> !IsSettled(s.ledger, t) && IsSettled(Exec(INIT, acts).ledger, t);
      AnnouncedExactly(acts[..last], t);
      CompletedByGrows(acts, t, true);
      CompletedByGrows(acts, t, false);
      RunKeepsInv(acts[..last]);
      StepAnnounces(s, acts[last], t);
    }
    hide Exec, Apply, Inv, CompletedBy, CompletesAt, HandsOver, IsSettled;
  }
}
