/** What holds of every run of the commit protocol, whatever the interleaving, the crashes and the calls in doubt. */
module SagaTheorems {
  import opened Wrappers
  import opened Catalog
  import opened Ledger
  import opened MarketplaceRules
  import opened Saga
  import opened SagaInvariant
  import opened SagaSteps

  // ----- The ledger only ever sees its own atomic operations

  /** The ledger operation an action performs, if it performs one. */
  ghost function DraftOp(s: State, a: DraftAction): Option<Op> {
    match a
    case DoCreateInsert(r, id) =>
      if r in s.creates && s.creates[r].pc.Checked? && id !in s.ledger.proposals then Some(Insert(id, s.creates[r].p)) else None
    case DoDeclineCommit(r, eventId, at) =>
      if r in s.declines && s.declines[r].checked && FreshEventId(s.ledger.outbox, eventId) && IsPending(s.ledger, s.declines[r].id)
      then Some(RejectOne(s.declines[r].id, s.declines[r].p, s.declines[r].owner, eventId, at)) else None
    case _ => None
  }

  ghost function AcceptOp(s: State, a: AcceptAction): Option<Op> {
    if a.DoAcceptCommit? && Committing(s, a.r, a.tid, a.rivals)
    then Some(AcceptOne(s.accepts[a.r].id, s.accepts[a.r].p, s.accepts[a.r].owner, a.tid, a.rivals, a.at)) else None
  }

  ghost function ConfirmOp(s: State, a: ConfirmAction): Option<Op> {
    match a
    case DoConfirmOwner(r) =>
      if ConfirmAt(s, r) && s.confirms[r].pc.OwnerTurn? && s.confirms[r].actor == s.confirms[r].seen.owner && !s.confirms[r].seen.ownerConfirmed
      then Some(OwnerConfirms(s.confirms[r].tid)) else None
    case DoConfirmRequester(r) =>
      if ConfirmAt(s, r) && s.confirms[r].pc.RequesterTurn? && s.confirms[r].actor == s.confirms[r].seen.requester && !s.confirms[r].seen.requesterConfirmed
      then Some(RequesterConfirms(s.confirms[r].tid)) else None
    case DoConfirmClaim(r, handed) =>
      if r in s.confirms && s.confirms[r].pc.Completing? && CanClaim(s.ledger, s.confirms[r].tid)
         && NextToComplete(s.confirms[r].seen, s.confirms[r].pc.targetDone, s.confirms[r].pc.offeredDone).None?
      then Some(Claim(s.confirms[r].tid)) else None
    case _ => None
  }

  ghost function OpOf(s: State, a: Action): Option<Op> {
    match a
    case OnListing(x) => None
    case OnServer(x) => None
    case OnDraft(x) => DraftOp(s, x)
    case OnAccept(x) => AcceptOp(s, x)
    case OnConfirm(x) => ConfirmOp(s, x)
  }

  ghost predicate Performs(l: Ledger, op: Option<Op>, m: Ledger) {
    if op.Some? then Enabled(l, op.value) && m == ApplyOp(l, op.value) else m == l
  }

  lemma DraftIsLedgerOp(s: State, a: DraftAction)
    requires Inv(s)
    ensures Performs(s.ledger, DraftOp(s, a), ApplyDraft(s, a).ledger)
  {
    hide Inv;
    if a.DoDeclineCommit? && a.r in s.declines {
      DeclineFacts(s, a.r);
    }
  }

  lemma AcceptIsLedgerOp(s: State, a: AcceptAction)
    requires Inv(s)
    ensures Performs(s.ledger, AcceptOp(s, a), ApplyAccept(s, a).ledger)
  {
    hide Inv;
    if a.DoAcceptCommit? && a.r in s.accepts {
      AcceptFacts(s, a.r);
    }
  }

  lemma ConfirmIsLedgerOp(s: State, a: ConfirmAction)
    ensures Performs(s.ledger, ConfirmOp(s, a), ApplyConfirm(s, a).ledger)
  {
  }

  /** Every action of the protocol is one ledger operation, or none: the other services may rely on ledger runs alone. */
  lemma ActionIsLedgerOp(s: State, a: Action)
    requires Inv(s)
    ensures Performs(s.ledger, OpOf(s, a), Apply(s, a).ledger)
  {
    hide Inv;
    match a
    case OnListing(x) => hide ApplyServer, ApplyDraft, ApplyAccept, ApplyConfirm, DraftOp, AcceptOp, ConfirmOp;
    case OnServer(x) => hide ApplyListing, ApplyDraft, ApplyAccept, ApplyConfirm, DraftOp, AcceptOp, ConfirmOp;
    case OnDraft(x) => hide Performs, ApplyListing, ApplyServer, ApplyDraft, ApplyAccept, ApplyConfirm, DraftOp, AcceptOp, ConfirmOp;
      DraftIsLedgerOp(s, x);
    case OnAccept(x) => hide Performs, ApplyListing, ApplyServer, ApplyDraft, ApplyAccept, ApplyConfirm, DraftOp, AcceptOp, ConfirmOp;
      AcceptIsLedgerOp(s, x);
    case OnConfirm(x) => hide Performs, ApplyListing, ApplyServer, ApplyDraft, ApplyAccept, ApplyConfirm, DraftOp, AcceptOp, ConfirmOp;
      ConfirmIsLedgerOp(s, x);
  }

  lemma StepGrows(s: State, a: Action)
    requires Inv(s)
    ensures Grows(s.ledger, Apply(s, a).ledger)
  {
    hide Inv, Apply, OpOf;
    ActionIsLedgerOp(s, a);
    var op := OpOf(s, a);
    if op.Some? {
      OpGrows(s.ledger, op.value);
    }
  }

  lemma {:induction false} RunGrows(acts: seq<Action>, i: nat)
    requires i <= |acts|
    ensures Grows(Exec(INIT, acts[..i]).ledger, Exec(INIT, acts).ledger)
  {
    if i == |acts| {
      assert acts[..i] == acts;
    } else {
      var last := |acts| - 1;
      var s := Exec(INIT, acts[..last]);
      assert Exec(INIT, acts) == Apply(s, acts[last]);
      hide Inv, Exec, Apply, Grows;
      RunGrows(acts[..last], i);
      assert acts[..last][..i] == acts[..i];
      RunKeepsInv(acts[..last]);
      StepGrows(s, acts[last]);
      GrowsTransitive(Exec(INIT, acts[..i]).ledger, s.ledger, Apply(s, acts[last]).ledger);
    }
  }

  // ----- No double allocation

  /**
    Each listing appears, as target or as offered item, in at most one transaction ever created: neither in the
    same state nor at any two moments of a run.
  */
  lemma NoDoubleAllocation(acts: seq<Action>, i: nat, j: nat, t: Id, u: Id, l: Id)
    requires i <= |acts| && j <= |acts|
    requires var ts := Exec(INIT, acts[..i]).ledger.transactions; t in ts && Involves(ts[t], l)
    requires var us := Exec(INIT, acts[..j]).ledger.transactions; u in us && Involves(us[u], l)
    ensures t == u
  {
    RunGrows(acts, i);
    RunGrows(acts, j);
    RunKeepsInv(acts);
    hide CallInv, AcceptInv, ConfirmInv, DraftInv, LedgerInv, Numbered;
    var s := Exec(INIT, acts);
    assert IsHeld(s.holder, l, ByTransaction(t)) && IsHeld(s.holder, l, ByTransaction(u));
  }

  // ----- Hold conservation

  /** Something still in flight, or committed, that accounts for a listing not being available. */
  datatype Claimant = AcceptClaim(request: nat) | CallClaim(call: nat) | TransactionClaim(tid: Id)

  /** The reply to this reserve is still awaited. */
  predicate Attended(calls: Calls, accepts: Accepts, c: nat) {
    c in calls && calls[c].caller in accepts && accepts[calls[c].caller].pc == Waiting(c)
  }

  /** An applied reserve whose reply is awaited, a flag set by an acceptance, a release under way, a transaction. */
  ghost predicate Claims(s: State, x: Claimant, l: Id) {
    match x
    case AcceptClaim(r) => r in s.accepts && Holds(s.accepts[r], l)
    case CallClaim(c) =>
      c in s.calls && s.calls[c].listing == l
      && ((s.calls[c].kind.ReserveCall? && s.calls[c].stage == Answered(true) && Attended(s.calls, s.accepts, c))
          || (s.calls[c].kind.ReleaseCall? && !s.calls[c].stage.Answered?))
    case TransactionClaim(t) => t in s.ledger.transactions && Involves(s.ledger.transactions[t], l)
  }

  /** Reserved, and whoever reserved it is gone without a release under way. */
  ghost predicate Leaked(s: State, l: Id) {
    LeakedIn(s.holder, s.calls, s.accepts, l)
  }

  ghost predicate LeakedIn(holder: Holders, calls: Calls, accepts: Accepts, l: Id) {
    l in holder &&
    match holder[l]
    case ByReserve(c) => !Attended(calls, accepts, c)
    case ByAccept(r) => r !in accepts
    case ByRelease(c) => c !in calls
    case _ => false
  }

  ghost predicate Unclaimed(s: State, l: Id) {
    forall x :: !Claims(s, x, l)
  }

  function ClaimOf(h: Holder): Claimant {
    match h
    case ByReserve(c) => CallClaim(c)
    case ByAccept(r) => AcceptClaim(r)
    case ByRelease(c) => CallClaim(c)
    case ByTransaction(t) => TransactionClaim(t)
    case Free => CallClaim(0)
  }

  lemma ClaimantHolds(s: State, x: Claimant, l: Id)
    requires Inv(s) && Claims(s, x, l)
    ensures l in s.rows && l in s.holder && !s.holder[l].Free? && ClaimOf(s.holder[l]) == x && !Leaked(s, l)
  {
    hide AcceptInv, ConfirmInv, DraftInv, LedgerInv, Numbered;
  }

  lemma HolderClaims(s: State, l: Id)
    requires Inv(s) && l in s.rows && !s.rows[l].availability.Available? && !Leaked(s, l)
    ensures l in s.holder && Claims(s, ClaimOf(s.holder[l]), l)
  {
    hide AcceptInv, ConfirmInv, DraftInv, LedgerInv, Numbered;
  }

  /**
    In every reachable state a listing has at most one claimant. It is Available exactly when nobody claims it and
    it has not leaked; a leaked listing is Reserved and unclaimed; only a transaction claims a Completed listing;
    and every listing of a transaction is Reserved or Completed.
  */
  lemma HoldConservation(acts: seq<Action>, l: Id)
    ensures var s := Exec(INIT, acts);
            && (forall x, y :: Claims(s, x, l) && Claims(s, y, l) ==> x == y)
            && (forall x :: Claims(s, x, l) ==> l in s.rows)
            && (l in s.rows ==>
                  && (s.rows[l].availability.Available? <==> Unclaimed(s, l) && !Leaked(s, l))
                  && (Leaked(s, l) ==> s.rows[l].availability.Reserved? && Unclaimed(s, l))
                  && (s.rows[l].availability.Completed? ==> exists t :: Claims(s, TransactionClaim(t), l)))
  {
    var s := Exec(INIT, acts);
    RunKeepsInv(acts);
    forall x | Claims(s, x, l)
      ensures l in s.rows && l in s.holder && ClaimOf(s.holder[l]) == x && !Leaked(s, l)
    {
      ClaimantHolds(s, x, l);
    }
    if l in s.rows {
      HolderFacts(s, l);
      if !s.rows[l].availability.Available? && !Leaked(s, l) {
        HolderClaims(s, l);
      }
      if s.rows[l].availability.Completed? {
        HolderClaims(s, l);
        assert Claims(s, TransactionClaim(s.holder[l].tid), l);
      }
    }
    hide Inv;
  }

  lemma HolderFacts(s: State, l: Id)
    requires Inv(s) && l in s.rows
    ensures l in s.holder && (s.rows[l].availability.Available? <==> s.holder[l].Free?)
    ensures Leaked(s, l) ==> s.rows[l].availability.Reserved?
    ensures s.rows[l].availability.Completed? ==> s.holder[l].ByTransaction?
    ensures forall x :: Claims(s, x, l) ==> !s.holder[l].Free?
  {
    forall x | Claims(s, x, l)
      ensures !s.holder[l].Free?
    {
      ClaimantHolds(s, x, l);
    }
    hide CallInv, AcceptInv, ConfirmInv, DraftInv, LedgerInv, Numbered;
  }

  // ----- Completed is final

  /** A release and a complete are never pending on the same listing, however long the server delays either. */
  lemma ReleaseNeverMeetsComplete(acts: seq<Action>, c: nat, d: nat)
    ensures var calls := Exec(INIT, acts).calls;
            c in calls && d in calls && calls[c].kind.ReleaseCall? && calls[d].kind.CompleteCall? && !calls[c].stage.Answered?
            ==> calls[c].listing != calls[d].listing
  {
    RunKeepsInv(acts);
    hide HoldInv, AcceptInv, ConfirmInv, DraftInv, LedgerInv, Numbered;
  }

  /** The two refusals behind the unconditional writes are dead code: no complete or release is ever answered 409 or 404. */
  lemma ConflictBranchesAreDead(acts: seq<Action>, c: nat)
    ensures var s := Exec(INIT, acts);
            c in s.calls && !s.calls[c].kind.ReserveCall? && s.calls[c].stage.Sent?
            ==> var d := Decide(s.calls[c].kind, s.rows, s.calls[c].listing); d.WriteNow? || d.AnswerOk?
  {
    RunKeepsInv(acts);
    var s := Exec(INIT, acts);
    if c in s.calls && !s.calls[c].kind.ReserveCall? && s.calls[c].stage.Sent? {
      hide HoldInv, CallInv, AcceptInv, ConfirmInv, DraftInv, LedgerInv, Numbered;
      ReadFindsHeld(s.calls, s.rows, s.holder, s.ledger.transactions, s.accepts, c);
    }
  }

  lemma StepKeepsCompleted(s: State, a: Action, l: Id)
    requires Inv(s) && IsCompleted(s.rows, l)
    ensures IsCompleted(Apply(s, a).rows, l)
  {
    hide Inv;
    match a
    case OnListing(x) => hide ApplyServer, ApplyDraft, ApplyAccept, ApplyConfirm;
    case OnServer(x) => hide ApplyListing, ApplyServer, ApplyDraft, ApplyAccept, ApplyConfirm;
      ServerKeepsCompleted(s, x, l);
    case OnDraft(x) => hide IsCompleted, ApplyListing, ApplyServer, ApplyDraft, ApplyAccept, ApplyConfirm;
      DraftKeepsRows(s, x);
    case OnAccept(x) => hide IsCompleted, ApplyListing, ApplyServer, ApplyDraft, ApplyAccept, ApplyConfirm;
      AcceptKeepsRows(s, x);
    case OnConfirm(x) => hide IsCompleted, ApplyListing, ApplyServer, ApplyDraft, ApplyAccept, ApplyConfirm;
      ConfirmKeepsRows(s, x);
  }

  lemma ServerKeepsCompleted(s: State, a: ServerAction, l: Id)
    requires Inv(s) && IsCompleted(s.rows, l)
    ensures IsCompleted(ApplyServer(s, a).rows, l)
  {
    hide HoldInv, CallInv, AcceptInv, ConfirmInv, DraftInv, LedgerInv, Numbered;
    if a.DoServerWrite? && a.c in s.calls && s.calls[a.c].stage.SawReserved? && s.calls[a.c].kind.ReleaseCall? {
      ReadFindsHeld(s.calls, s.rows, s.holder, s.ledger.transactions, s.accepts, a.c);
    }
  }

  lemma DraftKeepsRows(s: State, a: DraftAction)
    ensures ApplyDraft(s, a).rows == s.rows
  {
    hide Put, ReadTargetForCreate, ReadOfferedForCreate, CheckOwner, InsertProposal, RejectTx, FreshEventId;
  }

  lemma AcceptKeepsRows(s: State, a: AcceptAction)
    ensures ApplyAccept(s, a).rows == s.rows
  {
    hide Put, ReadTargetForAccept, ReadOfferedForAccept, NextToReserve, WithHold, HandOver, AcceptTx, Enumerates;
  }

  lemma ConfirmKeepsRows(s: State, a: ConfirmAction)
    ensures ApplyConfirm(s, a).rows == s.rows
  {
  }

  /** Once Completed, always Completed, although `complete` and `release` write without looking. */
  lemma {:induction false} CompletedIsFinal(acts: seq<Action>, i: nat, l: Id)
    requires i <= |acts| && IsCompleted(Exec(INIT, acts[..i]).rows, l)
    ensures IsCompleted(Exec(INIT, acts).rows, l)
  {
    if i == |acts| {
      assert acts[..i] == acts;
    } else {
      var last := |acts| - 1;
      var s := Exec(INIT, acts[..last]);
      assert Exec(INIT, acts) == Apply(s, acts[last]);
      hide Inv, Exec, Apply, IsCompleted;
      assert acts[..last][..i] == acts[..i];
      CompletedIsFinal(acts[..last], i, l);
      RunKeepsInv(acts[..last]);
      StepKeepsCompleted(s, acts[last], l);
    }
  }

  // ----- Completion safety

  /**
    A completed transaction has both confirmations, from two different people, and all its listings Completed;
    a listing is Completed only in a transaction with both confirmations set.
  */
  lemma CompletionSafety(acts: seq<Action>)
    ensures var s := Exec(INIT, acts);
            && (forall t :: t in s.ledger.transactions && s.ledger.transactions[t].status.Completed? ==>
                  var x := s.ledger.transactions[t];
                  && BothConfirmed(x) && x.owner != x.requester
                  && forall l :: Involves(x, l) ==> IsCompleted(s.rows, l))
            && (forall l :: IsCompleted(s.rows, l) ==>
                  exists t :: t in s.ledger.transactions && Involves(s.ledger.transactions[t], l) && BothConfirmed(s.ledger.transactions[t]))
  {
    RunKeepsInv(acts);
    hide CallInv, AcceptInv, ConfirmInv, DraftInv, Numbered, Consistent;
    var s := Exec(INIT, acts);
    forall l | IsCompleted(s.rows, l)
      ensures exists t :: t in s.ledger.transactions && Involves(s.ledger.transactions[t], l) && BothConfirmed(s.ledger.transactions[t])
    {
      assert HeldByConfirmed(s.holder, s.ledger.transactions, l);
    }
  }

  /** A confirmation flag rises only in a step of a request made by that very party. */
  lemma OnlyThePartyConfirms(s: State, a: Action, t: Id)
    requires Inv(s) && t in s.ledger.transactions
    ensures t in Apply(s, a).ledger.transactions
    ensures var before, after := s.ledger.transactions[t], Apply(s, a).ledger.transactions[t];
            && (after.ownerConfirmed && !before.ownerConfirmed ==>
                  exists r :: r in s.confirms && s.confirms[r].tid == t && s.confirms[r].actor == before.owner && a == OnConfirm(DoConfirmOwner(r)))
            && (after.requesterConfirmed && !before.requesterConfirmed ==>
                  exists r :: r in s.confirms && s.confirms[r].tid == t && s.confirms[r].actor == before.requester && a == OnConfirm(DoConfirmRequester(r)))
  {
    hide Inv, Apply;
    if a.OnConfirm? && (a.confirm.DoConfirmOwner? || a.confirm.DoConfirmRequester?) && a.confirm.r in s.confirms {
      ConfirmFacts(s, a.confirm.r);
    }
    ActionIsLedgerOp(s, a);
  }

  /** `transaction.completed` is handed to the publisher at most once per transaction, and only after its completion. */
  lemma CompletionAnnouncedAtMostOnce(acts: seq<Action>)
    ensures var s := Exec(INIT, acts);
            && (forall i, j :: 0 <= i < j < |s.announced| ==> s.announced[i] != s.announced[j])
            && (forall i :: 0 <= i < |s.announced| ==>
                  s.announced[i] in s.ledger.transactions && s.ledger.transactions[s.announced[i]].status.Completed?)
  {
    RunKeepsInv(acts);
    hide HoldInv, CallInv, AcceptInv, ConfirmInv, DraftInv, Numbered, Consistent;
  }

  // ----- Proposal ledger

  /** Pending, accepted with exactly one agreeing transaction, or rejected with exactly one agreeing outbox row. */
  lemma ProposalLedger(acts: seq<Action>, p: Id)
    requires p in Exec(INIT, acts).ledger.proposals
    ensures AccountedOnce(Exec(INIT, acts).ledger, p)
  {
    RunKeepsInv(acts);
    var s := Exec(INIT, acts);
    hide AccountedOnce, HoldInv, CallInv, AcceptInv, ConfirmInv, DraftInv, Numbered, LedgerInv, Consistent;
    LedgerOf(s.ledger, s.rows, s.announced);
    ConsistentAccounts(s.ledger, p);
  }

  /** Every rejection in the outbox names the owner of the listing the proposal was about. */
  lemma RejectionsNameTheOwner(acts: seq<Action>, i: nat)
    requires i < |Exec(INIT, acts).ledger.outbox|
    ensures var s := Exec(INIT, acts);
            var r := s.ledger.outbox[i].payload;
            r.target in s.rows && r.owner == s.rows[r.target].owner && r.owner != r.requester
  {
    RunKeepsInv(acts);
    var s := Exec(INIT, acts);
    hide Exec, HoldInv, CallInv, AcceptInv, ConfirmInv, DraftInv, Numbered;
    assert RowAgrees(s.ledger.proposals, s.ledger.outbox[i].payload);
    assert ProposalSound(s.ledger.proposals[s.ledger.outbox[i].payload.proposal], s.rows);
    hide LedgerInv;
  }

  lemma LedgerOf(l: Ledger, rows: Table, announced: seq<Id>)
    requires LedgerInv(l, rows, announced)
    ensures Consistent(l)
  {
    hide Consistent;
  }
}
