/**
  `create` checks a proposal's target and inserts the proposal later. What this race can do, exactly when it does
  it, and why it does no harm.
*/
module SagaRaces {
  import opened Wrappers
  import opened Catalog
  import opened Ledger
  import opened MarketplaceRules
  import opened Saga
  import opened SagaInvariant
  import opened SagaSteps
  import opened SagaTheorems
  import opened SagaFaults

  ghost predicate TargetTaken(l: Ledger, target: Id) {
    exists q :: q in l.proposals && l.proposals[q].status.Accepted? && l.proposals[q].target == target
  }

  /** No proposal is pending on the target of an accepted one. */
  ghost predicate NoneLate(l: Ledger) {
    forall p :: p in l.proposals && l.proposals[p].status.Pending? ==> !TargetTaken(l, l.proposals[p].target)
  }

  lemma TakenBy(l: Ledger, q: Id, target: Id)
    requires q in l.proposals && l.proposals[q].status.Accepted? && l.proposals[q].target == target
    ensures TargetTaken(l, target)
  {
  }

  lemma NobodyAccepted(l: Ledger, m: Ledger)
    requires NoneLate(l)
    requires forall p :: p in m.proposals && m.proposals[p].status.Pending? ==> p in l.proposals && l.proposals[p] == m.proposals[p]
    requires forall p :: p in m.proposals && m.proposals[p].status.Accepted? ==> p in l.proposals && l.proposals[p] == m.proposals[p]
    ensures NoneLate(m)
  {
  }

  lemma InsertIsLateExactly(l: Ledger, id: Id, p: Proposal)
    requires NoneLate(l) && id !in l.proposals
    ensures NoneLate(InsertProposal(l, id, p)) <==> !TargetTaken(l, p.target)
  {
    var m := InsertProposal(l, id, p);
    forall target
      ensures TargetTaken(m, target) <==> TargetTaken(l, target)
    {
      if TargetTaken(l, target) {
        var q :| q in l.proposals && l.proposals[q].status.Accepted? && l.proposals[q].target == target;
        TakenBy(m, q, target);
      }
      if TargetTaken(m, target) {
        var q :| q in m.proposals && m.proposals[q].status.Accepted? && m.proposals[q].target == target;
        TakenBy(l, q, target);
      }
    }
    assert m.proposals[id].status.Pending? && m.proposals[id].target == p.target;
  }

  lemma AcceptLeavesNoneLate(l: Ledger, op: Op)
    requires NoneLate(l) && op.AcceptOne? && Enabled(l, op)
    ensures NoneLate(ApplyOp(l, op))
  {
    var m := ApplyOp(l, op);
    forall target | target != op.p.target && TargetTaken(m, target)
      ensures TargetTaken(l, target)
    {
      var q :| q in m.proposals && m.proposals[q].status.Accepted? && m.proposals[q].target == target;
      TakenBy(l, q, target);
    }
    forall p | p in m.proposals && m.proposals[p].status.Pending?
      ensures m.proposals[p] == l.proposals[p] && m.proposals[p].target != op.p.target
    {
    }
  }

  /**
    "No pending proposal on an accepted target" is lost in exactly one way: the insertion of a proposal whose target
    has been taken since it was checked. Acceptances, rejections and completions never lose it.
  */
  lemma LateExactlyByInsertion(l: Ledger, op: Op)
    requires NoneLate(l) && Enabled(l, op)
    ensures NoneLate(ApplyOp(l, op)) <==> !(op.Insert? && TargetTaken(l, op.p.target))
  {
    match op
    case Insert(id, p) => InsertIsLateExactly(l, id, p);
    case AcceptOne(_, _, _, _, _, _) => AcceptLeavesNoneLate(l, op);
    case _ =>
      hide NoneLate;
      NobodyAccepted(l, ApplyOp(l, op));
  }

  /** The step stores a proposal that was checked before its target was accepted. */
  ghost predicate InsertsLate(s: State, a: Action) {
    && a.OnDraft? && a.draft.DoCreateInsert?
    && a.draft.r in s.creates && s.creates[a.draft.r].pc.Checked? && a.draft.id !in s.ledger.proposals
    && TargetTaken(s.ledger, s.creates[a.draft.r].p.target)
  }

  /** The same for the protocol: the one step that loses it is the insertion of `create`, too late. */
  lemma LateStepExactly(s: State, a: Action)
    requires Inv(s) && NoneLate(s.ledger)
    ensures NoneLate(Apply(s, a).ledger) <==> !InsertsLate(s, a)
  {
    ActionIsLedgerOp(s, a);
    OnlyCreateInserts(s, a);
    var op := OpOf(s, a);
    if op.Some? {
      LateExactlyByInsertion(s.ledger, op.value);
    }
    hide Inv, Apply, OpOf, ApplyOp, Enabled, NoneLate, TargetTaken;
  }

  /** The ledger operations that insert are the insertions of `create`. */
  lemma OnlyCreateInserts(s: State, a: Action)
    ensures InsertsLate(s, a) <==> OpOf(s, a).Some? && OpOf(s, a).value.Insert? && TargetTaken(s.ledger, OpOf(s, a).value.p.target)
  {
    hide TargetTaken, FreshEventId, Committing, CanClaim, NextToComplete;
  }

  ghost predicate NeverLate(acts: seq<Action>) {
    forall k :: 0 <= k <= |acts| ==> NoneLate(Exec(INIT, acts[..k]).ledger)
  }

  ghost predicate NeverInsertsLate(acts: seq<Action>) {
    forall k :: 0 <= k < |acts| ==> !InsertsLate(Exec(INIT, acts[..k]), acts[k])
  }

  lemma NeverLateExtends(acts: seq<Action>)
    requires acts != []
    ensures NeverLate(acts) <==> NeverLate(acts[..|acts| - 1]) && NoneLate(Exec(INIT, acts).ledger)
  {
    hide Exec, NoneLate;
    var init := acts[..|acts| - 1];
    assert forall k :: 0 <= k <= |init| ==> init[..k] == acts[..k];
    assert acts[..|acts|] == acts;
  }

  lemma NeverInsertsExtends(acts: seq<Action>)
    requires acts != []
    ensures NeverInsertsLate(acts) <==> NeverInsertsLate(acts[..|acts| - 1]) && !InsertsLate(Exec(INIT, acts[..|acts| - 1]), acts[|acts| - 1])
  {
    hide Exec, InsertsLate;
    var init := acts[..|acts| - 1];
    assert forall k :: 0 <= k < |init| ==> init[..k] == acts[..k] && init[k] == acts[k];
  }

  /** A run never has a late proposal exactly when none of its steps inserts one. */
  lemma {:induction false} LateRunExactly(acts: seq<Action>)
    ensures NeverLate(acts) <==> NeverInsertsLate(acts)
  {
    if acts == [] {
      assert NoneLate(Exec(INIT, []).ledger);
    } else {
      var init, a := acts[..|acts| - 1], acts[|acts| - 1];
      var s := Exec(INIT, init);
      assert Exec(INIT, acts) == Apply(s, a);
      hide Exec, Apply, Inv, NoneLate, InsertsLate;
      LateRunExactly(init);
      NeverLateExtends(acts);
      NeverInsertsExtends(acts);
      RunKeepsInv(init);
      if NeverLate(init) {
        assert init[..|init|] == init;
        LateStepExactly(s, a);
      }
    }
  }

  /** A late proposal does no harm: once a transaction involves its target, it will never be accepted. */
  lemma LateProposalIsNeverAccepted(acts: seq<Action>, i: nat, t: Id, p: Id)
    requires i <= |acts|
    requires var l := Exec(INIT, acts[..i]).ledger;
             t in l.transactions && p in l.proposals && Involves(l.transactions[t], l.proposals[p].target) && !l.proposals[p].status.Accepted?
    ensures p in Exec(INIT, acts).ledger.proposals && !Exec(INIT, acts).ledger.proposals[p].status.Accepted?
  {
    RecordsStay(acts, i, t, p);
    hide Exec, Grows;
    if Exec(INIT, acts).ledger.proposals[p].status.Accepted? {
      var u := TransactionOf(acts, p);
      assert acts[..|acts|] == acts;
      NoDoubleAllocation(acts, i, |acts|, t, u, Exec(INIT, acts[..i]).ledger.proposals[p].target);
      TransactionMeansAccepted(acts[..i], t);
    }
  }

  lemma RecordsStay(acts: seq<Action>, i: nat, t: Id, p: Id)
    requires i <= |acts| && t in Exec(INIT, acts[..i]).ledger.transactions && p in Exec(INIT, acts[..i]).ledger.proposals
    ensures var l, m := Exec(INIT, acts[..i]).ledger, Exec(INIT, acts).ledger;
            && t in m.transactions && m.transactions[t].proposal == l.transactions[t].proposal
            && p in m.proposals && m.proposals[p].target == l.proposals[p].target
  {
    hide Exec;
    RunGrows(acts, i);
  }

  lemma TransactionOf(acts: seq<Action>, p: Id) returns (u: Id)
    requires var l := Exec(INIT, acts).ledger; p in l.proposals && l.proposals[p].status.Accepted?
    ensures var l := Exec(INIT, acts).ledger;
            u in l.transactions && l.transactions[u].proposal == p && l.transactions[u].target == l.proposals[p].target
  {
    ProposalLedger(acts, p);
    hide Exec;
    var l := Exec(INIT, acts).ledger;
    u :| OnlyTransactionOf(l.transactions, p, u) && l.transactions[u].target == l.proposals[p].target;
  }

  lemma TransactionMeansAccepted(acts: seq<Action>, t: Id)
    requires t in Exec(INIT, acts).ledger.transactions
    ensures var l := Exec(INIT, acts).ledger;
            var p := l.transactions[t].proposal;
            p in l.proposals && l.proposals[p].status.Accepted?
  {
    RunKeepsInv(acts);
    var s := Exec(INIT, acts);
    hide Exec, HoldInv, CallInv, AcceptInv, ConfirmInv, DraftInv, Numbered, LedgerInv;
    LedgerOf(s.ledger, s.rows, s.announced);
  }

  // ----- A late proposal

  const LATE := Proposal(1, 30, DonationRequest, None, ProposalStatus.Pending)

  /** The second request for a donation passes its check, the first one is accepted, and then the second is stored. */
  lemma LateProposalHappens() returns (acts: seq<Action>)
    ensures !NoneLate(Exec(INIT, acts).ledger)
  {
    hide Exec, CreateStart, CreateReadTarget, CreateReadOffered, CreateInsert, AcceptLoad, AcceptReadTarget, AcceptReadOffered, AcceptIssue,
         AcceptSeen, AcceptRefused, AcceptInDoubt, AcceptCommit, AcceptAbort, AcceptRelease, AcceptCrash, ServerReserve, ServerRead,
         ServerWrite, ServerLost, ApplyListing, ApplyConfirm, NoneLate;
    var offer := OfferedRun();
    var a, b := OnDraft(DoCreateStart(LATE)), OnDraft(DoCreateReadTarget(1));
    var c, d, e := OnAccept(DoAcceptLoad(5, 10)), OnAccept(DoAcceptReadTarget(2)), OnAccept(DoAcceptReadOffered(2));
    var f, g, h := OnAccept(DoAcceptIssue(2)), OnServer(DoServerReserve(3)), OnAccept(DoAcceptSeen(2));
    var i, j := OnAccept(DoAcceptCommit(2, 7, [], "")), OnDraft(DoCreateInsert(1, 6));
    ExecStep(offer, a);
    ExecStep(offer + [a], b);
    var r1 := offer + [a] + [b];
    ExecStep(r1, c);
    ExecStep(r1 + [c], d);
    ExecStep(r1 + [c] + [d], e);
    var r2 := r1 + [c] + [d] + [e];
    ExecStep(r2, f);
    ExecStep(r2 + [f], g);
    ExecStep(r2 + [f] + [g], h);
    var r3 := r2 + [f] + [g] + [h];
    ExecStep(r3, i);
    ExecStep(r3 + [i], j);
    acts := r3 + [i] + [j];
    CheckedSteps(Exec(INIT, offer));
    GuardSteps(Exec(INIT, r1));
    HoldSteps(Exec(INIT, r2));
    CommitSteps(Exec(INIT, r3));
  }

  ghost predicate LateChecked(s: State) {
    && s.ledger == Ledger(map[5 := OPEN_REQUEST], map[], []) && s.calls == map[]
    && 1 in s.creates && s.creates[1] == Create(LATE, Checked)
  }

  lemma CheckedSteps(s: State)
    requires s.rows == map[1 := ON_OFFER] && s.ledger == Ledger(map[5 := OPEN_REQUEST], map[], []) && s.calls == map[] && s.accepts == map[] && s.next == 1
    ensures var t := CreateReadTarget(CreateStart(s, LATE), 1); LateChecked(t) && t.rows == s.rows && t.accepts == map[] && t.next == 2
  {
  }

  lemma GuardSteps(s: State)
    requires LateChecked(s) && s.rows == map[1 := ON_OFFER] && s.accepts == map[] && s.next == 2
    ensures var t := AcceptReadOffered(AcceptReadTarget(AcceptLoad(s, 5, 10), 2), 2);
            LateChecked(t) && t.rows == s.rows && t.accepts == map[2 := Accept(5, OPEN_REQUEST, 10, false, false, Reserving)] && t.next == 3
  {
  }

  lemma HoldSteps(s: State)
    requires LateChecked(s) && s.rows == map[1 := ON_OFFER] && s.accepts == map[2 := Accept(5, OPEN_REQUEST, 10, false, false, Reserving)] && s.next == 3
    ensures var t := AcceptSeen(ServerReserve(AcceptIssue(s, 2), 3), 2);
            LateChecked(t) && t.accepts == map[2 := Accept(5, OPEN_REQUEST, 10, true, false, Reserving)]
  {
  }

  lemma CommitMoves(s: State)
    requires LateChecked(s) && s.accepts == map[2 := Accept(5, OPEN_REQUEST, 10, true, false, Reserving)]
    ensures var t := AcceptCommit(s, 2, 7, [], "");
            && t.creates == s.creates && t.ledger.proposals.Keys == {5}
            && t.ledger.proposals[5] == OPEN_REQUEST.(status := ProposalStatus.Accepted)
  {
    assert RivalIds(s.ledger.proposals, 5, 1) == {};
  }

  lemma CommitSteps(s: State)
    requires LateChecked(s) && s.accepts == map[2 := Accept(5, OPEN_REQUEST, 10, true, false, Reserving)]
    ensures !NoneLate(CreateInsert(AcceptCommit(s, 2, 7, [], ""), 1, 6).ledger)
  {
    CommitMoves(s);
    hide AcceptCommit;
    var t := CreateInsert(AcceptCommit(s, 2, 7, [], ""), 1, 6);
    assert t.ledger.proposals[5].status.Accepted? && t.ledger.proposals[6].status.Pending?;
    TakenBy(t.ledger, 5, 1);
  }
}
