/** An interrupted completion can always be finished. */
module SagaRecovery {
  import opened Wrappers
  import opened Catalog
  import opened Ledger
  import opened MarketplaceRules
  import opened Saga
  import opened SagaInvariant
  import opened SagaSteps
  import opened SagaTheorems

  /** One remote completion, free of faults: issue, server read, server write, reply. */
  function CompleteScript(r: nat, c: nat): seq<Action> {
    [OnConfirm(DoConfirmIssue(r)), OnServer(DoServerRead(c)), OnServer(DoServerWrite(c)), OnConfirm(DoConfirmSeen(r))]
  }

  /** The request reads the transaction, finds nothing left to confirm, and reads it again. */
  function LoadScript(r: nat, tid: Id, actor: Id): seq<Action> {
    [OnConfirm(DoConfirmLoad(tid, actor)), OnConfirm(DoConfirmOwner(r)), OnConfirm(DoConfirmRequester(r)), OnConfirm(DoConfirmReread(r))]
  }

  /** One confirm request, numbered `r`, that meets no fault. */
  function ConfirmScript(r: nat, tid: Id, actor: Id): seq<Action> {
    LoadScript(r, tid, actor) + CompleteScript(r, r + 1) + CompleteScript(r, r + 2) + [OnConfirm(DoConfirmClaim(r, true))]
  }

  lemma {:induction false} ExecAppend(s: State, xs: seq<Action>, ys: seq<Action>)
    ensures Exec(s, xs + ys) == Exec(Exec(s, xs), ys)
  {
    hide Apply;
    if ys == [] {
      assert xs + ys == xs;
    } else {
      var last := |ys| - 1;
      ExecAppend(s, xs, ys[..last]);
      assert (xs + ys)[..|xs + ys| - 1] == xs + ys[..last];
    }
  }

  lemma ExecOne(s: State, a: Action)
    ensures Exec(s, [a]) == Apply(s, a)
  {
    hide Apply;
    assert [a][..0] == [];
  }

  lemma ExecFour(s: State, a: Action, b: Action, c: Action, d: Action)
    ensures Exec(s, [a, b, c, d]) == Apply(Apply(Apply(Apply(s, a), b), c), d)
  {
    hide Apply;
    ExecOne(s, a);
    assert [a, b][..1] == [a];
    assert Exec(s, [a, b]) == Apply(Exec(s, [a]), b);
    assert [a, b, c][..2] == [a, b];
    assert Exec(s, [a, b, c]) == Apply(Exec(s, [a, b]), c);
    assert [a, b, c, d][..3] == [a, b, c];
  }

  lemma {:induction false} ScriptKeepsInv(s: State, acts: seq<Action>)
    requires Inv(s)
    ensures Inv(Exec(s, acts))
  {
    hide Inv, Apply;
    if acts != [] {
      var last := |acts| - 1;
      ScriptKeepsInv(s, acts[..last]);
      StepKeepsInv(Exec(s, acts[..last]), acts[last]);
    }
  }

  /** `t` is `s` with request `r` at program point `q`, and completions only added. */
  ghost predicate Advanced(s: State, t: State, r: nat, q: Confirm) {
    && Inv(t) && t.ledger == s.ledger && r in t.confirms && t.confirms[r] == q
    && forall l :: IsCompleted(s.rows, l) ==> IsCompleted(t.rows, l)
  }

  lemma LoadScriptSteps(s: State, tid: Id, actor: Id)
    ensures Exec(s, LoadScript(s.next, tid, actor))
            == ConfirmReread(ConfirmRequester(ConfirmOwner(ConfirmLoad(s, tid, actor), s.next), s.next), s.next)
  {
    hide Exec, ConfirmLoad, ConfirmOwner, ConfirmRequester, ConfirmReread, ConfirmIssue, ConfirmSeen, ConfirmClaim,
         ApplyListing, ApplyServer, ApplyDraft, ApplyAccept;
    ExecFour(s, OnConfirm(DoConfirmLoad(tid, actor)), OnConfirm(DoConfirmOwner(s.next)),
             OnConfirm(DoConfirmRequester(s.next)), OnConfirm(DoConfirmReread(s.next)));
  }

  predicate ConfirmStands(s: State, t: State, r: nat, q: Confirm) {
    t.next == s.next + 1 && t.ledger == s.ledger && t.rows == s.rows && r in t.confirms && t.confirms[r] == q
  }

  /** Both flags are up already, so the request writes nothing on its way to the completions. */
  lemma LoadSteps(s: State, tid: Id, actor: Id)
    requires CanClaim(s.ledger, tid)
    requires actor == s.ledger.transactions[tid].owner || actor == s.ledger.transactions[tid].requester
    ensures ConfirmStands(s, ConfirmOwner(ConfirmLoad(s, tid, actor), s.next), s.next, Confirm(tid, actor, s.ledger.transactions[tid], RequesterTurn))
  {
    assert ConfirmStands(s, ConfirmLoad(s, tid, actor), s.next, Confirm(tid, actor, s.ledger.transactions[tid], OwnerTurn));
    hide ConfirmLoad;
  }

  lemma RereadSteps(s: State, t: State, q: Confirm)
    requires ConfirmStands(s, t, s.next, q) && q.pc.RequesterTurn? && CanClaim(s.ledger, q.tid) && q.seen == s.ledger.transactions[q.tid]
    ensures ConfirmStands(s, ConfirmReread(ConfirmRequester(t, s.next), s.next), s.next, q.(pc := Completing(false, false)))
  {
    assert ConfirmStands(s, ConfirmRequester(t, s.next), s.next, q.(pc := Rereading));
    hide ConfirmRequester;
  }

  lemma LoadPhase(s: State, tid: Id, actor: Id)
    requires Inv(s) && CanClaim(s.ledger, tid)
    requires actor == s.ledger.transactions[tid].owner || actor == s.ledger.transactions[tid].requester
    ensures var t := Exec(s, LoadScript(s.next, tid, actor));
            t.next == s.next + 1 && Advanced(s, t, s.next, Confirm(tid, actor, s.ledger.transactions[tid], Completing(false, false)))
  {
    hide Inv, Exec, ConfirmLoad, ConfirmOwner, ConfirmRequester, ConfirmReread;
    ScriptKeepsInv(s, LoadScript(s.next, tid, actor));
    LoadScriptSteps(s, tid, actor);
    LoadSteps(s, tid, actor);
    RereadSteps(s, ConfirmOwner(ConfirmLoad(s, tid, actor), s.next), Confirm(tid, actor, s.ledger.transactions[tid], RequesterTurn));
  }

  lemma CompleteScriptSteps(s: State, r: nat, c: nat)
    ensures Exec(s, CompleteScript(r, c)) == ConfirmSeen(ServerWrite(ServerRead(ConfirmIssue(s, r), c), c), r)
  {
    hide Exec, ConfirmLoad, ConfirmOwner, ConfirmRequester, ConfirmReread, ConfirmIssue, ConfirmSeen, ConfirmClaim,
         ServerReserve, ServerRead, ServerWrite, ServerLost, ApplyListing, ApplyDraft, ApplyAccept;
    ExecFour(s, OnConfirm(DoConfirmIssue(r)), OnServer(DoServerRead(c)), OnServer(DoServerWrite(c)), OnConfirm(DoConfirmSeen(r)));
  }

  lemma IssueSteps(s: State, r: nat, l: Id)
    requires r in s.confirms && s.confirms[r].pc.Completing?
    requires NextToComplete(s.confirms[r].seen, s.confirms[r].pc.targetDone, s.confirms[r].pc.offeredDone) == Some(l)
    requires l in s.rows && !s.rows[l].availability.Available?
    ensures var q := s.confirms[r];
            var t := ServerRead(ConfirmIssue(s, r), s.next);
            && t.next == s.next + 1 && t.ledger == s.ledger && t.rows == s.rows
            && r in t.confirms && t.confirms[r] == q.(pc := WaitingComplete(q.pc.targetDone, s.next))
            && s.next in t.calls && t.calls[s.next].kind.CompleteCall? && t.calls[s.next].listing == l
            && t.calls[s.next].stage == (if IsCompleted(s.rows, l) then Answered(true) else SawReserved)
  {
  }

  lemma WriteSteps(s: State, r: nat, c: nat)
    requires r in s.confirms && s.confirms[r].pc.WaitingComplete? && s.confirms[r].pc.call == c
    requires c in s.calls && s.calls[c].kind.CompleteCall? && s.calls[c].listing in s.rows
    requires s.calls[c].stage == (if IsCompleted(s.rows, s.calls[c].listing) then Answered(true) else SawReserved)
    ensures var q := s.confirms[r];
            var t := ConfirmSeen(ServerWrite(s, c), r);
            && t.next == s.next && t.ledger == s.ledger
            && r in t.confirms && t.confirms[r] == q.(pc := Completing(true, q.pc.targetDone))
            && IsCompleted(t.rows, s.calls[c].listing)
            && forall m :: IsCompleted(s.rows, m) ==> IsCompleted(t.rows, m)
  {
  }

  /** One remote completion ends with its listing Completed, whether or not it was already. */
  lemma CompletePhase(s: State, r: nat)
    requires Inv(s) && r in s.confirms && s.confirms[r].pc.Completing?
    ensures var q := s.confirms[r];
            var id := NextToComplete(q.seen, q.pc.targetDone, q.pc.offeredDone);
            var t := Exec(s, CompleteScript(r, s.next));
            if id.None? then t == s
            else t.next == s.next + 1 && Advanced(s, t, r, q.(pc := Completing(true, q.pc.targetDone))) && IsCompleted(t.rows, id.value)
  {
    var q := s.confirms[r];
    var id := NextToComplete(q.seen, q.pc.targetDone, q.pc.offeredDone);
    ScriptKeepsInv(s, CompleteScript(r, s.next));
    CompleteScriptSteps(s, r, s.next);
    if id.Some? {
      IssuedFindsHeld(s, r);
      IssueSteps(s, r, id.value);
      hide Inv, Exec, ConfirmIssue, ServerRead, ServerWrite, ConfirmSeen;
      WriteSteps(ServerRead(ConfirmIssue(s, r), s.next), r, s.next);
    } else {
      NextIsUnused(s);
      hide Inv, Exec;
    }
  }

  lemma IssuedFindsHeld(s: State, r: nat)
    requires Inv(s) && r in s.confirms && s.confirms[r].pc.Completing?
    requires NextToComplete(s.confirms[r].seen, s.confirms[r].pc.targetDone, s.confirms[r].pc.offeredDone).Some?
    ensures var l := NextToComplete(s.confirms[r].seen, s.confirms[r].pc.targetDone, s.confirms[r].pc.offeredDone).value;
            l in s.rows && !s.rows[l].availability.Available?
  {
    var t := ConfirmIssue(s, r);
    StepConfirmIssue(s, r);
    hide HoldInv, CallInv, AcceptInv, ConfirmInv, DraftInv, LedgerInv, Numbered;
    ReadFindsHeld(t.calls, t.rows, t.holder, t.ledger.transactions, t.accepts, s.next);
  }

  /**
    From every reachable state with a transaction in progress that both parties have confirmed, whatever subset of
    its listings is already Completed and whatever crashed on the way there, one fault-free `confirm` by either
    party completes every listing and the transaction itself.
  */
  lemma CrashRecovery(acts: seq<Action>, tid: Id, actor: Id)
    requires CanClaim(Exec(INIT, acts).ledger, tid)
    requires var t := Exec(INIT, acts).ledger.transactions[tid]; actor == t.owner || actor == t.requester
    ensures var s := Exec(INIT, acts);
            var t := Exec(s, ConfirmScript(s.next, tid, actor));
            && tid in t.ledger.transactions && t.ledger.transactions[tid].status.Completed?
            && (forall l :: Involves(t.ledger.transactions[tid], l) ==> IsCompleted(t.rows, l))
  {
    var s := Exec(INIT, acts);
    RunKeepsInv(acts);
    hide Inv, Exec, ConfirmClaim, LoadScript, CompleteScript;
    var r := s.next;
    var load, first, second, claim := LoadScript(r, tid, actor), CompleteScript(r, r + 1), CompleteScript(r, r + 2), OnConfirm(DoConfirmClaim(r, true));
    LoadPhase(s, tid, actor);
    var s1 := Exec(s, load);
    CompletePhase(s1, r);
    var s2 := Exec(s1, first);
    CompletePhase(s2, r);
    var s3 := Exec(s2, second);
    ExecOne(s3, claim);
    ExecAppend(s, load, first);
    ExecAppend(s, load + first, second);
    ExecAppend(s, load + first + second, [claim]);
    ClaimPhase(s3, r);
  }

  lemma ClaimPhase(s: State, r: nat)
    requires r in s.confirms && s.confirms[r].pc.Completing? && CanClaim(s.ledger, s.confirms[r].tid)
    requires NextToComplete(s.confirms[r].seen, s.confirms[r].pc.targetDone, s.confirms[r].pc.offeredDone).None?
    ensures var t := Apply(s, OnConfirm(DoConfirmClaim(r, true)));
            && t.rows == s.rows && t.ledger == ClaimCompletion(s.ledger, s.confirms[r].tid)
  {
    hide ConfirmLoad, ConfirmOwner, ConfirmRequester, ConfirmReread, ConfirmIssue, ConfirmSeen, ApplyListing, ApplyServer, ApplyDraft, ApplyAccept;
  }
}
