/**
  What faults cost the commit protocol, exactly, and what they cannot cost. The wish "no reservation ever leaks"
  is false of the code; this file says in which steps a leak is born, that it is never repaired, and that runs
  without faults have none.
*/
module SagaFaults {
  import opened Wrappers
  import opened Catalog
  import opened Ledger
  import opened MarketplaceRules
  import opened Saga
  import opened SagaInvariant
  import opened SagaSteps
  import opened SagaTheorems

  // ----- Leaks

  /** A lost call, a reply in doubt, a dead acceptance. */
  predicate IsFault(a: Action) {
    match a
    case OnServer(x) => x.DoServerLost?
    case OnAccept(x) => x.DoAcceptInDoubt? || x.DoAcceptCrash?
    case _ => false
  }

  predicate AwaitsApplied(s: State, r: nat, l: Id) {
    && r in s.accepts && s.accepts[r].pc.Waiting? && Answer(s, s.accepts[r].pc.call, true)
    && s.calls[s.accepts[r].pc.call].listing == l
  }

  /**
    The four ways to lose a hold: give up on an applied reserve, die holding or awaiting it, lose a release on its
    way, or apply a reserve nobody waits for any more.
  */
  ghost predicate Loses(s: State, a: Action, l: Id) {
    match a
    case OnServer(x) => ServerLoses(s, x, l)
    case OnAccept(x) => AcceptLoses(s, x, l)
    case _ => false
  }

  ghost predicate ServerLoses(s: State, a: ServerAction, l: Id) {
    match a
    case DoServerLost(c) => c in s.calls && s.calls[c].kind.ReleaseCall? && !s.calls[c].stage.Answered? && s.calls[c].listing == l
    case DoServerReserve(c) =>
      && c in s.calls && s.calls[c].kind.ReserveCall? && s.calls[c].stage.Sent? && s.calls[c].listing == l
      && CanReserve(s.rows, l) && !Attended(s.calls, s.accepts, c)
    case _ => false
  }

  ghost predicate AcceptLoses(s: State, a: AcceptAction, l: Id) {
    match a
    case DoAcceptInDoubt(r) => AwaitsApplied(s, r, l)
    case DoAcceptCrash(r) => AwaitsApplied(s, r, l) || (r in s.accepts && Holds(s.accepts[r], l))
    case _ => false
  }

  /** The facts about holders that leaks depend on. */
  ghost predicate HoldFacts(s: State) {
    && HoldingReserves(s.calls, s.holder) && ReservesHold(s.calls, s.holder)
    && HoldingReleases(s.calls, s.holder) && ReleasesHold(s.calls, s.holder)
    && HoldingAcceptsHold(s.holder, s.accepts) && AcceptsHold(s.holder, s.accepts)
    && AcceptsAwait(s.accepts, s.calls)
    && (forall r :: r in s.accepts && Early(s.accepts[r].pc) ==> !s.accepts[r].targetReserved && !s.accepts[r].offeredReserved)
    && (forall l :: CanReserve(s.rows, l) ==> l in s.holder && s.holder[l].Free?)
    && HoldersNumbered(s.holder, s.next) && CallsNumbered(s.calls, s.next) && AcceptsNumbered(s.accepts, s.next)
  }

  lemma InvGivesHoldFacts(s: State)
    requires Inv(s)
    ensures HoldFacts(s)
  {
    hide ConfirmInv, DraftInv, LedgerInv;
  }

  lemma ServerLeaks(s: State, a: ServerAction, l: Id)
    requires HoldFacts(s)
    ensures Leaked(ApplyServer(s, a), l) <==> Leaked(s, l) || ServerLoses(s, a, l)
  {
    match a
    case DoServerReserve(c) => ServerReserveLeaks(s, c, l);
    case DoServerRead(c) => ServerReadLeaks(s, c, l);
    case DoServerWrite(c) => ServerWriteLeaks(s, c, l);
    case DoServerLost(c) => ServerLostLeaks(s, c, l);
    hide HoldFacts, Leaked, ServerReserve, ServerRead, ServerWrite, ServerLost;
  }

  lemma ServerReserveLeaks(s: State, c: nat, l: Id)
    requires HoldFacts(s)
    ensures Leaked(ServerReserve(s, c), l) <==> Leaked(s, l) || ServerLoses(s, DoServerReserve(c), l)
  {
  }

  lemma ServerReadLeaks(s: State, c: nat, l: Id)
    requires HoldFacts(s)
    ensures Leaked(ServerRead(s, c), l) <==> Leaked(s, l)
  {
    hide Decide;
  }

  lemma ServerWriteLeaks(s: State, c: nat, l: Id)
    requires HoldFacts(s)
    ensures Leaked(ServerWrite(s, c), l) <==> Leaked(s, l)
  {
  }

  lemma ServerLostLeaks(s: State, c: nat, l: Id)
    requires HoldFacts(s)
    ensures Leaked(ServerLost(s, c), l) <==> Leaked(s, l) || ServerLoses(s, DoServerLost(c), l)
  {
  }

  lemma LoadLeaks(s: State, id: Id, owner: Id, l: Id)
    requires HoldFacts(s)
    ensures Leaked(AcceptLoad(s, id, owner), l) <==> Leaked(s, l)
  {
  }

  /** An acceptance that awaits no call, neither before nor after, takes no hold with it. */
  lemma MoveLeaks(s: State, r: nat, a: Accept, l: Id)
    requires r in s.accepts && !s.accepts[r].pc.Waiting? && !a.pc.Waiting?
    ensures LeakedIn(s.holder, s.calls, s.accepts[r := a], l) <==> Leaked(s, l)
  {
  }

  lemma ReadTargetLeaks(s: State, r: nat, l: Id)
    requires HoldFacts(s)
    ensures Leaked(AcceptReadTarget(s, r), l) <==> Leaked(s, l)
  {
    if r in s.accepts && s.accepts[r].pc.Loaded? {
      assert !s.accepts[r].targetReserved && !s.accepts[r].offeredReserved;
      hide HoldFacts, LeakedIn;
      var a := ReadTargetForAccept(s.accepts[r], s.rows);
      if a.Some? {
        MoveLeaks(s, r, a.value, l);
      } else {
        EndLeaks(s, r, l);
      }
    }
  }

  lemma ReadOfferedLeaks(s: State, r: nat, l: Id)
    requires HoldFacts(s)
    ensures Leaked(AcceptReadOffered(s, r), l) <==> Leaked(s, l)
  {
    if r in s.accepts && s.accepts[r].pc.TargetRead? {
      assert !s.accepts[r].targetReserved && !s.accepts[r].offeredReserved;
      hide HoldFacts, LeakedIn, CanAccept;
      var a := ReadOfferedForAccept(s.accepts[r], s.rows);
      if a.Some? {
        MoveLeaks(s, r, a.value, l);
      } else {
        EndLeaks(s, r, l);
      }
    }
  }

  lemma ReserveLeaks(s: State, r: nat, l: Id)
    requires HoldFacts(s)
    ensures Leaked(AcceptIssue(s, r), l) <==> Leaked(s, l)
  {
    hide NextToReserve;
  }

  lemma SeenReplyLeaks(s: State, r: nat, l: Id)
    requires HoldFacts(s)
    ensures Leaked(AcceptSeen(s, r), l) <==> Leaked(s, l)
  {
  }

  lemma RefusalLeaks(s: State, r: nat, l: Id)
    requires HoldFacts(s)
    ensures Leaked(AcceptRefused(s, r), l) <==> Leaked(s, l)
  {
  }

  lemma DoubtLeaks(s: State, r: nat, l: Id)
    requires HoldFacts(s)
    ensures Leaked(AcceptInDoubt(s, r), l) <==> Leaked(s, l) || AwaitsApplied(s, r, l)
  {
  }

  lemma CrashLeaks(s: State, r: nat, l: Id)
    requires HoldFacts(s)
    ensures Leaked(AcceptCrash(s, r), l) <==> Leaked(s, l) || AwaitsApplied(s, r, l) || (r in s.accepts && Holds(s.accepts[r], l))
  {
  }

  /** An acceptance that awaits no call takes no attention with it. */
  lemma AttentionKept(calls: Calls, accepts: Accepts, r: nat, a: Option<Accept>, c: nat)
    requires r in accepts && !accepts[r].pc.Waiting? && (a.Some? ==> !a.value.pc.Waiting?)
    ensures Attended(calls, Put(accepts, r, a), c) <==> Attended(calls, accepts, c)
  {
  }

  lemma HandOverLeaks(holder: Holders, calls: Calls, accepts: Accepts, r: nat, tid: Id, l: Id)
    requires r in accepts && NextToReserve(accepts[r]).None? && AcceptsHold(holder, accepts) && HoldingAcceptsHold(holder, accepts)
    requires forall c :: Attended(calls, accepts - {r}, c) <==> Attended(calls, accepts, c)
    ensures LeakedIn(HandOver(holder, accepts[r].p, tid), calls, accepts - {r}, l) <==> LeakedIn(holder, calls, accepts, l)
  {
  }

  lemma CommitLeaks(s: State, r: nat, tid: Id, rivals: seq<Rival>, at: string, l: Id)
    requires HoldFacts(s)
    ensures Leaked(AcceptCommit(s, r, tid, rivals, at), l) <==> Leaked(s, l)
  {
    if ReadyToCommit(s, r) {
      forall c
        ensures Attended(s.calls, s.accepts - {r}, c) <==> Attended(s.calls, s.accepts, c)
      {
        AttentionKept(s.calls, s.accepts, r, None, c);
      }
      HandOverLeaks(s.holder, s.calls, s.accepts, r, tid, l);
      AbortLeaks(s, r, l);
    }
    hide HoldFacts, LeakedIn;
  }

  lemma LetGoLeaks(s: State, r: nat, a: Accept, m: Id, l: Id)
    requires HoldFacts(s) && r in s.accepts && Forgets(s.accepts[r], a, m) && IsHeld(s.holder, m, ByAccept(r))
    ensures LeakedIn(s.holder[m := ByRelease(s.next)], s.calls[s.next := Call(ReleaseCall, m, r, Sent)], s.accepts[r := a], l)
            <==> Leaked(s, l)
  {
  }

  lemma ReleaseLeaks(s: State, r: nat, l: Id)
    requires Inv(s)
    ensures Leaked(AcceptRelease(s, r), l) <==> Leaked(s, l)
  {
    if r in s.accepts && s.accepts[r].pc.Undoing? {
      AcceptFacts(s, r);
      InvGivesHoldFacts(s);
      hide Inv, HoldFacts, LeakedIn;
      var a := s.accepts[r];
      if a.offeredReserved && a.p.offered.Some? {
        LetGoLeaks(s, r, a.(offeredReserved := false), a.p.offered.value, l);
      } else if a.targetReserved {
        LetGoLeaks(s, r, a.(targetReserved := false), a.p.target, l);
      } else {
        EndLeaks(s, r, l);
      }
    }
  }

  lemma EndLeaks(s: State, r: nat, l: Id)
    requires HoldFacts(s) && r in s.accepts && !s.accepts[r].pc.Waiting? && !s.accepts[r].targetReserved && !s.accepts[r].offeredReserved
    ensures LeakedIn(s.holder, s.calls, s.accepts - {r}, l) <==> Leaked(s, l)
  {
  }

  lemma AbortLeaks(s: State, r: nat, l: Id)
    ensures Leaked(AcceptAbort(s, r), l) <==> Leaked(s, l)
  {
  }

  lemma ConfirmLeaks(s: State, a: ConfirmAction, l: Id)
    requires HoldFacts(s) && ConfirmsAwait(s.confirms, s.calls)
    ensures Leaked(ApplyConfirm(s, a), l) <==> Leaked(s, l)
  {
    hide LeakedIn, HoldFacts, ConfirmsAwait;
    if a.DoConfirmIssue? {
      IssueLeaks(s, a.r, l);
    } else if a.DoConfirmSeen? {
      SeenLeaks(s, a.r, l);
    } else {
      hide ConfirmIssue, ConfirmSeen;
    }
  }

  lemma IssueLeaks(s: State, r: nat, l: Id)
    requires HoldFacts(s)
    ensures Leaked(ConfirmIssue(s, r), l) <==> Leaked(s, l)
  {
  }

  lemma SeenLeaks(s: State, r: nat, l: Id)
    requires HoldFacts(s) && ConfirmsAwait(s.confirms, s.calls)
    ensures Leaked(ConfirmSeen(s, r), l) <==> Leaked(s, l)
  {
  }

  lemma DraftLeaks(s: State, a: DraftAction, l: Id)
    ensures Leaked(ApplyDraft(s, a), l) <==> Leaked(s, l)
  {
    hide LeakedIn;
  }

  lemma ListingLeaks(s: State, a: ListingAction, l: Id)
    requires HoldersKnown(s.rows, s.holder)
    ensures Leaked(ApplyListing(s, a), l) <==> Leaked(s, l)
  {
  }

  lemma AcceptLeaks(s: State, a: AcceptAction, l: Id)
    requires Inv(s)
    ensures Leaked(ApplyAccept(s, a), l) <==> Leaked(s, l) || AcceptLoses(s, a, l)
  {
    InvGivesHoldFacts(s);
    match a
    case DoAcceptCommit(r, tid, rivals, at) => CommitLeaks(s, r, tid, rivals, at, l);
    case DoAcceptAbort(r) => AbortLeaks(s, r, l);
    case DoAcceptRelease(r) => ReleaseLeaks(s, r, l);
    case DoAcceptLoad(id, owner) => LoadLeaks(s, id, owner, l);
    case DoAcceptReadTarget(r) => ReadTargetLeaks(s, r, l);
    case DoAcceptReadOffered(r) => ReadOfferedLeaks(s, r, l);
    case DoAcceptIssue(r) => ReserveLeaks(s, r, l);
    case DoAcceptSeen(r) => SeenReplyLeaks(s, r, l);
    case DoAcceptRefused(r) => RefusalLeaks(s, r, l);
    case DoAcceptInDoubt(r) => DoubtLeaks(s, r, l);
    case DoAcceptCrash(r) => CrashLeaks(s, r, l);
    hide Inv, LeakedIn, HoldFacts, AwaitsApplied, Holds, AcceptLoad, AcceptReadTarget, AcceptReadOffered, AcceptIssue, AcceptSeen,
         AcceptRefused, AcceptInDoubt, AcceptCommit, AcceptAbort, AcceptRelease, AcceptCrash;
  }

  /**
    A step leaks a listing exactly when it is one of the four losses; and a leaked listing stays leaked, so nothing
    in the system ever makes it available again.
  */
  lemma LeaksExactly(s: State, a: Action, l: Id)
    requires Inv(s)
    ensures Leaked(Apply(s, a), l) <==> Leaked(s, l) || Loses(s, a, l)
  {
    InvGivesHoldFacts(s);
    hide HoldFacts, Leaked, ApplyListing, ApplyServer, ApplyDraft, ApplyAccept, ApplyConfirm, ServerLoses, AcceptLoses,
         CallInv, AcceptInv, DraftInv, LedgerInv, Numbered;
    match a
    case OnListing(x) => ListingLeaks(s, x, l);
    case OnServer(x) => ServerLeaks(s, x, l);
    case OnDraft(x) => DraftLeaks(s, x, l);
    case OnAccept(x) => AcceptLeaks(s, x, l);
    case OnConfirm(x) => ConfirmLeaks(s, x, l);
  }

  // ----- A run that leaks

  lemma ExecStep(acts: seq<Action>, a: Action)
    ensures Exec(INIT, acts + [a]) == Apply(Exec(INIT, acts), a)
  {
    hide Apply;
    assert (acts + [a])[..|acts + [a]| - 1] == acts;
  }

  /** A donation listing, approved, with one pending request on it. */
  const ON_OFFER := Snapshot(10, Donation, Approved, Available)
  const OPEN_REQUEST := Proposal(1, 20, DonationRequest, None, ProposalStatus.Pending)

  lemma OfferedRun() returns (acts: seq<Action>)
    ensures var s := Exec(INIT, acts);
            && s.rows == map[1 := ON_OFFER] && s.ledger == Ledger(map[5 := OPEN_REQUEST], map[], [])
            && s.calls == map[] && s.accepts == map[] && s.holder == map[1 := Free] && s.next == 1
  {
    var a := OnListing(DoListingCreated(1, 10, Donation));
    var b := OnListing(DoListingModerated(1, Donation, Approved));
    var c := OnDraft(DoCreateStart(OPEN_REQUEST));
    var d := OnDraft(DoCreateReadTarget(0));
    var e := OnDraft(DoCreateInsert(0, 5));
    acts := [a] + [b] + [c] + [d] + [e];
    ExecStep([], a);
    ExecStep([a], b);
    ExecStep([a] + [b], c);
    ExecStep([a] + [b] + [c], d);
    ExecStep([a] + [b] + [c] + [d], e);
    assert [] + [a] == [a];
    OfferedSteps();
    hide Exec;
  }

  lemma OfferedSteps()
    ensures var s := CreateInsert(CreateReadTarget(CreateStart(
                       ListingModerated(ListingCreated(INIT, 1, 10, Donation), 1, Donation, Approved), OPEN_REQUEST), 0), 0, 5);
            && s.rows == map[1 := ON_OFFER] && s.ledger == Ledger(map[5 := OPEN_REQUEST], map[], [])
            && s.calls == map[] && s.accepts == map[] && s.holder == map[1 := Free] && s.next == 1
  {
    var s := ListingModerated(ListingCreated(INIT, 1, 10, Donation), 1, Donation, Approved);
    assert s.rows == map[1 := ON_OFFER] && s.holder == map[1 := Free];
  }

  /** The owner accepts, the reserve is applied, its reply never comes: the listing is lost to everybody. */
  lemma LeakHappens() returns (acts: seq<Action>)
    ensures Leaked(Exec(INIT, acts), 1) && Exec(INIT, acts).accepts == map[]
  {
    hide Exec, Leaked, AcceptLoad, AcceptReadTarget, AcceptReadOffered, AcceptIssue, AcceptSeen, AcceptRefused, AcceptInDoubt,
         AcceptCommit, AcceptAbort, AcceptRelease, AcceptCrash, ServerReserve, ServerRead, ServerWrite, ServerLost,
         ApplyListing, ApplyDraft, ApplyConfirm;
    var open := OfferedRun();
    var a := OnAccept(DoAcceptLoad(5, 10));
    var b := OnAccept(DoAcceptReadTarget(1));
    var c := OnAccept(DoAcceptReadOffered(1));
    var d := OnAccept(DoAcceptIssue(1));
    var e := OnServer(DoServerReserve(2));
    var f := OnAccept(DoAcceptInDoubt(1));
    var g := OnAccept(DoAcceptRelease(1));
    acts := open + [a] + [b] + [c] + [d] + [e] + [f] + [g];
    ExecStep(open, a);
    ExecStep(open + [a], b);
    ExecStep(open + [a] + [b], c);
    ExecStep(open + [a] + [b] + [c], d);
    ExecStep(open + [a] + [b] + [c] + [d], e);
    ExecStep(open + [a] + [b] + [c] + [d] + [e], f);
    ExecStep(open + [a] + [b] + [c] + [d] + [e] + [f], g);
    var s := Exec(INIT, open);
    ReservingSteps(s);
    LeakSteps(AcceptIssue(AcceptReadOffered(AcceptReadTarget(AcceptLoad(s, 5, 10), 1), 1), 1));
  }

  lemma ReservingSteps(s: State)
    requires s.rows == map[1 := ON_OFFER] && s.ledger == Ledger(map[5 := OPEN_REQUEST], map[], [])
    requires s.calls == map[] && s.accepts == map[] && s.holder == map[1 := Free] && s.next == 1
    ensures var t := AcceptIssue(AcceptReadOffered(AcceptReadTarget(AcceptLoad(s, 5, 10), 1), 1), 1);
            && t.rows == s.rows && t.holder == s.holder
            && t.calls == map[2 := Call(ReserveCall, 1, 1, Sent)]
            && t.accepts == map[1 := Accept(5, OPEN_REQUEST, 10, false, false, Waiting(2))]
  {
  }

  lemma LeakSteps(s: State)
    requires s.rows == map[1 := ON_OFFER] && s.holder == map[1 := Free]
    requires s.calls == map[2 := Call(ReserveCall, 1, 1, Sent)]
    requires s.accepts == map[1 := Accept(5, OPEN_REQUEST, 10, false, false, Waiting(2))]
    ensures var t := AcceptRelease(AcceptInDoubt(ServerReserve(s, 2), 1), 1);
            Leaked(t, 1) && t.accepts == map[]
  {
  }

  /** A leak is for good: whatever happens next, the listing stays Reserved and nobody claims it. */
  lemma {:induction false} LeakIsPermanent(acts: seq<Action>, i: nat, l: Id)
    requires i <= |acts| && Leaked(Exec(INIT, acts[..i]), l)
    ensures Leaked(Exec(INIT, acts), l)
  {
    if i == |acts| {
      assert acts[..i] == acts;
    } else {
      var last := |acts| - 1;
      var s := Exec(INIT, acts[..last]);
      assert Exec(INIT, acts) == Apply(s, acts[last]);
      hide Inv, Exec, Apply, Leaked;
      assert acts[..last][..i] == acts[..i];
      LeakIsPermanent(acts[..last], i, l);
      RunKeepsInv(acts[..last]);
      LeaksExactly(s, acts[last], l);
    }
  }

  // ----- Runs without faults

  /** Every reserve under way or answered is still awaited. */
  ghost predicate NoOrphans(calls: Calls, accepts: Accepts) {
    forall c :: c in calls && calls[c].kind.ReserveCall? ==> Attended(calls, accepts, c)
  }

  lemma ServerKeepsCallers(s: State, a: ServerAction)
    requires NoOrphans(s.calls, s.accepts) && !a.DoServerLost?
    ensures NoOrphans(ApplyServer(s, a).calls, s.accepts)
  {
  }

  lemma ReadsKeepCallers(s: State, a: AcceptAction)
    requires NoOrphans(s.calls, s.accepts) && AcceptsAwait(s.accepts, s.calls) && AcceptsNumbered(s.accepts, s.next)
    requires a.DoAcceptLoad? || a.DoAcceptReadTarget? || a.DoAcceptReadOffered? || a.DoAcceptIssue? || a.DoAcceptSeen? || a.DoAcceptRefused?
    ensures NoOrphans(ApplyAccept(s, a).calls, ApplyAccept(s, a).accepts)
  {
    hide AcceptInDoubt, AcceptCommit, AcceptAbort, AcceptRelease, AcceptCrash;
  }

  lemma PutKeepsCallers(calls: Calls, accepts: Accepts, r: nat, a: Option<Accept>)
    requires NoOrphans(calls, accepts) && r in accepts && !accepts[r].pc.Waiting?
    ensures NoOrphans(calls, Put(accepts, r, a))
  {
  }

  lemma ReleaseKeepsCallers(calls: Calls, accepts: Accepts, c: nat, call: Call)
    requires NoOrphans(calls, accepts) && call.kind.ReleaseCall? && c !in calls
    ensures NoOrphans(calls[c := call], accepts)
  {
  }

  lemma CommitKeepsCallers(s: State, r: nat, tid: Id, rivals: seq<Rival>, at: string)
    requires NoOrphans(s.calls, s.accepts)
    ensures NoOrphans(AcceptCommit(s, r, tid, rivals, at).calls, AcceptCommit(s, r, tid, rivals, at).accepts)
  {
    hide NoOrphans;
    if ReadyToCommit(s, r) {
      PutKeepsCallers(s.calls, s.accepts, r, None);
      PutKeepsCallers(s.calls, s.accepts, r, Some(s.accepts[r].(pc := Undoing)));
    }
  }

  lemma UndoKeepsCallers(s: State, r: nat)
    requires NoOrphans(s.calls, s.accepts) && s.next !in s.calls
    ensures NoOrphans(AcceptRelease(s, r).calls, AcceptRelease(s, r).accepts)
  {
    hide NoOrphans;
    if r in s.accepts && s.accepts[r].pc.Undoing? {
      var a := s.accepts[r];
      if a.offeredReserved && a.p.offered.Some? {
        GivingBackKeepsCallers(s, r, a.(offeredReserved := false), Call(ReleaseCall, a.p.offered.value, r, Sent));
      } else if a.targetReserved {
        GivingBackKeepsCallers(s, r, a.(targetReserved := false), Call(ReleaseCall, a.p.target, r, Sent));
      } else {
        PutKeepsCallers(s.calls, s.accepts, r, None);
      }
    }
  }

  lemma GivingBackKeepsCallers(s: State, r: nat, a: Accept, call: Call)
    requires NoOrphans(s.calls, s.accepts) && s.next !in s.calls && r in s.accepts && !s.accepts[r].pc.Waiting? && call.kind.ReleaseCall?
    ensures NoOrphans(s.calls[s.next := call], s.accepts[r := a])
  {
    hide NoOrphans;
    PutKeepsCallers(s.calls, s.accepts, r, Some(a));
    ReleaseKeepsCallers(s.calls, s.accepts[r := a], s.next, call);
  }

  lemma AbortKeepsCallers(s: State, r: nat)
    requires NoOrphans(s.calls, s.accepts)
    ensures NoOrphans(s.calls, AcceptAbort(s, r).accepts)
  {
  }

  lemma ConfirmKeepsCallers(s: State, a: ConfirmAction)
    requires NoOrphans(s.calls, s.accepts) && ConfirmsAwait(s.confirms, s.calls)
    ensures NoOrphans(ApplyConfirm(s, a).calls, s.accepts) && ApplyConfirm(s, a).accepts == s.accepts
  {
    hide NoOrphans, ConfirmsAwait;
    if a.DoConfirmIssue? {
      IssueKeepsCallers(s, a.r);
    } else if a.DoConfirmSeen? {
      SeenKeepsCallers(s, a.r);
    } else {
      hide ConfirmIssue, ConfirmSeen;
    }
  }

  lemma IssueKeepsCallers(s: State, r: nat)
    requires NoOrphans(s.calls, s.accepts)
    ensures NoOrphans(ConfirmIssue(s, r).calls, s.accepts)
  {
  }

  lemma SeenKeepsCallers(s: State, r: nat)
    requires NoOrphans(s.calls, s.accepts)
    ensures NoOrphans(ConfirmSeen(s, r).calls, s.accepts)
  {
  }

  lemma CreatesKeepCallers(s: State, a: DraftAction)
    requires a.DoCreateStart? || a.DoCreateReadTarget? || a.DoCreateReadOffered? || a.DoCreateInsert?
    ensures ApplyDraft(s, a).calls == s.calls && ApplyDraft(s, a).accepts == s.accepts
  {
    hide Put, ReadTargetForCreate, ReadOfferedForCreate, InsertProposal, DeclineLoad, DeclineCheck, DeclineCommit, RequestEnds;
  }

  lemma DraftKeepsCallers(s: State, a: DraftAction)
    ensures ApplyDraft(s, a).calls == s.calls && ApplyDraft(s, a).accepts == s.accepts
  {
    if a.DoCreateStart? || a.DoCreateReadTarget? || a.DoCreateReadOffered? || a.DoCreateInsert? {
      CreatesKeepCallers(s, a);
    }
    hide CreateStart, CreateReadTarget, CreateReadOffered, CreateInsert, Put, CheckOwner, RejectTx, FreshEventId;
  }

  lemma ListingKeepsCallers(s: State, a: ListingAction)
    ensures ApplyListing(s, a).calls == s.calls && ApplyListing(s, a).accepts == s.accepts
  {
  }

  lemma AcceptKeepsCallers(s: State, a: AcceptAction)
    requires NoOrphans(s.calls, s.accepts) && s.next !in s.calls && !a.DoAcceptInDoubt? && !a.DoAcceptCrash?
    requires AcceptsAwait(s.accepts, s.calls) && AcceptsNumbered(s.accepts, s.next)
    ensures NoOrphans(ApplyAccept(s, a).calls, ApplyAccept(s, a).accepts)
  {
    hide NoOrphans, AcceptsAwait, AcceptsNumbered;
    match a
    case DoAcceptCommit(r, tid, rivals, at) => CommitKeepsCallers(s, r, tid, rivals, at);
    case DoAcceptAbort(r) =>
      AbortKeepsCallers(s, r);
      hide AcceptLoad, AcceptReadTarget, AcceptReadOffered, AcceptIssue, AcceptSeen, AcceptRefused, AcceptInDoubt, AcceptCommit, AcceptRelease;
    case DoAcceptRelease(r) => UndoKeepsCallers(s, r);
    case _ => ReadsKeepCallers(s, a);
  }

  lemma NoFaultNoOrphan(s: State, a: Action)
    requires Inv(s) && NoOrphans(s.calls, s.accepts) && !IsFault(a)
    ensures NoOrphans(Apply(s, a).calls, Apply(s, a).accepts)
  {
    hide HoldInv, CallInv, DraftInv, LedgerInv, NoOrphans, ApplyListing, ApplyServer, ApplyDraft, ApplyAccept, ApplyConfirm,
         AcceptsKnow, AcceptsAwait, ConfirmsKnow, ConfirmsDone, ConfirmsAwait, AcceptsNumbered, ConfirmsNumbered;
    match a
    case OnServer(x) =>
      ServerKeepsCallers(s, x);
      ServerKeepsAccepts(s, x);
    case OnAccept(x) =>
      AcceptKeepsCallers(s, x);
    case OnConfirm(x) => ConfirmKeepsCallers(s, x);
    case OnDraft(x) => DraftKeepsCallers(s, x);
    case OnListing(x) => ListingKeepsCallers(s, x);
  }

  lemma ServerKeepsAccepts(s: State, a: ServerAction)
    ensures ApplyServer(s, a).accepts == s.accepts
  {
  }

  ghost predicate FaultFree(acts: seq<Action>) {
    forall i :: 0 <= i < |acts| ==> !IsFault(acts[i])
  }

  /** Without faults nothing ever leaks, whatever the interleaving, the refusals and the aborted transactions. */
  lemma {:induction false} NoFaultNoLeak(acts: seq<Action>)
    requires FaultFree(acts)
    ensures var s := Exec(INIT, acts); NoOrphans(s.calls, s.accepts) && forall l :: !Leaked(s, l)
  {
    if acts != [] {
      var last := |acts| - 1;
      var s := Exec(INIT, acts[..last]);
      assert Exec(INIT, acts) == Apply(s, acts[last]);
      hide Inv, Exec, Apply, Leaked, NoOrphans;
      NoFaultNoLeak(acts[..last]);
      RunKeepsInv(acts[..last]);
      assert !IsFault(acts[last]);
      NoFaultNoOrphan(s, acts[last]);
      forall l
        ensures !Leaked(Apply(s, acts[last]), l)
      {
        LeaksExactly(s, acts[last], l);
        AttendedNeverLost(s, acts[last], l);
      }
    }
  }

  lemma AttendedNeverLost(s: State, a: Action, l: Id)
    requires NoOrphans(s.calls, s.accepts) && !IsFault(a)
    ensures !Loses(s, a, l)
  {
  }

  /**
    All or nothing: in a run without faults, whenever no acceptance and no release is under way, a listing is
    unavailable exactly when a transaction, and then only one, has it. Refused, aborted and outrun acceptances
    have given back everything they took.
  */
  lemma AllOrNothing(acts: seq<Action>, l: Id)
    requires FaultFree(acts)
    requires Exec(INIT, acts).accepts == map[]
    requires forall c :: c in Exec(INIT, acts).calls && Exec(INIT, acts).calls[c].kind.ReleaseCall? ==> Exec(INIT, acts).calls[c].stage.Answered?
    requires l in Exec(INIT, acts).rows
    ensures var s := Exec(INIT, acts);
            && (s.rows[l].availability.Available? <==> forall t :: !Claims(s, TransactionClaim(t), l))
            && (forall t, u :: Claims(s, TransactionClaim(t), l) && Claims(s, TransactionClaim(u), l) ==> t == u)
  {
    var s := Exec(INIT, acts);
    NoFaultNoLeak(acts);
    HoldConservation(acts, l);
    forall x | Claims(s, x, l)
      ensures x.TransactionClaim?
    {
    }
    hide Exec;
  }
}
