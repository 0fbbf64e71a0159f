/**
  Every action keeps the invariant. The first part says what one table may do while the others stand still; the
  second composes these facts, one lemma an action.
*/
module SagaSteps {
  import opened Wrappers
  import opened Catalog
  import opened Ledger
  import opened MarketplaceRules
  import opened Saga
  import opened SagaInvariant

  // ----- Catalog rows

  /** Rows may appear, keep their owner, and never leave Completed. */
  ghost predicate Advances(before: Table, after: Table) {
    forall l :: l in before ==>
      && l in after && after[l].owner == before[l].owner
      && (before[l].availability.Completed? ==> after[l].availability.Completed?)
  }

  lemma AdvanceKeeps(s: State, rows: Table)
    requires Inv(s) && Advances(s.rows, rows)
    ensures AcceptInv(s.accepts, s.ledger.proposals, rows, s.calls)
    ensures ConfirmInv(s.confirms, s.ledger.transactions, rows, s.calls)
    ensures DraftInv(s.creates, s.declines, s.ledger.proposals, rows)
    ensures LedgerInv(s.ledger, rows, s.announced)
  {
    hide HoldInv, CallInv, Numbered;
    LedgerAdvances(s.ledger, s.rows, rows, s.announced);
  }

  lemma LedgerAdvances(l: Ledger, before: Table, after: Table, announced: seq<Id>)
    requires LedgerInv(l, before, announced) && Advances(before, after)
    ensures LedgerInv(l, after, announced)
  {
  }

  /** A new listing starts Free; moderation leaves availability alone. */
  lemma QuietRows(rows: Table, holder: Holders, ts: Transactions, accepts: Accepts, calls: Calls, id: Id, row: Snapshot)
    requires HoldInv(rows, holder, ts, accepts) && CallInv(calls, rows, holder, ts)
    requires if id in rows then row.availability == rows[id].availability else row.availability.Available?
    ensures var h := if id in rows then holder else holder[id := Free];
            HoldInv(rows[id := row], h, ts, accepts) && CallInv(calls, rows[id := row], h, ts)
  {
  }

  lemma ReserveHolds(rows: Table, holder: Holders, ts: Transactions, accepts: Accepts, id: Id, c: nat)
    requires HoldInv(rows, holder, ts, accepts) && CanReserve(rows, id)
    ensures HoldInv(ReserveRow(rows, id), holder[id := ByReserve(c)], ts, accepts)
  {
  }

  lemma ReserveAnswered(calls: Calls, rows: Table, holder: Holders, ts: Transactions, accepts: Accepts, c: nat)
    requires CallInv(calls, rows, holder, ts) && HoldInv(rows, holder, ts, accepts)
    requires c in calls && calls[c].kind.ReserveCall? && calls[c].stage.Sent? && CanReserve(rows, calls[c].listing)
    ensures CallInv(calls[c := calls[c].(stage := Answered(true))], ReserveRow(rows, calls[c].listing),
                    holder[calls[c].listing := ByReserve(c)], ts)
  {
  }

  lemma ReserveRefused(calls: Calls, rows: Table, holder: Holders, ts: Transactions, c: nat)
    requires CallInv(calls, rows, holder, ts) && c in calls && calls[c].kind.ReserveCall? && calls[c].stage.Sent?
    ensures CallInv(calls[c := calls[c].(stage := Answered(false))], rows, holder, ts)
  {
  }

  /** What a complete or release finds when it reads: never the state it would refuse. */
  lemma ReadFindsHeld(calls: Calls, rows: Table, holder: Holders, ts: Transactions, accepts: Accepts, c: nat)
    requires CallInv(calls, rows, holder, ts) && HoldInv(rows, holder, ts, accepts)
    requires c in calls && !calls[c].kind.ReserveCall? && !calls[c].stage.Answered?
    ensures calls[c].listing in rows
    ensures calls[c].kind.CompleteCall? ==> !rows[calls[c].listing].availability.Available?
    ensures calls[c].kind.ReleaseCall? ==> rows[calls[c].listing].availability.Reserved?
  {
  }

  lemma ReadAnswered(calls: Calls, rows: Table, holder: Holders, ts: Transactions, accepts: Accepts, c: nat)
    requires CallInv(calls, rows, holder, ts) && HoldInv(rows, holder, ts, accepts)
    requires c in calls && !calls[c].kind.ReserveCall? && calls[c].stage.Sent?
    ensures var d := Decide(calls[c].kind, rows, calls[c].listing);
            CallInv(calls[c := calls[c].(stage := if d.WriteNow? then SawReserved else Answered(d.AnswerOk?))], rows, holder, ts)
  {
    ReadFindsHeld(calls, rows, holder, ts, accepts, c);
    hide HoldInv;
  }

  lemma CompleteWritten(calls: Calls, rows: Table, holder: Holders, ts: Transactions, accepts: Accepts, c: nat)
    requires CallInv(calls, rows, holder, ts) && HoldInv(rows, holder, ts, accepts)
    requires c in calls && calls[c].kind.CompleteCall? && calls[c].listing in rows
    ensures var done := SetAvailability(rows, calls[c].listing, Availability.Completed);
            && HoldInv(done, holder, ts, accepts)
            && CallInv(calls[c := calls[c].(stage := Answered(true))], done, holder, ts)
  {
  }

  lemma ReleaseWritten(calls: Calls, rows: Table, holder: Holders, ts: Transactions, accepts: Accepts, c: nat)
    requires CallInv(calls, rows, holder, ts) && HoldInv(rows, holder, ts, accepts)
    requires c in calls && calls[c].kind.ReleaseCall? && !calls[c].stage.Answered? && calls[c].listing in rows
    ensures var freed := SetAvailability(rows, calls[c].listing, Available);
            && HoldInv(freed, holder[calls[c].listing := Free], ts, accepts)
            && CallInv(calls[c := calls[c].(stage := Answered(true))], freed, holder[calls[c].listing := Free], ts)
  {
  }

  // ----- Calls

  /** Answering or pausing a call changes nothing its caller relies on. */
  lemma ProgressAwaits(accepts: Accepts, confirms: Confirms, ps: Proposals, ts: Transactions, rows: Table, calls: Calls, c: nat, stage: Stage)
    requires AcceptInv(accepts, ps, rows, calls) && ConfirmInv(confirms, ts, rows, calls) && c in calls
    ensures AcceptInv(accepts, ps, rows, calls[c := calls[c].(stage := stage)])
    ensures ConfirmInv(confirms, ts, rows, calls[c := calls[c].(stage := stage)])
  {
  }

  lemma DropCall(s: State, c: nat)
    requires Inv(s)
    ensures Inv(s.(calls := s.calls - {c}))
  {
    hide HoldInv, DraftInv, LedgerInv;
  }

  lemma IssueCall(s: State, call: Call)
    requires Inv(s) && call.stage.Sent? && !call.kind.ReleaseCall?
    requires call.kind.CompleteCall? ==> HeldByConfirmed(s.holder, s.ledger.transactions, call.listing)
    ensures Inv(s.(calls := s.calls[s.next := call], next := s.next + 1))
  {
    hide HoldInv, DraftInv, LedgerInv;
    CallIssued(s, s.next, call);
    assert Numbered(s.(calls := s.calls[s.next := call], next := s.next + 1)) by { hide CallInv, AcceptInv, ConfirmInv; }
  }

  /** `c` names no call, no holder and no call anyone waits for. */
  ghost predicate Unused(s: State, c: nat) {
    && c !in s.calls
    && (forall l :: l in s.holder ==> s.holder[l] != ByReserve(c))
    && (forall r :: r in s.accepts ==> s.accepts[r].pc != Waiting(c))
    && (forall r :: r in s.confirms && s.confirms[r].pc.WaitingComplete? ==> s.confirms[r].pc.call != c)
  }

  lemma NextIsUnused(s: State)
    requires Numbered(s)
    ensures Unused(s, s.next)
    ensures forall l :: l in s.holder ==> s.holder[l] != ByRelease(s.next)
  {
  }

  lemma CallIssued(s: State, c: nat, call: Call)
    requires CallInv(s.calls, s.rows, s.holder, s.ledger.transactions)
    requires AcceptInv(s.accepts, s.ledger.proposals, s.rows, s.calls) && ConfirmInv(s.confirms, s.ledger.transactions, s.rows, s.calls)
    requires Unused(s, c) && call.stage.Sent?
    requires forall l :: l in s.holder && s.holder[l] == ByRelease(c) ==> call.kind.ReleaseCall? && l == call.listing
    requires match call.kind
             case ReserveCall => true
             case CompleteCall => HeldByConfirmed(s.holder, s.ledger.transactions, call.listing)
             case ReleaseCall => IsHeld(s.holder, call.listing, ByRelease(c))
    ensures CallInv(s.calls[c := call], s.rows, s.holder, s.ledger.transactions)
    ensures AcceptInv(s.accepts, s.ledger.proposals, s.rows, s.calls[c := call])
    ensures ConfirmInv(s.confirms, s.ledger.transactions, s.rows, s.calls[c := call])
  {
    assert CallInv(s.calls[c := call], s.rows, s.holder, s.ledger.transactions) by { hide AcceptInv, ConfirmInv; }
    assert AcceptInv(s.accepts, s.ledger.proposals, s.rows, s.calls[c := call]) by { hide CallInv, ConfirmInv; }
    assert ConfirmInv(s.confirms, s.ledger.transactions, s.rows, s.calls[c := call]) by { hide CallInv, AcceptInv; }
  }

  // ----- Requests

  lemma MoveHolds(rows: Table, holder: Holders, ts: Transactions, accepts: Accepts, r: nat, a: Accept)
    requires HoldInv(rows, holder, ts, accepts) && r in accepts
    requires a.p == accepts[r].p && a.targetReserved == accepts[r].targetReserved && a.offeredReserved == accepts[r].offeredReserved
    ensures HoldInv(rows, holder, ts, accepts[r := a])
  {
  }

  lemma MoveKnows(accepts: Accepts, ps: Proposals, rows: Table, calls: Calls, r: nat, a: Accept)
    requires AcceptInv(accepts, ps, rows, calls) && AcceptKnows(a, ps, rows)
    requires a.pc.Waiting? && a.pc.call in calls ==>
               var c := calls[a.pc.call];
               c.kind.ReserveCall? && c.caller == r && NextToReserve(a) == Some(c.listing)
    ensures AcceptInv(accepts[r := a], ps, rows, calls)
  {
  }

  /** An acceptance moves on without gaining or losing a hold. */
  lemma MoveAccept(s: State, r: nat, a: Accept)
    requires Inv(s) && r in s.accepts
    requires a.p == s.accepts[r].p && a.targetReserved == s.accepts[r].targetReserved && a.offeredReserved == s.accepts[r].offeredReserved
    requires AcceptKnows(a, s.ledger.proposals, s.rows)
    requires a.pc.Waiting? ==> a.pc.call < s.next
    requires a.pc.Waiting? && a.pc.call in s.calls ==>
               var c := s.calls[a.pc.call];
               c.kind.ReserveCall? && c.caller == r && NextToReserve(a) == Some(c.listing)
    ensures Inv(s.(accepts := s.accepts[r := a]))
  {
    hide HoldInv, CallInv, AcceptInv, ConfirmInv, DraftInv, LedgerInv;
    MoveHolds(s.rows, s.holder, s.ledger.transactions, s.accepts, r, a);
    MoveKnows(s.accepts, s.ledger.proposals, s.rows, s.calls, r, a);
  }

  lemma DropHolds(rows: Table, holder: Holders, ts: Transactions, accepts: Accepts, r: nat)
    requires HoldInv(rows, holder, ts, accepts)
    ensures HoldInv(rows, holder, ts, accepts - {r})
  {
  }

  lemma DropAccept(s: State, r: nat)
    requires Inv(s)
    ensures Inv(s.(accepts := s.accepts - {r}))
  {
    hide HoldInv, CallInv, ConfirmInv, DraftInv, LedgerInv;
    DropHolds(s.rows, s.holder, s.ledger.transactions, s.accepts, r);
  }

  ghost predicate ConfirmKnows(q: Confirm, ts: Transactions, rows: Table) {
    && q.tid in ts && SameParties(q.seen, ts[q.tid])
    && (q.actor == q.seen.owner || q.actor == q.seen.requester)
    && (PastReread(q.pc) ==> BothConfirmed(ts[q.tid]))
    && (PastReread(q.pc) && q.pc.targetDone ==> IsCompleted(rows, q.seen.target))
    && (q.pc.Completing? && q.pc.offeredDone && q.seen.offered.Some? ==> IsCompleted(rows, q.seen.offered.value))
  }

  lemma MoveConfirm(s: State, r: nat, q: Confirm)
    requires Inv(s) && r < s.next && ConfirmKnows(q, s.ledger.transactions, s.rows)
    requires q.pc.WaitingComplete? ==> q.pc.call < s.next
    requires q.pc.WaitingComplete? && q.pc.call in s.calls ==>
               var c := s.calls[q.pc.call];
               c.kind.CompleteCall? && c.caller == r && NextToComplete(q.seen, q.pc.targetDone, false) == Some(c.listing)
    ensures Inv(s.(confirms := s.confirms[r := q]))
  {
    hide HoldInv, CallInv, AcceptInv, DraftInv, LedgerInv;
  }

  lemma ConfirmFacts(s: State, r: nat)
    requires Inv(s) && r in s.confirms
    ensures r < s.next && ConfirmKnows(s.confirms[r], s.ledger.transactions, s.rows)
  {
    hide HoldInv, CallInv, AcceptInv, DraftInv, LedgerInv;
  }

  lemma DropConfirm(s: State, r: nat)
    requires Inv(s)
    ensures Inv(s.(confirms := s.confirms - {r}))
  {
    hide HoldInv, CallInv, AcceptInv, DraftInv, LedgerInv;
  }

  lemma PutCreate(s: State, r: nat, c: Option<Create>)
    requires Inv(s) && r < s.next && (c.Some? ==> CreateKnows(c.value, s.rows))
    ensures Inv(s.(creates := Put(s.creates, r, c)))
  {
    hide HoldInv, CallInv, AcceptInv, ConfirmInv, LedgerInv, CreateKnows;
  }

  lemma PutDecline(s: State, r: nat, d: Option<Decline>)
    requires Inv(s) && r < s.next
    requires d.Some? ==>
      && d.value.id in s.ledger.proposals && SameIds(d.value.p, s.ledger.proposals[d.value.id])
      && (d.value.checked ==> d.value.p.target in s.rows && s.rows[d.value.p.target].owner == d.value.owner)
    ensures Inv(s.(declines := Put(s.declines, r, d)))
  {
    hide HoldInv, CallInv, AcceptInv, ConfirmInv, LedgerInv;
  }

  /** A number is taken. */
  lemma NextGrows(s: State)
    requires Inv(s)
    ensures Inv(s.(next := s.next + 1))
  {
    hide HoldInv, CallInv, AcceptInv, ConfirmInv, DraftInv, LedgerInv;
  }

  // ----- Ledger

  /** A proposal's status is the one thing requests in flight do not rely on. */
  lemma ResolveKeeps(s: State, ps: Proposals)
    requires Inv(s)
    requires forall p :: p in s.ledger.proposals ==> p in ps && SameIds(s.ledger.proposals[p], ps[p])
    ensures AcceptInv(s.accepts, ps, s.rows, s.calls) && DraftInv(s.creates, s.declines, ps, s.rows)
  {
    hide HoldInv, CallInv, ConfirmInv, LedgerInv, Numbered;
  }

  /** A transaction's flags and status move forward; what it says about listings is already true of them. */
  ghost predicate Settles(s: State, tid: Id, t: Transaction) {
    && tid in s.ledger.transactions && SameParties(t, s.ledger.transactions[tid])
    && (BothConfirmed(s.ledger.transactions[tid]) ==> BothConfirmed(t))
    && !t.status.Cancelled?
    && (s.ledger.transactions[tid].status.Completed? ==> t.status.Completed?)
    && (t.status.Completed? ==>
          && BothConfirmed(t) && IsCompleted(s.rows, t.target)
          && (t.offered.Some? ==> IsCompleted(s.rows, t.offered.value)))
  }

  lemma SettleInv(s: State, tid: Id, t: Transaction)
    requires Inv(s) && Settles(s, tid, t)
    ensures Inv(s.(ledger := s.ledger.(transactions := s.ledger.transactions[tid := t])))
  {
    hide HoldInv, CallInv, AcceptInv, ConfirmInv, DraftInv, LedgerInv;
    SettleHolds(s, tid, t);
    SettleConfirms(s, tid, t);
    SettleLedger(s, tid, t);
  }

  lemma SettleHolds(s: State, tid: Id, t: Transaction)
    requires HoldInv(s.rows, s.holder, s.ledger.transactions, s.accepts) && Settles(s, tid, t)
    requires CallInv(s.calls, s.rows, s.holder, s.ledger.transactions)
    ensures HoldInv(s.rows, s.holder, s.ledger.transactions[tid := t], s.accepts)
    ensures CallInv(s.calls, s.rows, s.holder, s.ledger.transactions[tid := t])
  {
  }

  lemma SettleConfirms(s: State, tid: Id, t: Transaction)
    requires ConfirmInv(s.confirms, s.ledger.transactions, s.rows, s.calls) && Settles(s, tid, t)
    ensures ConfirmInv(s.confirms, s.ledger.transactions[tid := t], s.rows, s.calls)
  {
  }

  lemma SettleLedger(s: State, tid: Id, t: Transaction)
    requires LedgerInv(s.ledger, s.rows, s.announced) && Settles(s, tid, t)
    ensures LedgerInv(s.ledger.(transactions := s.ledger.transactions[tid := t]), s.rows, s.announced)
  {
    SettleKeepsConsistent(s.ledger, tid, t);
    hide Consistent;
  }

  // ----- Actions: Catalog

  lemma InitInv()
    ensures Inv(INIT)
  {
  }

  lemma StepListingCreated(s: State, id: Id, owner: Id, operation: OperationType)
    requires Inv(s)
    ensures Inv(ListingCreated(s, id, owner, operation))
  {
    hide HoldInv, CallInv, AcceptInv, ConfirmInv, DraftInv, LedgerInv;
    if id !in s.rows {
      var row := Snapshot(owner, operation, ListingStatus.Pending, Available);
      AdvanceKeeps(s, s.rows[id := row]);
      QuietRows(s.rows, s.holder, s.ledger.transactions, s.accepts, s.calls, id, row);
    }
  }

  lemma StepListingModerated(s: State, id: Id, operation: OperationType, status: ListingStatus)
    requires Inv(s)
    ensures Inv(ListingModerated(s, id, operation, status))
  {
    hide HoldInv, CallInv, AcceptInv, ConfirmInv, DraftInv, LedgerInv;
    if id in s.rows {
      var row := s.rows[id].(operation := operation, status := status);
      AdvanceKeeps(s, s.rows[id := row]);
      QuietRows(s.rows, s.holder, s.ledger.transactions, s.accepts, s.calls, id, row);
    }
  }

  lemma StepServerReserve(s: State, c: nat)
    requires Inv(s)
    ensures Inv(ServerReserve(s, c))
  {
    hide HoldInv, CallInv, AcceptInv, ConfirmInv, DraftInv, LedgerInv;
    if c in s.calls && s.calls[c].kind.ReserveCall? && s.calls[c].stage.Sent? {
      var id := s.calls[c].listing;
      if CanReserve(s.rows, id) {
        ReserveAnswered(s.calls, s.rows, s.holder, s.ledger.transactions, s.accepts, c);
        ReserveHolds(s.rows, s.holder, s.ledger.transactions, s.accepts, id, c);
      } else {
        ReserveRefused(s.calls, s.rows, s.holder, s.ledger.transactions, c);
      }
      var t := ServerReserve(s, c);
      AdvanceKeeps(s, t.rows);
      ProgressAwaits(s.accepts, s.confirms, s.ledger.proposals, s.ledger.transactions, t.rows, s.calls, c, t.calls[c].stage);
    }
  }

  lemma StepServerRead(s: State, c: nat)
    requires Inv(s)
    ensures Inv(ServerRead(s, c))
  {
    hide HoldInv, CallInv, AcceptInv, ConfirmInv, DraftInv, LedgerInv;
    if c in s.calls && !s.calls[c].kind.ReserveCall? && s.calls[c].stage.Sent? {
      ReadAnswered(s.calls, s.rows, s.holder, s.ledger.transactions, s.accepts, c);
      ProgressAwaits(s.accepts, s.confirms, s.ledger.proposals, s.ledger.transactions, s.rows, s.calls, c, ServerRead(s, c).calls[c].stage);
    }
  }

  lemma PausedIsNoReserve(calls: Calls, rows: Table, holder: Holders, ts: Transactions, c: nat)
    requires CallInv(calls, rows, holder, ts) && c in calls && calls[c].stage.SawReserved?
    ensures !calls[c].kind.ReserveCall?
  {
  }

  lemma StepServerWrite(s: State, c: nat)
    requires Inv(s)
    ensures Inv(ServerWrite(s, c))
  {
    hide HoldInv, CallInv, AcceptInv, ConfirmInv, DraftInv, LedgerInv;
    if c in s.calls && s.calls[c].stage.SawReserved? && s.calls[c].listing in s.rows {
      PausedIsNoReserve(s.calls, s.rows, s.holder, s.ledger.transactions, c);
      ReadFindsHeld(s.calls, s.rows, s.holder, s.ledger.transactions, s.accepts, c);
      var t := ServerWrite(s, c);
      if s.calls[c].kind.ReleaseCall? {
        ReleaseWritten(s.calls, s.rows, s.holder, s.ledger.transactions, s.accepts, c);
      } else {
        CompleteWritten(s.calls, s.rows, s.holder, s.ledger.transactions, s.accepts, c);
      }
      AdvanceKeeps(s, t.rows);
      ProgressAwaits(s.accepts, s.confirms, s.ledger.proposals, s.ledger.transactions, t.rows, s.calls, c, Answered(true));
    }
  }

  lemma StepServerLost(s: State, c: nat)
    requires Inv(s)
    ensures Inv(ServerLost(s, c))
  {
    hide Inv;
    DropCall(s, c);
  }

  // ----- Actions: create and reject

  lemma StepCreateStart(s: State, p: Proposal)
    requires Inv(s)
    ensures Inv(CreateStart(s, p))
  {
    hide Inv;
    NextGrows(s);
    PutCreate(s.(next := s.next + 1), s.next, Some(Create(p, Started)));
  }

  lemma CreateFacts(s: State, r: nat)
    requires Inv(s) && r in s.creates
    ensures r < s.next && CreateKnows(s.creates[r], s.rows)
  {
    hide HoldInv, CallInv, AcceptInv, ConfirmInv, LedgerInv, CreateKnows;
  }

  lemma StepCreateReadTarget(s: State, r: nat)
    requires Inv(s)
    ensures Inv(CreateReadTarget(s, r))
  {
    hide Inv;
    if r in s.creates && s.creates[r].pc.Started? {
      CreateFacts(s, r);
      PutCreate(s, r, ReadTargetForCreate(s.creates[r], s.rows));
    }
  }

  lemma StepCreateReadOffered(s: State, r: nat)
    requires Inv(s)
    ensures Inv(CreateReadOffered(s, r))
  {
    hide Inv;
    if r in s.creates && s.creates[r].pc.CreateTargetRead? {
      CreateFacts(s, r);
      PutCreate(s, r, ReadOfferedForCreate(s.creates[r], s.rows));
    }
  }

  lemma StepCreateInsert(s: State, r: nat, id: Id)
    requires Inv(s)
    ensures Inv(CreateInsert(s, r, id))
  {
    hide Inv;
    if r in s.creates && s.creates[r].pc.Checked? && id !in s.ledger.proposals {
      CreateFacts(s, r);
      PutCreate(s, r, None);
      InsertInv(s.(creates := s.creates - {r}), id, s.creates[r].p);
    }
  }

  lemma InsertInv(s: State, id: Id, p: Proposal)
    requires Inv(s) && id !in s.ledger.proposals && ProposalSound(p, s.rows)
    ensures Inv(s.(ledger := InsertProposal(s.ledger, id, p)))
  {
    ResolveKeeps(s, InsertProposal(s.ledger, id, p).proposals);
    InsertKeepsConsistent(s.ledger, id, p);
    hide HoldInv, CallInv, AcceptInv, ConfirmInv, DraftInv, Consistent;
  }

  lemma StepDeclineLoad(s: State, id: Id, owner: Id)
    requires Inv(s)
    ensures Inv(DeclineLoad(s, id, owner))
  {
    hide Inv;
    if id in s.ledger.proposals {
      NextGrows(s);
      PutDecline(s.(next := s.next + 1), s.next, Some(Decline(id, s.ledger.proposals[id], owner, false)));
    }
  }

  lemma DeclineFacts(s: State, r: nat)
    requires Inv(s) && r in s.declines
    ensures var d := s.declines[r];
            && r < s.next && d.id in s.ledger.proposals && SameIds(d.p, s.ledger.proposals[d.id])
            && (d.checked ==> d.p.target in s.rows && s.rows[d.p.target].owner == d.owner)
  {
    hide HoldInv, CallInv, AcceptInv, ConfirmInv, LedgerInv;
  }

  lemma StepDeclineCheck(s: State, r: nat)
    requires Inv(s)
    ensures Inv(DeclineCheck(s, r))
  {
    hide Inv;
    if r in s.declines && !s.declines[r].checked {
      DeclineFacts(s, r);
      PutDecline(s, r, CheckOwner(s.declines[r], s.rows));
    }
  }

  lemma StepDeclineCommit(s: State, r: nat, eventId: string, at: string)
    requires Inv(s)
    ensures Inv(DeclineCommit(s, r, eventId, at))
  {
    hide Inv;
    if r in s.declines && s.declines[r].checked && FreshEventId(s.ledger.outbox, eventId) {
      DeclineFacts(s, r);
      PutDecline(s, r, None);
      if IsPending(s.ledger, s.declines[r].id) {
        RejectInv(s.(declines := s.declines - {r}), s.declines[r], eventId, at);
      }
    }
  }

  lemma RejectInv(s: State, d: Decline, eventId: string, at: string)
    requires Inv(s) && IsPending(s.ledger, d.id) && SameIds(d.p, s.ledger.proposals[d.id]) && FreshEventId(s.ledger.outbox, eventId)
    requires d.p.target in s.rows && s.rows[d.p.target].owner == d.owner
    ensures Inv(s.(ledger := RejectTx(s.ledger, d.id, d.p, d.owner, eventId, at).value))
  {
    var l := RejectTx(s.ledger, d.id, d.p, d.owner, eventId, at).value;
    ResolveKeeps(s, l.proposals);
    RejectKeepsConsistent(s.ledger, d.id, d.p, d.owner, eventId, at);
    hide HoldInv, CallInv, AcceptInv, ConfirmInv, DraftInv, Consistent;
  }

  // ----- Actions: accept

  lemma AcceptFacts(s: State, r: nat)
    requires Inv(s) && r in s.accepts
    ensures AcceptKnows(s.accepts[r], s.ledger.proposals, s.rows)
    ensures s.accepts[r].p.offered != Some(s.accepts[r].p.target)
    ensures s.accepts[r].targetReserved ==> IsHeld(s.holder, s.accepts[r].p.target, ByAccept(r))
    ensures s.accepts[r].offeredReserved ==> IsHeld(s.holder, s.accepts[r].p.offered.value, ByAccept(r))
  {
    hide CallInv, ConfirmInv, DraftInv;
    assert ProposalSound(s.ledger.proposals[s.accepts[r].id], s.rows);
  }

  lemma StepAcceptLoad(s: State, id: Id, owner: Id)
    requires Inv(s)
    ensures Inv(AcceptLoad(s, id, owner))
  {
    if id in s.ledger.proposals {
      var a := Accept(id, s.ledger.proposals[id], owner, false, false, Loaded);
      LoadHolds(s, s.next, a);
      hide HoldInv, CallInv, ConfirmInv, DraftInv, LedgerInv;
      MoveKnows(s.accepts, s.ledger.proposals, s.rows, s.calls, s.next, a);
      hide AcceptInv;
    }
  }

  lemma LoadHolds(s: State, r: nat, a: Accept)
    requires HoldInv(s.rows, s.holder, s.ledger.transactions, s.accepts) && HoldersNumbered(s.holder, r)
    requires !a.targetReserved && !a.offeredReserved
    ensures HoldInv(s.rows, s.holder, s.ledger.transactions, s.accepts[r := a])
  {
  }

  lemma PutAccept(s: State, r: nat, a: Option<Accept>)
    requires Inv(s) && r in s.accepts
    requires a.Some? ==>
      && a.value.p == s.accepts[r].p && !a.value.pc.Waiting?
      && a.value.targetReserved == s.accepts[r].targetReserved && a.value.offeredReserved == s.accepts[r].offeredReserved
      && AcceptKnows(a.value, s.ledger.proposals, s.rows)
    ensures Inv(s.(accepts := Put(s.accepts, r, a)))
  {
    hide Inv;
    if a.Some? {
      MoveAccept(s, r, a.value);
    } else {
      DropAccept(s, r);
    }
  }

  lemma StepAcceptReadTarget(s: State, r: nat)
    requires Inv(s)
    ensures Inv(AcceptReadTarget(s, r))
  {
    hide Inv;
    if r in s.accepts && s.accepts[r].pc.Loaded? {
      AcceptFacts(s, r);
      PutAccept(s, r, ReadTargetForAccept(s.accepts[r], s.rows));
    }
  }

  lemma StepAcceptReadOffered(s: State, r: nat)
    requires Inv(s)
    ensures Inv(AcceptReadOffered(s, r))
  {
    hide Inv;
    if r in s.accepts && s.accepts[r].pc.TargetRead? {
      AcceptFacts(s, r);
      PutAccept(s, r, ReadOfferedForAccept(s.accepts[r], s.rows));
    }
  }

  lemma StepAcceptIssue(s: State, r: nat)
    requires Inv(s)
    ensures Inv(AcceptIssue(s, r))
  {
    hide Inv;
    if r in s.accepts && s.accepts[r].pc.Reserving? && NextToReserve(s.accepts[r]).Some? {
      AcceptFacts(s, r);
      var call := Call(ReserveCall, NextToReserve(s.accepts[r]).value, r, Sent);
      IssueCall(s, call);
      MoveAccept(s.(calls := s.calls[s.next := call], next := s.next + 1), r, s.accepts[r].(pc := Waiting(s.next)));
    }
  }

  lemma AwaitFacts(s: State, r: nat)
    requires Inv(s) && r in s.accepts && s.accepts[r].pc.Waiting? && Answer(s, s.accepts[r].pc.call, true)
    ensures var c := s.accepts[r].pc.call;
            NextToReserve(s.accepts[r]) == Some(s.calls[c].listing) && IsHeld(s.holder, s.calls[c].listing, ByReserve(c))
  {
    hide HoldInv, ConfirmInv, DraftInv, LedgerInv;
  }

  lemma StepAcceptSeen(s: State, r: nat)
    requires Inv(s)
    ensures Inv(AcceptSeen(s, r))
  {
    hide Inv;
    if r in s.accepts && s.accepts[r].pc.Waiting? && Answer(s, s.accepts[r].pc.call, true) {
      var c := s.accepts[r].pc.call;
      AwaitFacts(s, r);
      DropCall(s, c);
      TakeHold(s.(calls := s.calls - {c}), r, s.calls[c].listing);
    }
  }

  /** The reply arrives: the hold passes from the call to the acceptance. */
  lemma TakeHold(s: State, r: nat, l: Id)
    requires Inv(s) && r in s.accepts && s.accepts[r].pc.Waiting? && NextToReserve(s.accepts[r]) == Some(l)
    requires l in s.holder && s.holder[l].ByReserve? && s.holder[l].call !in s.calls
    ensures Inv(s.(accepts := s.accepts[r := WithHold(s.accepts[r])], holder := s.holder[l := ByAccept(r)]))
  {
    AcceptFacts(s, r);
    hide HoldInv, CallInv, AcceptInv, ConfirmInv, DraftInv, LedgerInv;
    TakeHoldHolds(s, r, l);
    TakeHoldCalls(s, r, l);
    MoveKnows(s.accepts, s.ledger.proposals, s.rows, s.calls, r, WithHold(s.accepts[r]));
  }

  lemma TakeHoldHolds(s: State, r: nat, l: Id)
    requires HoldInv(s.rows, s.holder, s.ledger.transactions, s.accepts)
    requires r in s.accepts && NextToReserve(s.accepts[r]) == Some(l) && l in s.holder && s.holder[l].ByReserve?
    requires s.accepts[r].offeredReserved ==> s.accepts[r].targetReserved
    ensures HoldInv(s.rows, s.holder[l := ByAccept(r)], s.ledger.transactions, s.accepts[r := WithHold(s.accepts[r])])
  {
  }

  lemma TakeHoldCalls(s: State, r: nat, l: Id)
    requires CallInv(s.calls, s.rows, s.holder, s.ledger.transactions)
    requires l in s.holder && s.holder[l].ByReserve? && s.holder[l].call !in s.calls
    ensures CallInv(s.calls, s.rows, s.holder[l := ByAccept(r)], s.ledger.transactions)
  {
  }

  lemma StepAcceptRefused(s: State, r: nat)
    requires Inv(s)
    ensures Inv(AcceptRefused(s, r))
  {
    hide Inv;
    if r in s.accepts && s.accepts[r].pc.Waiting? && Answer(s, s.accepts[r].pc.call, false) {
      var c := s.accepts[r].pc.call;
      AcceptFacts(s, r);
      DropCall(s, c);
      MoveAccept(s.(calls := s.calls - {c}), r, s.accepts[r].(pc := Undoing));
    }
  }

  lemma StepAcceptInDoubt(s: State, r: nat)
    requires Inv(s)
    ensures Inv(AcceptInDoubt(s, r))
  {
    hide Inv;
    if r in s.accepts && s.accepts[r].pc.Waiting? {
      AcceptFacts(s, r);
      MoveAccept(s, r, s.accepts[r].(pc := Undoing));
    }
  }

  lemma StepAcceptAbort(s: State, r: nat)
    requires Inv(s)
    ensures Inv(AcceptAbort(s, r))
  {
    hide Inv;
    if ReadyToCommit(s, r) {
      AcceptFacts(s, r);
      MoveAccept(s, r, s.accepts[r].(pc := Undoing));
    }
  }

  ghost predicate Committing(s: State, r: nat, tid: Id, rivals: seq<Rival>) {
    && ReadyToCommit(s, r) && tid !in s.ledger.transactions && IsPending(s.ledger, s.accepts[r].id)
    && Enumerates(rivals, RivalIds(s.ledger.proposals, s.accepts[r].id, s.accepts[r].p.target), s.ledger.outbox)
  }

  lemma StepAcceptCommit(s: State, r: nat, tid: Id, rivals: seq<Rival>, at: string)
    requires Inv(s)
    ensures Inv(AcceptCommit(s, r, tid, rivals, at))
  {
    hide Inv;
    if ReadyToCommit(s, r) && tid !in s.ledger.transactions
       && Enumerates(rivals, RivalIds(s.ledger.proposals, s.accepts[r].id, s.accepts[r].p.target), s.ledger.outbox) {
      if IsPending(s.ledger, s.accepts[r].id) {
        CommitInv(s, r, tid, rivals, at);
      } else {
        AcceptFacts(s, r);
        MoveAccept(s, r, s.accepts[r].(pc := Undoing));
      }
    }
  }

  lemma CommitInv(s: State, r: nat, tid: Id, rivals: seq<Rival>, at: string)
    requires Inv(s) && Committing(s, r, tid, rivals)
    ensures Inv(AcceptCommit(s, r, tid, rivals, at))
  {
    hide HoldInv, CallInv, AcceptInv, ConfirmInv, DraftInv, LedgerInv;
    var a := s.accepts[r];
    var t := AcceptCommit(s, r, tid, rivals, at);
    AcceptFacts(s, r);
    ResolveKeeps(s, t.ledger.proposals);
    CommitRequests(s, r, tid, t);
    CommitHolds(s, r, tid, t.ledger.transactions[tid]);
    CommitCalls(s, r, tid, t.ledger.transactions[tid]);
    CommitLedger(s, r, tid, rivals, at);
  }

  lemma CommitHolds(s: State, r: nat, tid: Id, t: Transaction)
    requires HoldInv(s.rows, s.holder, s.ledger.transactions, s.accepts)
    requires ReadyToCommit(s, r) && tid !in s.ledger.transactions
    requires t.target == s.accepts[r].p.target && t.offered == s.accepts[r].p.offered
    ensures HoldInv(s.rows, HandOver(s.holder, s.accepts[r].p, tid), s.ledger.transactions[tid := t], s.accepts - {r})
  {
  }

  lemma CommitCalls(s: State, r: nat, tid: Id, t: Transaction)
    requires CallInv(s.calls, s.rows, s.holder, s.ledger.transactions)
    requires r in s.accepts && tid !in s.ledger.transactions && IsHeld(s.holder, s.accepts[r].p.target, ByAccept(r))
    requires s.accepts[r].p.offered.Some? ==> IsHeld(s.holder, s.accepts[r].p.offered.value, ByAccept(r))
    ensures CallInv(s.calls, s.rows, HandOver(s.holder, s.accepts[r].p, tid), s.ledger.transactions[tid := t])
  {
  }

  lemma CommitRequests(s: State, r: nat, tid: Id, t: State)
    requires AcceptInv(s.accepts, t.ledger.proposals, s.rows, s.calls)
    requires ConfirmInv(s.confirms, s.ledger.transactions, s.rows, s.calls)
    requires tid !in s.ledger.transactions && tid in t.ledger.transactions
    requires t.ledger.transactions == s.ledger.transactions[tid := t.ledger.transactions[tid]]
    ensures AcceptInv(s.accepts - {r}, t.ledger.proposals, s.rows, s.calls)
    ensures ConfirmInv(s.confirms, t.ledger.transactions, s.rows, s.calls)
  {
  }

  lemma CommitRowsNameOwner(s: State, r: nat, tid: Id, rivals: seq<Rival>, at: string)
    requires Committing(s, r, tid, rivals) && RowsNameOwner(s.ledger.outbox, s.rows) && AcceptKnows(s.accepts[r], s.ledger.proposals, s.rows)
    ensures RowsNameOwner(AcceptCommit(s, r, tid, rivals, at).ledger.outbox, s.rows)
  {
    hide FreshEventId, RejectAll, Resolve;
    var a := s.accepts[r];
    var l := AcceptTx(s.ledger, a.id, a.p, a.owner, tid, rivals, at).value;
    forall i | 0 <= i < |l.outbox|
      ensures l.outbox[i].payload.target in s.rows && l.outbox[i].payload.owner == s.rows[l.outbox[i].payload.target].owner
    {
      if i >= |s.ledger.outbox| {
        assert rivals[i - |s.ledger.outbox|].proposal in RivalIds(s.ledger.proposals, a.id, a.p.target);
      }
    }
  }

  lemma CommitLedger(s: State, r: nat, tid: Id, rivals: seq<Rival>, at: string)
    requires Committing(s, r, tid, rivals) && LedgerInv(s.ledger, s.rows, s.announced)
    requires AcceptKnows(s.accepts[r], s.ledger.proposals, s.rows)
    ensures LedgerInv(AcceptCommit(s, r, tid, rivals, at).ledger, s.rows, s.announced)
  {
    var a := s.accepts[r];
    AcceptKeepsConsistent(s.ledger, a.id, a.p, a.owner, tid, rivals, at);
    CommitRowsNameOwner(s, r, tid, rivals, at);
    hide Consistent, RowsNameOwner, Enumerates, RivalRows;
  }

  /** The acceptance stops counting on `l`. */
  ghost predicate Forgets(a: Accept, b: Accept, l: Id) {
    && a.p.offered != Some(a.p.target) && a.pc.Undoing?
    && if a.offeredReserved then a.p.offered == Some(l) && b == a.(offeredReserved := false)
       else a.targetReserved && a.p.target == l && b == a.(targetReserved := false)
  }

  lemma StepAcceptRelease(s: State, r: nat)
    requires Inv(s)
    ensures Inv(AcceptRelease(s, r))
  {
    hide Inv;
    if r in s.accepts && s.accepts[r].pc.Undoing? {
      AcceptFacts(s, r);
      var a := s.accepts[r];
      if a.offeredReserved && a.p.offered.Some? {
        IssueRelease(s, r, a.(offeredReserved := false), a.p.offered.value);
      } else if a.targetReserved {
        IssueRelease(s, r, a.(targetReserved := false), a.p.target);
      } else {
        DropAccept(s, r);
      }
    }
  }

  /** The hold passes from the acceptance to the release call. */
  lemma IssueRelease(s: State, r: nat, a: Accept, l: Id)
    requires Inv(s) && r in s.accepts && Forgets(s.accepts[r], a, l)
    ensures Inv(s.(calls := s.calls[s.next := Call(ReleaseCall, l, r, Sent)], accepts := s.accepts[r := a],
                   holder := s.holder[l := ByRelease(s.next)], next := s.next + 1))
  {
    hide HoldInv, CallInv, AcceptInv, ConfirmInv, DraftInv, LedgerInv;
    AcceptFacts(s, r);
    NextIsUnused(s);
    var t := s.(accepts := s.accepts[r := a], holder := s.holder[l := ByRelease(s.next)], next := s.next + 1);
    LetGoHolds(s, r, a, l);
    LetGoCalls(s, r, l);
    MoveKnows(s.accepts, s.ledger.proposals, s.rows, s.calls, r, a);
    CallIssued(t, s.next, Call(ReleaseCall, l, r, Sent));
  }

  lemma LetGoHolds(s: State, r: nat, a: Accept, l: Id)
    requires HoldInv(s.rows, s.holder, s.ledger.transactions, s.accepts) && r in s.accepts && Forgets(s.accepts[r], a, l)
    ensures HoldInv(s.rows, s.holder[l := ByRelease(s.next)], s.ledger.transactions, s.accepts[r := a])
  {
  }

  lemma LetGoCalls(s: State, r: nat, l: Id)
    requires CallInv(s.calls, s.rows, s.holder, s.ledger.transactions)
    requires IsHeld(s.holder, l, ByAccept(r)) && s.next !in s.calls
    ensures CallInv(s.calls, s.rows, s.holder[l := ByRelease(s.next)], s.ledger.transactions)
  {
  }

  lemma StepAcceptCrash(s: State, r: nat)
    requires Inv(s)
    ensures Inv(AcceptCrash(s, r))
  {
    hide Inv;
    DropAccept(s, r);
  }

  // ----- Actions: confirm

  lemma StepConfirmLoad(s: State, tid: Id, actor: Id)
    requires Inv(s)
    ensures Inv(ConfirmLoad(s, tid, actor))
  {
    hide Inv;
    if tid in s.ledger.transactions && CanConfirm(s.ledger.transactions[tid], actor).None? {
      NextGrows(s);
      MoveConfirm(s.(next := s.next + 1), s.next, Confirm(tid, actor, s.ledger.transactions[tid], OwnerTurn));
    }
  }

  /** Each party's flag may be set: the transaction settles no further than that. */
  lemma ConfirmingSettles(s: State, tid: Id, t: Transaction)
    requires Inv(s) && tid in s.ledger.transactions
    requires t == s.ledger.transactions[tid].(ownerConfirmed := true) || t == s.ledger.transactions[tid].(requesterConfirmed := true)
    ensures Settles(s, tid, t)
  {
    hide HoldInv, CallInv, AcceptInv, ConfirmInv, DraftInv;
  }

  lemma StepConfirmOwner(s: State, r: nat)
    requires Inv(s)
    ensures Inv(ConfirmOwner(s, r))
  {
    hide Inv;
    if ConfirmAt(s, r) && s.confirms[r].pc.OwnerTurn? {
      var q := s.confirms[r];
      ConfirmFacts(s, r);
      MoveConfirm(s, r, q.(pc := RequesterTurn));
      var t := s.(confirms := s.confirms[r := q.(pc := RequesterTurn)]);
      ConfirmingSettles(t, q.tid, s.ledger.transactions[q.tid].(ownerConfirmed := true));
      SettleInv(t, q.tid, s.ledger.transactions[q.tid].(ownerConfirmed := true));
    }
  }

  lemma StepConfirmRequester(s: State, r: nat)
    requires Inv(s)
    ensures Inv(ConfirmRequester(s, r))
  {
    hide Inv;
    if ConfirmAt(s, r) && s.confirms[r].pc.RequesterTurn? {
      var q := s.confirms[r];
      ConfirmFacts(s, r);
      MoveConfirm(s, r, q.(pc := Rereading));
      var t := s.(confirms := s.confirms[r := q.(pc := Rereading)]);
      ConfirmingSettles(t, q.tid, s.ledger.transactions[q.tid].(requesterConfirmed := true));
      SettleInv(t, q.tid, s.ledger.transactions[q.tid].(requesterConfirmed := true));
    }
  }

  lemma StepConfirmReread(s: State, r: nat)
    requires Inv(s)
    ensures Inv(ConfirmReread(s, r))
  {
    hide Inv;
    if ConfirmAt(s, r) && s.confirms[r].pc.Rereading? {
      ConfirmFacts(s, r);
      var next := Reread(s.confirms[r], s.ledger.transactions[s.confirms[r].tid]);
      if next.Some? {
        MoveConfirm(s, r, next.value);
      } else {
        DropConfirm(s, r);
      }
    }
  }

  lemma HeldByOwnTransaction(s: State, tid: Id, l: Id)
    requires Inv(s) && tid in s.ledger.transactions && Involves(s.ledger.transactions[tid], l) && BothConfirmed(s.ledger.transactions[tid])
    ensures HeldByConfirmed(s.holder, s.ledger.transactions, l)
  {
    hide CallInv, AcceptInv, ConfirmInv, DraftInv, LedgerInv;
  }

  lemma StepConfirmIssue(s: State, r: nat)
    requires Inv(s)
    ensures Inv(ConfirmIssue(s, r))
  {
    hide Inv;
    if r in s.confirms && s.confirms[r].pc.Completing? {
      var q := s.confirms[r];
      var id := NextToComplete(q.seen, q.pc.targetDone, q.pc.offeredDone);
      if id.Some? {
        ConfirmFacts(s, r);
        HeldByOwnTransaction(s, q.tid, id.value);
        var call := Call(CompleteCall, id.value, r, Sent);
        IssueCall(s, call);
        MoveConfirm(s.(calls := s.calls[s.next := call], next := s.next + 1), r, q.(pc := WaitingComplete(q.pc.targetDone, s.next)));
      }
    }
  }

  lemma CompletedFacts(s: State, r: nat)
    requires Inv(s) && r in s.confirms && s.confirms[r].pc.WaitingComplete? && Answer(s, s.confirms[r].pc.call, true)
    ensures NextToComplete(s.confirms[r].seen, s.confirms[r].pc.targetDone, false).Some?
    ensures IsCompleted(s.rows, NextToComplete(s.confirms[r].seen, s.confirms[r].pc.targetDone, false).value)
  {
    hide HoldInv, AcceptInv, DraftInv, LedgerInv;
  }

  lemma StepConfirmSeen(s: State, r: nat)
    requires Inv(s)
    ensures Inv(ConfirmSeen(s, r))
  {
    hide Inv;
    if r in s.confirms && s.confirms[r].pc.WaitingComplete? && Answer(s, s.confirms[r].pc.call, true) {
      var q := s.confirms[r];
      ConfirmFacts(s, r);
      CompletedFacts(s, r);
      DropCall(s, q.pc.call);
      MoveConfirm(s.(calls := s.calls - {q.pc.call}), r, q.(pc := Completing(true, q.pc.targetDone)));
    }
  }

  lemma StepConfirmClaim(s: State, r: nat, handed: bool)
    requires Inv(s)
    ensures Inv(ConfirmClaim(s, r, handed))
  {
    hide Inv;
    if r in s.confirms && s.confirms[r].pc.Completing? {
      var q := s.confirms[r];
      if NextToComplete(q.seen, q.pc.targetDone, q.pc.offeredDone).None? {
        ConfirmFacts(s, r);
        DropConfirm(s, r);
        if CanClaim(s.ledger, q.tid) {
          var t := s.(confirms := s.confirms - {r});
          SettleInv(t, q.tid, s.ledger.transactions[q.tid].(status := TransactionStatus.Completed));
          Announce(s, t.(ledger := ClaimCompletion(s.ledger, q.tid)), q.tid);
        }
      }
    }
  }

  lemma Announce(s: State, t: State, tid: Id)
    requires Inv(s) && Inv(t) && t.announced == s.announced && CanClaim(s.ledger, tid)
    requires tid in t.ledger.transactions && t.ledger.transactions[tid].status.Completed?
    ensures Inv(t.(announced := t.announced + [tid]))
  {
    hide HoldInv, CallInv, AcceptInv, ConfirmInv, DraftInv, Consistent;
  }

  lemma StepRequestEnds(s: State, r: nat)
    requires Inv(s)
    ensures Inv(RequestEnds(s, r))
  {
    hide HoldInv, CallInv, AcceptInv, LedgerInv;
  }

  // ----- Runs

  lemma ListingKeepsInv(s: State, a: ListingAction)
    requires Inv(s)
    ensures Inv(ApplyListing(s, a))
  {
    hide Inv;
    match a
    case DoListingCreated(id, owner, operation) => StepListingCreated(s, id, owner, operation);
    case DoListingModerated(id, operation, status) => StepListingModerated(s, id, operation, status);
  }

  lemma ServerKeepsInv(s: State, a: ServerAction)
    requires Inv(s)
    ensures Inv(ApplyServer(s, a))
  {
    hide Inv;
    match a
    case DoServerReserve(c) => StepServerReserve(s, c);
    case DoServerRead(c) => StepServerRead(s, c);
    case DoServerWrite(c) => StepServerWrite(s, c);
    case DoServerLost(c) => StepServerLost(s, c);
  }

  lemma DraftKeepsInv(s: State, a: DraftAction)
    requires Inv(s)
    ensures Inv(ApplyDraft(s, a))
  {
    hide Inv;
    match a
    case DoCreateStart(p) => StepCreateStart(s, p);
    case DoCreateReadTarget(r) => StepCreateReadTarget(s, r);
    case DoCreateReadOffered(r) => StepCreateReadOffered(s, r);
    case DoCreateInsert(r, id) => StepCreateInsert(s, r, id);
    case DoDeclineLoad(id, owner) => StepDeclineLoad(s, id, owner);
    case DoDeclineCheck(r) => StepDeclineCheck(s, r);
    case DoDeclineCommit(r, eventId, at) => StepDeclineCommit(s, r, eventId, at);
    case DoRequestEnds(r) => StepRequestEnds(s, r);
  }

  lemma AcceptKeepsInv(s: State, a: AcceptAction)
    requires Inv(s)
    ensures Inv(ApplyAccept(s, a))
  {
    hide Inv;
    match a
    case DoAcceptLoad(id, owner) => StepAcceptLoad(s, id, owner);
    case DoAcceptReadTarget(r) => StepAcceptReadTarget(s, r);
    case DoAcceptReadOffered(r) => StepAcceptReadOffered(s, r);
    case DoAcceptIssue(r) => StepAcceptIssue(s, r);
    case DoAcceptSeen(r) => StepAcceptSeen(s, r);
    case DoAcceptRefused(r) => StepAcceptRefused(s, r);
    case DoAcceptInDoubt(r) => StepAcceptInDoubt(s, r);
    case DoAcceptCommit(r, tid, rivals, at) => StepAcceptCommit(s, r, tid, rivals, at);
    case DoAcceptAbort(r) => StepAcceptAbort(s, r);
    case DoAcceptRelease(r) => StepAcceptRelease(s, r);
    case DoAcceptCrash(r) => StepAcceptCrash(s, r);
  }

  lemma ConfirmKeepsInv(s: State, a: ConfirmAction)
    requires Inv(s)
    ensures Inv(ApplyConfirm(s, a))
  {
    hide Inv;
    match a
    case DoConfirmLoad(tid, actor) => StepConfirmLoad(s, tid, actor);
    case DoConfirmOwner(r) => StepConfirmOwner(s, r);
    case DoConfirmRequester(r) => StepConfirmRequester(s, r);
    case DoConfirmReread(r) => StepConfirmReread(s, r);
    case DoConfirmIssue(r) => StepConfirmIssue(s, r);
    case DoConfirmSeen(r) => StepConfirmSeen(s, r);
    case DoConfirmClaim(r, handed) => StepConfirmClaim(s, r, handed);
  }

  lemma StepKeepsInv(s: State, a: Action)
    requires Inv(s)
    ensures Inv(Apply(s, a))
  {
    hide Inv, ApplyListing, ApplyServer, ApplyDraft, ApplyAccept, ApplyConfirm;
    match a
    case OnListing(x) => ListingKeepsInv(s, x);
    case OnServer(x) => ServerKeepsInv(s, x);
    case OnDraft(x) => DraftKeepsInv(s, x);
    case OnAccept(x) => AcceptKeepsInv(s, x);
    case OnConfirm(x) => ConfirmKeepsInv(s, x);
  }

  /** Every reachable state satisfies the invariant. */
  lemma {:induction false} RunKeepsInv(acts: seq<Action>)
    ensures Inv(Exec(INIT, acts))
  {
    hide Inv;
    if acts == [] {
      InitInv();
    } else {
      RunKeepsInv(acts[..|acts| - 1]);
      StepKeepsInv(Exec(INIT, acts[..|acts| - 1]), acts[|acts| - 1]);
    }
  }
}
