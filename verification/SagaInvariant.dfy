/** What every action of the commit protocol keeps, one predicate per group of tables it speaks of. */
module SagaInvariant {
  import opened Wrappers
  import opened Catalog
  import opened Ledger
  import opened MarketplaceRules
  import opened Saga

  // ----- Listings and their holders

  ghost predicate HoldersKnown(rows: Table, holder: Holders) {
    holder.Keys == rows.Keys
  }

  ghost predicate FreeIffAvailable(rows: Table, holder: Holders) {
    forall l :: l in rows && l in holder ==> (rows[l].availability.Available? <==> holder[l].Free?)
  }

  /** A listing is completed only in the hands of a transaction both parties have confirmed. */
  ghost predicate CompletedHeld(rows: Table, holder: Holders, ts: Transactions) {
    forall l :: l in rows && l in holder && rows[l].availability.Completed? ==> HeldByConfirmed(holder, ts, l)
  }

  ghost predicate HeldByConfirmed(holder: Holders, ts: Transactions, l: Id) {
    l in holder && holder[l].ByTransaction? && holder[l].tid in ts && BothConfirmed(ts[holder[l].tid])
  }

  ghost predicate IsHeld(holder: Holders, l: Id, h: Holder) {
    l in holder && holder[l] == h
  }

  ghost predicate TransactionsHold(holder: Holders, ts: Transactions) {
    forall t :: t in ts ==>
      && IsHeld(holder, ts[t].target, ByTransaction(t))
      && (ts[t].offered.Some? ==> IsHeld(holder, ts[t].offered.value, ByTransaction(t)))
  }

  ghost predicate HoldingTransactionsExist(holder: Holders, ts: Transactions) {
    forall l :: l in holder && holder[l].ByTransaction? ==> holder[l].tid in ts && Involves(ts[holder[l].tid], l)
  }

  /** The listings an acceptance knows it has reserved. */
  predicate Holds(a: Accept, l: Id) {
    || (a.targetReserved && a.p.target == l)
    || (a.offeredReserved && a.p.offered == Some(l))
  }

  ghost predicate AcceptsHold(holder: Holders, accepts: Accepts) {
    forall r :: r in accepts ==>
      && (accepts[r].targetReserved ==> IsHeld(holder, accepts[r].p.target, ByAccept(r)))
      && (accepts[r].offeredReserved ==> accepts[r].p.offered.Some? && IsHeld(holder, accepts[r].p.offered.value, ByAccept(r)))
  }

  ghost predicate HoldingAcceptsHold(holder: Holders, accepts: Accepts) {
    forall l :: l in holder && holder[l].ByAccept? && holder[l].request in accepts ==> Holds(accepts[holder[l].request], l)
  }

  // ----- Catalog calls

  ghost predicate ReservesHold(calls: Calls, holder: Holders) {
    forall c :: c in calls && calls[c].kind.ReserveCall? && calls[c].stage == Answered(true) ==> IsHeld(holder, calls[c].listing, ByReserve(c))
  }

  ghost predicate HoldingReserves(calls: Calls, holder: Holders) {
    forall l :: l in holder && holder[l].ByReserve? && holder[l].call in calls ==>
      var c := calls[holder[l].call];
      c.kind.ReserveCall? && c.stage == Answered(true) && c.listing == l
  }

  ghost predicate ReleasesHold(calls: Calls, holder: Holders) {
    forall c :: c in calls && calls[c].kind.ReleaseCall? && !calls[c].stage.Answered? ==> IsHeld(holder, calls[c].listing, ByRelease(c))
  }

  ghost predicate HoldingReleases(calls: Calls, holder: Holders) {
    forall l :: l in holder && holder[l].ByRelease? && holder[l].call in calls ==>
      var c := calls[holder[l].call];
      c.kind.ReleaseCall? && !c.stage.Answered? && c.listing == l
  }

  ghost predicate CompletesHold(calls: Calls, holder: Holders, ts: Transactions) {
    forall c :: c in calls && calls[c].kind.CompleteCall? ==> HeldByConfirmed(holder, ts, calls[c].listing)
  }

  ghost predicate IsCompleted(rows: Table, l: Id) {
    l in rows && rows[l].availability.Completed?
  }

  ghost predicate CompletesDone(calls: Calls, rows: Table) {
    forall c :: c in calls && calls[c].kind.CompleteCall? && calls[c].stage == Answered(true) ==> IsCompleted(rows, calls[c].listing)
  }

  ghost predicate ReservesNeverPause(calls: Calls) {
    forall c :: c in calls && calls[c].stage.SawReserved? ==> !calls[c].kind.ReserveCall?
  }

  // ----- Requests in flight

  predicate Early(pc: AcceptPc) {
    pc.Loaded? || pc.TargetRead?
  }

  ghost predicate AcceptsKnow(accepts: Accepts, ps: Proposals, rows: Table) {
    forall r :: r in accepts ==> AcceptKnows(accepts[r], ps, rows)
  }

  ghost predicate AcceptKnows(a: Accept, ps: Proposals, rows: Table) {
    && a.id in ps && SameIds(a.p, ps[a.id])
    && (Early(a.pc) ==> !a.targetReserved)
    && (a.offeredReserved ==> a.targetReserved && a.p.offered.Some?)
    && (!a.pc.Loaded? ==> a.p.target in rows && rows[a.p.target].owner == a.owner)
    && (a.pc.Waiting? ==> NextToReserve(a).Some?)
  }

  ghost predicate AcceptsAwait(accepts: Accepts, calls: Calls) {
    forall r :: r in accepts && accepts[r].pc.Waiting? && accepts[r].pc.call in calls ==>
      var c := calls[accepts[r].pc.call];
      c.kind.ReserveCall? && c.caller == r && NextToReserve(accepts[r]) == Some(c.listing)
  }

  predicate PastReread(pc: ConfirmPc) {
    pc.Completing? || pc.WaitingComplete?
  }

  ghost predicate ConfirmsKnow(confirms: Confirms, ts: Transactions) {
    forall r :: r in confirms ==>
      && confirms[r].tid in ts && SameParties(confirms[r].seen, ts[confirms[r].tid])
      && (confirms[r].actor == confirms[r].seen.owner || confirms[r].actor == confirms[r].seen.requester)
      && (PastReread(confirms[r].pc) ==> BothConfirmed(ts[confirms[r].tid]))
  }

  ghost predicate ConfirmsDone(confirms: Confirms, rows: Table) {
    forall r :: r in confirms && PastReread(confirms[r].pc) ==>
      && (confirms[r].pc.targetDone ==> IsCompleted(rows, confirms[r].seen.target))
      && (confirms[r].pc.Completing? && confirms[r].pc.offeredDone && confirms[r].seen.offered.Some? ==>
            IsCompleted(rows, confirms[r].seen.offered.value))
  }

  ghost predicate ConfirmsAwait(confirms: Confirms, calls: Calls) {
    forall r :: r in confirms && confirms[r].pc.WaitingComplete? && confirms[r].pc.call in calls ==>
      var c := calls[confirms[r].pc.call];
      c.kind.CompleteCall? && c.caller == r && NextToComplete(confirms[r].seen, confirms[r].pc.targetDone, false) == Some(c.listing)
  }

  /** Target and offered listing exist, differ, and belong to two different people. */
  ghost predicate ProposalSound(p: Proposal, rows: Table) {
    && p.target in rows && rows[p.target].owner != p.requester
    && (p.offered.Some? ==> p.offered.value != p.target && p.offered.value in rows && rows[p.offered.value].owner == p.requester)
    && (p.kind.TradeOffer? <==> p.offered.Some?)
  }

  ghost predicate CreatesKnow(creates: Creates, rows: Table) {
    forall r :: r in creates ==> CreateKnows(creates[r], rows)
  }

  ghost predicate CreateKnows(c: Create, rows: Table) {
    && (c.pc.CreateTargetRead? ==> c.p.kind.TradeOffer? && c.p.target in rows && rows[c.p.target].owner == c.pc.target.owner)
    && (c.pc.Checked? ==> ProposalSound(c.p, rows))
  }

  ghost predicate DeclinesKnow(declines: Declines, ps: Proposals, rows: Table) {
    forall r :: r in declines ==>
      && declines[r].id in ps && SameIds(declines[r].p, ps[declines[r].id])
      && (declines[r].checked ==> declines[r].p.target in rows && rows[declines[r].p.target].owner == declines[r].owner)
  }

  // ----- Ledger against catalog

  ghost predicate ProposalsSound(ps: Proposals, rows: Table) {
    forall p :: p in ps ==> ProposalSound(ps[p], rows)
  }

  ghost predicate TransactionsSound(ts: Transactions, rows: Table) {
    forall t :: t in ts ==>
      && ts[t].target in rows && ts[t].owner == rows[ts[t].target].owner && ts[t].owner != ts[t].requester
      && ts[t].offered != Some(ts[t].target)
  }

  ghost predicate SettledDone(ts: Transactions, rows: Table) {
    forall t :: t in ts && ts[t].status.Completed? ==>
      && BothConfirmed(ts[t]) && IsCompleted(rows, ts[t].target)
      && (ts[t].offered.Some? ==> IsCompleted(rows, ts[t].offered.value))
  }

  /** Every rejection event names the owner of the listing it was about. */
  ghost predicate RowsNameOwner(outbox: seq<OutboxRow>, rows: Table) {
    forall i :: 0 <= i < |outbox| ==> outbox[i].payload.target in rows && outbox[i].payload.owner == rows[outbox[i].payload.target].owner
  }

  ghost predicate AnnouncedOnce(announced: seq<Id>, ts: Transactions) {
    && (forall i :: 0 <= i < |announced| ==> announced[i] in ts && ts[announced[i]].status.Completed?)
    && (forall i, j :: 0 <= i < j < |announced| ==> announced[i] != announced[j])
  }

  // ----- Numbering of requests and calls

  ghost predicate CallsNumbered(calls: Calls, next: nat) {
    forall c :: c in calls ==> c < next
  }

  ghost predicate AcceptsNumbered(accepts: Accepts, next: nat) {
    forall r :: r in accepts ==> r < next && (accepts[r].pc.Waiting? ==> accepts[r].pc.call < next)
  }

  ghost predicate ConfirmsNumbered(confirms: Confirms, next: nat) {
    forall r :: r in confirms ==> r < next && (confirms[r].pc.WaitingComplete? ==> confirms[r].pc.call < next)
  }

  ghost predicate CreatesNumbered(creates: Creates, next: nat) {
    forall r :: r in creates ==> r < next
  }

  ghost predicate DeclinesNumbered(declines: Declines, next: nat) {
    forall r :: r in declines ==> r < next
  }

  ghost predicate HoldersNumbered(holder: Holders, next: nat) {
    forall l :: l in holder ==>
      match holder[l]
      case ByReserve(c) => c < next
      case ByAccept(r) => r < next
      case ByRelease(c) => c < next
      case _ => true
  }

  // ----- The invariant

  ghost predicate HoldInv(rows: Table, holder: Holders, ts: Transactions, accepts: Accepts) {
    && HoldersKnown(rows, holder)
    && FreeIffAvailable(rows, holder)
    && CompletedHeld(rows, holder, ts)
    && TransactionsHold(holder, ts)
    && HoldingTransactionsExist(holder, ts)
    && AcceptsHold(holder, accepts)
    && HoldingAcceptsHold(holder, accepts)
  }

  ghost predicate CallInv(calls: Calls, rows: Table, holder: Holders, ts: Transactions) {
    && ReservesHold(calls, holder)
    && HoldingReserves(calls, holder)
    && ReleasesHold(calls, holder)
    && HoldingReleases(calls, holder)
    && CompletesHold(calls, holder, ts)
    && CompletesDone(calls, rows)
    && ReservesNeverPause(calls)
  }

  ghost predicate AcceptInv(accepts: Accepts, ps: Proposals, rows: Table, calls: Calls) {
    AcceptsKnow(accepts, ps, rows) && AcceptsAwait(accepts, calls)
  }

  ghost predicate ConfirmInv(confirms: Confirms, ts: Transactions, rows: Table, calls: Calls) {
    ConfirmsKnow(confirms, ts) && ConfirmsDone(confirms, rows) && ConfirmsAwait(confirms, calls)
  }

  ghost predicate DraftInv(creates: Creates, declines: Declines, ps: Proposals, rows: Table) {
    CreatesKnow(creates, rows) && DeclinesKnow(declines, ps, rows)
  }

  ghost predicate LedgerInv(l: Ledger, rows: Table, announced: seq<Id>) {
    && Consistent(l)
    && ProposalsSound(l.proposals, rows)
    && TransactionsSound(l.transactions, rows)
    && SettledDone(l.transactions, rows)
    && RowsNameOwner(l.outbox, rows)
    && AnnouncedOnce(announced, l.transactions)
  }

  ghost predicate Numbered(s: State) {
    && CallsNumbered(s.calls, s.next)
    && AcceptsNumbered(s.accepts, s.next)
    && ConfirmsNumbered(s.confirms, s.next)
    && CreatesNumbered(s.creates, s.next)
    && DeclinesNumbered(s.declines, s.next)
    && HoldersNumbered(s.holder, s.next)
  }

  ghost predicate Inv(s: State) {
    && HoldInv(s.rows, s.holder, s.ledger.transactions, s.accepts)
    && CallInv(s.calls, s.rows, s.holder, s.ledger.transactions)
    && AcceptInv(s.accepts, s.ledger.proposals, s.rows, s.calls)
    && ConfirmInv(s.confirms, s.ledger.transactions, s.rows, s.calls)
    && DraftInv(s.creates, s.declines, s.ledger.proposals, s.rows)
    && LedgerInv(s.ledger, s.rows, s.announced)
    && Numbered(s)
  }
}
