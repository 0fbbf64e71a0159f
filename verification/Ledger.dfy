/**
  Marketplace's own database: proposals, transactions and the rejection outbox, with the atomic statements the
  services run on it. A statement that would throw inside its database transaction yields None: nothing is kept.
*/
module Ledger {
  import opened Wrappers
  import opened Catalog
  import Text

  datatype ProposalKind = DonationRequest | TradeOffer

  datatype ProposalStatus = Pending | Accepted | Rejected | Cancelled

  datatype Proposal = Proposal(target: Id, requester: Id, kind: ProposalKind, offered: Option<Id>, status: ProposalStatus)

  datatype TransactionStatus = InProgress | Completed | Cancelled

  /** The confirmation timestamps are reduced to whether they are set. */
  datatype Transaction = Transaction(proposal: Id, target: Id, offered: Option<Id>, owner: Id, requester: Id,
                                     status: TransactionStatus, ownerConfirmed: bool, requesterConfirmed: bool)

  /** Payload of `proposal.rejected`. */
  datatype Rejection = Rejection(proposal: Id, target: Id, requester: Id, owner: Id)

  datatype OutboxRow = OutboxRow(eventId: string, payload: Rejection, occurredAt: string, published: bool, attempts: nat)

  type Proposals = map<Id, Proposal>

  type Transactions = map<Id, Transaction>

  /** The outbox table lists its rows in creation order. */
  datatype Ledger = Ledger(proposals: Proposals, transactions: Transactions, outbox: seq<OutboxRow>)

  const EMPTY_LEDGER := Ledger(map[], map[], [])

  /** One proposal moved by an automatic rejection, with the event id generated for it. */
  datatype Rival = Rival(proposal: Id, eventId: string)

  predicate Involves(t: Transaction, listing: Id) {
    t.target == listing || t.offered == Some(listing)
  }

  predicate BothConfirmed(t: Transaction) {
    t.ownerConfirmed && t.requesterConfirmed
  }

  /** The columns of a proposal that no statement ever updates. */
  predicate SameIds(p: Proposal, q: Proposal) {
    p.target == q.target && p.requester == q.requester && p.kind == q.kind && p.offered == q.offered
  }

  predicate SameParties(t: Transaction, u: Transaction) {
    && t.proposal == u.proposal && t.target == u.target && t.offered == u.offered
    && t.owner == u.owner && t.requester == u.requester
  }

  predicate IsPending(l: Ledger, id: Id) {
    id in l.proposals && l.proposals[id].status.Pending?
  }

  function Resolve(ps: Proposals, id: Id, status: ProposalStatus): Proposals
    requires id in ps
  {
    ps[id := ps[id].(status := status)]
  }

  /** The pending proposals on `target` other than `id`. */
  function RivalIds(ps: Proposals, id: Id, target: Id): set<Id> {
    set q | q in ps && q != id && ps[q].target == target && ps[q].status.Pending?
  }

  function RejectAll(ps: Proposals, ids: set<Id>): Proposals
    requires ids <= ps.Keys
  {
    map q | q in ps :: if q in ids then ps[q].(status := ProposalStatus.Rejected) else ps[q]
  }

  predicate UsedEventId(outbox: seq<OutboxRow>, eventId: string) {
    exists i :: 0 <= i < |outbox| && outbox[i].eventId == eventId
  }

  /** `randomUUID`: an identifier no row carries yet, short enough for the column. */
  predicate FreshEventId(outbox: seq<OutboxRow>, eventId: string) {
    && !UsedEventId(outbox, eventId)
    && Text.NonBlank(eventId)
    && Text.Utf16Length(eventId) <= 128
  }

  /** What `updateManyAndReturn` hands back: every rival once, in some order, each given a fresh event id. */
  ghost predicate Enumerates(rivals: seq<Rival>, ids: set<Id>, outbox: seq<OutboxRow>) {
    && (forall i :: 0 <= i < |rivals| ==> rivals[i].proposal in ids)
    && (forall q :: q in ids ==> exists i :: 0 <= i < |rivals| && rivals[i].proposal == q)
    && (forall i, j :: 0 <= i < j < |rivals| ==> rivals[i].proposal != rivals[j].proposal && rivals[i].eventId != rivals[j].eventId)
    && (forall i :: 0 <= i < |rivals| ==> FreshEventId(outbox, rivals[i].eventId))
  }

  function RejectionRow(eventId: string, payload: Rejection, at: string): OutboxRow {
    OutboxRow(eventId, payload, at, false, 0)
  }

  function RivalRows(ps: Proposals, rivals: seq<Rival>, owner: Id, at: string): seq<OutboxRow>
    requires forall i :: 0 <= i < |rivals| ==> rivals[i].proposal in ps
  {
    seq(|rivals|, i requires 0 <= i < |rivals| =>
      var p := ps[rivals[i].proposal];
      RejectionRow(rivals[i].eventId, Rejection(rivals[i].proposal, p.target, p.requester, owner), at))
  }

  /** `proposal.create`: the status defaults to Pending. */
  function InsertProposal(l: Ledger, id: Id, p: Proposal): Ledger {
    l.(proposals := l.proposals[id := p.(status := ProposalStatus.Pending)])
  }

  /** The transaction of `reject`: claim the pending proposal and write its outbox row, or throw. */
  function RejectTx(l: Ledger, id: Id, p: Proposal, owner: Id, eventId: string, at: string): Option<Ledger> {
    if IsPending(l, id) then
      Some(l.(proposals := Resolve(l.proposals, id, ProposalStatus.Rejected),
              outbox := l.outbox + [RejectionRow(eventId, Rejection(id, p.target, p.requester, owner), at)]))
    else None
  }

  /** The transaction of `accept`: claim, reject the rivals with their outbox rows, create the transaction. */
  function AcceptTx(l: Ledger, id: Id, p: Proposal, owner: Id, tid: Id, rivals: seq<Rival>, at: string): Option<Ledger>
    requires forall i :: 0 <= i < |rivals| ==> rivals[i].proposal in l.proposals
  {
    if IsPending(l, id) then
      Some(Ledger(
        RejectAll(Resolve(l.proposals, id, ProposalStatus.Accepted), RivalIds(l.proposals, id, p.target)),
        l.transactions[tid := Transaction(id, p.target, p.offered, owner, p.requester, InProgress, false, false)],
        l.outbox + RivalRows(l.proposals, rivals, owner, at)))
    else None
  }

  function ConfirmAsOwner(l: Ledger, tid: Id): Ledger
    requires tid in l.transactions
  {
    l.(transactions := l.transactions[tid := l.transactions[tid].(ownerConfirmed := true)])
  }

  function ConfirmAsRequester(l: Ledger, tid: Id): Ledger
    requires tid in l.transactions
  {
    l.(transactions := l.transactions[tid := l.transactions[tid].(requesterConfirmed := true)])
  }

  predicate CanClaim(l: Ledger, tid: Id) {
    && tid in l.transactions
    && l.transactions[tid].status.InProgress?
    && BothConfirmed(l.transactions[tid])
  }

  /** The conditional completion claim of `confirm`. */
  function ClaimCompletion(l: Ledger, tid: Id): Ledger {
    if CanClaim(l, tid) then
      l.(transactions := l.transactions[tid := l.transactions[tid].(status := TransactionStatus.Completed)])
    else l
  }

  /** The worker's conditional update: it counts the attempt and marks a row that is still pending. */
  function MarkRow(row: OutboxRow, eventId: string, published: bool): OutboxRow {
    if row.eventId == eventId && !row.published then row.(attempts := row.attempts + 1, published := published) else row
  }

  function MarkOutbox(outbox: seq<OutboxRow>, eventId: string, published: bool): seq<OutboxRow> {
    seq(|outbox|, i requires 0 <= i < |outbox| => MarkRow(outbox[i], eventId, published))
  }

  // ----- What every statement keeps

  ghost predicate TransactionsAgree(ps: Proposals, ts: Transactions) {
    forall t :: t in ts ==>
      && ts[t].proposal in ps
      && var p := ps[ts[t].proposal];
         p.status.Accepted? && ts[t].target == p.target && ts[t].offered == p.offered && ts[t].requester == p.requester
  }

  ghost predicate OneTransactionEach(ts: Transactions) {
    forall t, u :: t in ts && u in ts && ts[t].proposal == ts[u].proposal ==> t == u
  }

  ghost predicate HasTransaction(ts: Transactions, proposal: Id) {
    exists t :: t in ts && ts[t].proposal == proposal
  }

  ghost predicate AcceptedHaveTransaction(ps: Proposals, ts: Transactions) {
    forall p :: p in ps && ps[p].status.Accepted? ==> HasTransaction(ts, p)
  }

  ghost predicate HasRow(outbox: seq<OutboxRow>, proposal: Id) {
    exists i :: 0 <= i < |outbox| && outbox[i].payload.proposal == proposal
  }

  ghost predicate RowsAgree(ps: Proposals, outbox: seq<OutboxRow>) {
    forall i :: 0 <= i < |outbox| ==> RowAgrees(ps, outbox[i].payload)
  }

  ghost predicate RowAgrees(ps: Proposals, r: Rejection) {
    && r.proposal in ps
    && ps[r.proposal].status.Rejected? && r.target == ps[r.proposal].target && r.requester == ps[r.proposal].requester
  }

  ghost predicate RowsDistinct(outbox: seq<OutboxRow>) {
    forall i, j :: 0 <= i < j < |outbox| ==>
      outbox[i].eventId != outbox[j].eventId && outbox[i].payload.proposal != outbox[j].payload.proposal
  }

  ghost predicate RejectedHaveRow(ps: Proposals, outbox: seq<OutboxRow>) {
    forall p :: p in ps && ps[p].status.Rejected? ==> HasRow(outbox, p)
  }

  ghost predicate NoneCancelled(ps: Proposals, ts: Transactions) {
    && (forall p :: p in ps ==> !ps[p].status.Cancelled?)
    && (forall t :: t in ts ==> !ts[t].status.Cancelled?)
  }

  /**
    Pending proposals have neither transaction nor outbox row, accepted ones exactly one transaction that agrees
    with them, rejected ones exactly one outbox row that agrees with them.
  */
  ghost predicate Consistent(l: Ledger) {
    && TransactionsAgree(l.proposals, l.transactions)
    && OneTransactionEach(l.transactions)
    && AcceptedHaveTransaction(l.proposals, l.transactions)
    && RowsAgree(l.proposals, l.outbox)
    && RowsDistinct(l.outbox)
    && RejectedHaveRow(l.proposals, l.outbox)
    && NoneCancelled(l.proposals, l.transactions)
  }

  lemma InsertKeepsConsistent(l: Ledger, id: Id, p: Proposal)
    requires Consistent(l) && id !in l.proposals
    ensures Consistent(InsertProposal(l, id, p))
  {
  }

  lemma RejectKeepsConsistent(l: Ledger, id: Id, p: Proposal, owner: Id, eventId: string, at: string)
    requires Consistent(l) && id in l.proposals && SameIds(p, l.proposals[id]) && FreshEventId(l.outbox, eventId)
    requires RejectTx(l, id, p, owner, eventId, at).Some?
    ensures Consistent(RejectTx(l, id, p, owner, eventId, at).value)
  {
    var m := RejectTx(l, id, p, owner, eventId, at).value;
    forall q | q in m.proposals && m.proposals[q].status.Rejected?
      ensures HasRow(m.outbox, q)
    {
      if q == id {
        assert m.outbox[|l.outbox|].payload.proposal == q;
      } else {
        var i :| 0 <= i < |l.outbox| && l.outbox[i].payload.proposal == q;
        assert m.outbox[i] == l.outbox[i];
      }
    }
  }

  lemma AcceptKeepsConsistent(l: Ledger, id: Id, p: Proposal, owner: Id, tid: Id, rivals: seq<Rival>, at: string)
    requires Consistent(l) && id in l.proposals && SameIds(p, l.proposals[id]) && tid !in l.transactions
    requires Enumerates(rivals, RivalIds(l.proposals, id, p.target), l.outbox)
    requires AcceptTx(l, id, p, owner, tid, rivals, at).Some?
    ensures Consistent(AcceptTx(l, id, p, owner, tid, rivals, at).value)
  {
    AcceptedTransactionsAgree(l, id, p, owner, tid, rivals, at);
    AcceptedRowsAgree(l, id, p, owner, tid, rivals, at);
    AcceptedRowsDistinct(l, id, p, owner, rivals, at);
  }

  lemma AcceptedTransactionsAgree(l: Ledger, id: Id, p: Proposal, owner: Id, tid: Id, rivals: seq<Rival>, at: string)
    requires Consistent(l) && id in l.proposals && SameIds(p, l.proposals[id]) && tid !in l.transactions
    requires Enumerates(rivals, RivalIds(l.proposals, id, p.target), l.outbox)
    requires AcceptTx(l, id, p, owner, tid, rivals, at).Some?
    ensures var m := AcceptTx(l, id, p, owner, tid, rivals, at).value;
            && TransactionsAgree(m.proposals, m.transactions) && OneTransactionEach(m.transactions)
            && AcceptedHaveTransaction(m.proposals, m.transactions) && NoneCancelled(m.proposals, m.transactions)
  {
    var m := AcceptTx(l, id, p, owner, tid, rivals, at).value;
    assert m.transactions[tid].proposal == id;
    forall q | q in m.proposals && m.proposals[q].status.Accepted?
      ensures HasTransaction(m.transactions, q)
    {
      if q != id {
        assert l.proposals[q].status.Accepted?;
        var t :| t in l.transactions && l.transactions[t].proposal == q;
        assert m.transactions[t] == l.transactions[t];
      }
    }
  }

  lemma AcceptedRowsAgree(l: Ledger, id: Id, p: Proposal, owner: Id, tid: Id, rivals: seq<Rival>, at: string)
    requires Consistent(l) && id in l.proposals && SameIds(p, l.proposals[id])
    requires Enumerates(rivals, RivalIds(l.proposals, id, p.target), l.outbox)
    requires AcceptTx(l, id, p, owner, tid, rivals, at).Some?
    ensures var m := AcceptTx(l, id, p, owner, tid, rivals, at).value;
            RowsAgree(m.proposals, m.outbox) && RejectedHaveRow(m.proposals, m.outbox)
  {
    assert RowsAgree(l.proposals, l.outbox) && RejectedHaveRow(l.proposals, l.outbox);
    hide Consistent;
    AcceptedRowsHaveProposal(l, id, p, owner, tid, rivals, at);
    AcceptedProposalsHaveRow(l, id, p, owner, tid, rivals, at);
  }

  lemma AcceptedRowsHaveProposal(l: Ledger, id: Id, p: Proposal, owner: Id, tid: Id, rivals: seq<Rival>, at: string)
    requires RowsAgree(l.proposals, l.outbox)
    requires Enumerates(rivals, RivalIds(l.proposals, id, p.target), l.outbox)
    requires AcceptTx(l, id, p, owner, tid, rivals, at).Some?
    ensures var m := AcceptTx(l, id, p, owner, tid, rivals, at).value; RowsAgree(m.proposals, m.outbox)
  {
    var m := AcceptTx(l, id, p, owner, tid, rivals, at).value;
    hide FreshEventId;
    forall i | 0 <= i < |m.outbox|
      ensures RowAgrees(m.proposals, m.outbox[i].payload)
    {
      if i < |l.outbox| {
        assert RowAgrees(l.proposals, l.outbox[i].payload);
      } else {
        assert rivals[i - |l.outbox|].proposal in RivalIds(l.proposals, id, p.target);
      }
    }
  }

  lemma AcceptedProposalsHaveRow(l: Ledger, id: Id, p: Proposal, owner: Id, tid: Id, rivals: seq<Rival>, at: string)
    requires RejectedHaveRow(l.proposals, l.outbox)
    requires Enumerates(rivals, RivalIds(l.proposals, id, p.target), l.outbox)
    requires AcceptTx(l, id, p, owner, tid, rivals, at).Some?
    ensures var m := AcceptTx(l, id, p, owner, tid, rivals, at).value; RejectedHaveRow(m.proposals, m.outbox)
  {
    var m := AcceptTx(l, id, p, owner, tid, rivals, at).value;
    hide FreshEventId;
    forall q | q in m.proposals && m.proposals[q].status.Rejected?
      ensures HasRow(m.outbox, q)
    {
      if q in RivalIds(l.proposals, id, p.target) {
        var i :| 0 <= i < |rivals| && rivals[i].proposal == q;
        assert m.outbox[|l.outbox| + i].payload.proposal == q;
      } else {
        var i :| 0 <= i < |l.outbox| && l.outbox[i].payload.proposal == q;
        assert m.outbox[i] == l.outbox[i];
      }
    }
  }

  lemma AcceptedRowsDistinct(l: Ledger, id: Id, p: Proposal, owner: Id, rivals: seq<Rival>, at: string)
    requires Consistent(l)
    requires Enumerates(rivals, RivalIds(l.proposals, id, p.target), l.outbox)
    ensures RowsDistinct(l.outbox + RivalRows(l.proposals, rivals, owner, at))
  {
    var out := l.outbox + RivalRows(l.proposals, rivals, owner, at);
    forall i, j | 0 <= i < j < |out|
      ensures out[i].eventId != out[j].eventId && out[i].payload.proposal != out[j].payload.proposal
    {
      if i < |l.outbox| <= j {
        var r := rivals[j - |l.outbox|];
        assert FreshEventId(l.outbox, r.eventId);
        assert out[i] == l.outbox[i] && RowAgrees(l.proposals, l.outbox[i].payload);
      }
    }
  }

  lemma MarkKeepsConsistent(l: Ledger, eventId: string, published: bool)
    requires Consistent(l)
    ensures Consistent(l.(outbox := MarkOutbox(l.outbox, eventId, published)))
  {
    var m := l.(outbox := MarkOutbox(l.outbox, eventId, published));
    forall i | 0 <= i < |l.outbox|
      ensures m.outbox[i].payload == l.outbox[i].payload && m.outbox[i].eventId == l.outbox[i].eventId
    {
    }
    forall q | q in m.proposals && m.proposals[q].status.Rejected?
      ensures HasRow(m.outbox, q)
    {
      var i :| 0 <= i < |l.outbox| && l.outbox[i].payload.proposal == q;
      assert m.outbox[i].payload.proposal == q;
    }
  }

  /** Confirming and claiming touch only the flags and the status of one transaction. */
  lemma SettleKeepsConsistent(l: Ledger, tid: Id, t: Transaction)
    requires Consistent(l) && tid in l.transactions && SameParties(t, l.transactions[tid]) && !t.status.Cancelled?
    ensures Consistent(l.(transactions := l.transactions[tid := t]))
  {
    var m := l.(transactions := l.transactions[tid := t]);
    forall q | q in m.proposals && m.proposals[q].status.Accepted?
      ensures HasTransaction(m.transactions, q)
    {
      var u :| u in l.transactions && l.transactions[u].proposal == q;
      assert m.transactions[u].proposal == q;
    }
  }

  ghost predicate OnlyTransactionOf(ts: Transactions, p: Id, t: Id) {
    t in ts && ts[t].proposal == p && forall u :: u in ts && ts[u].proposal == p ==> u == t
  }

  ghost predicate OnlyRowOf(outbox: seq<OutboxRow>, p: Id, i: nat) {
    i < |outbox| && outbox[i].payload.proposal == p && forall j :: 0 <= j < |outbox| && outbox[j].payload.proposal == p ==> j == i
  }

  /** Consistency seen from one proposal: it is accounted for exactly once, by a record that agrees with it. */
  ghost predicate AccountedOnce(l: Ledger, p: Id)
    requires p in l.proposals
  {
    var q := l.proposals[p];
    match q.status
    case Pending => !HasTransaction(l.transactions, p) && !HasRow(l.outbox, p)
    case Accepted =>
      && !HasRow(l.outbox, p)
      && exists t :: OnlyTransactionOf(l.transactions, p, t)
                     && l.transactions[t].target == q.target && l.transactions[t].offered == q.offered
                     && l.transactions[t].requester == q.requester
    case Rejected =>
      && !HasTransaction(l.transactions, p)
      && exists i: nat :: OnlyRowOf(l.outbox, p, i)
                     && l.outbox[i].payload.target == q.target && l.outbox[i].payload.requester == q.requester
    case Cancelled => false
  }

  lemma ConsistentAccounts(l: Ledger, p: Id)
    requires Consistent(l) && p in l.proposals
    ensures AccountedOnce(l, p)
  {
    assert HasRow(l.outbox, p) ==> l.proposals[p].status.Rejected?;
    if l.proposals[p].status.Accepted? {
      var t :| t in l.transactions && l.transactions[t].proposal == p;
      assert OnlyTransactionOf(l.transactions, p, t);
    }
    if l.proposals[p].status.Rejected? {
      var i :| 0 <= i < |l.outbox| && l.outbox[i].payload.proposal == p;
      assert RowAgrees(l.proposals, l.outbox[i].payload);
      assert OnlyRowOf(l.outbox, p, i);
    }
  }

  // ----- Statements as operations, and what their runs can never undo

  datatype Op =
    | Insert(id: Id, p: Proposal)
    | RejectOne(id: Id, p: Proposal, owner: Id, eventId: string, at: string)
    | AcceptOne(id: Id, p: Proposal, owner: Id, tid: Id, rivals: seq<Rival>, at: string)
    | OwnerConfirms(tid: Id)
    | RequesterConfirms(tid: Id)
    | Claim(tid: Id)
    | Mark(eventId: string, published: bool)

  /** The operation commits on this ledger: what it inserts is new, what it names was read from it. */
  ghost predicate Enabled(l: Ledger, op: Op) {
    match op
    case Insert(id, p) => id !in l.proposals
    case RejectOne(id, p, owner, eventId, at) => IsPending(l, id) && SameIds(p, l.proposals[id]) && FreshEventId(l.outbox, eventId)
    case AcceptOne(id, p, owner, tid, rivals, at) =>
      IsPending(l, id) && SameIds(p, l.proposals[id]) && tid !in l.transactions && Enumerates(rivals, RivalIds(l.proposals, id, p.target), l.outbox)
    case OwnerConfirms(tid) => tid in l.transactions
    case RequesterConfirms(tid) => tid in l.transactions
    case Claim(tid) => CanClaim(l, tid)
    case Mark(eventId, published) => true
  }

  ghost function ApplyOp(l: Ledger, op: Op): Ledger
    requires Enabled(l, op)
  {
    match op
    case Insert(id, p) => InsertProposal(l, id, p)
    case RejectOne(id, p, owner, eventId, at) => RejectTx(l, id, p, owner, eventId, at).value
    case AcceptOne(id, p, owner, tid, rivals, at) => AcceptTx(l, id, p, owner, tid, rivals, at).value
    case OwnerConfirms(tid) => ConfirmAsOwner(l, tid)
    case RequesterConfirms(tid) => ConfirmAsRequester(l, tid)
    case Claim(tid) => ClaimCompletion(l, tid)
    case Mark(eventId, published) => l.(outbox := MarkOutbox(l.outbox, eventId, published))
  }

  lemma OpKeepsConsistent(l: Ledger, op: Op)
    requires Consistent(l) && Enabled(l, op)
    ensures Consistent(ApplyOp(l, op))
  {
    hide Consistent;
    match op
    case Insert(id, p) => InsertKeepsConsistent(l, id, p);
    case RejectOne(id, p, owner, eventId, at) => RejectKeepsConsistent(l, id, p, owner, eventId, at);
    case AcceptOne(id, p, owner, tid, rivals, at) => AcceptKeepsConsistent(l, id, p, owner, tid, rivals, at);
    case OwnerConfirms(tid) => FlagKeepsConsistent(l, tid, l.transactions[tid].(ownerConfirmed := true));
    case RequesterConfirms(tid) => FlagKeepsConsistent(l, tid, l.transactions[tid].(requesterConfirmed := true));
    case Claim(tid) => SettleKeepsConsistent(l, tid, l.transactions[tid].(status := TransactionStatus.Completed));
    case Mark(eventId, published) => MarkKeepsConsistent(l, eventId, published);
  }

  lemma FlagKeepsConsistent(l: Ledger, tid: Id, t: Transaction)
    requires Consistent(l) && tid in l.transactions && SameParties(t, l.transactions[tid]) && t.status == l.transactions[tid].status
    ensures Consistent(l.(transactions := l.transactions[tid := t]))
  {
    SettleKeepsConsistent(l, tid, t);
  }

  /** A delivery sees these columns of an outbox row; they never change. */
  predicate SameEvent(a: OutboxRow, b: OutboxRow) {
    a.eventId == b.eventId && a.payload == b.payload && a.occurredAt == b.occurredAt
  }

  /**
    Nothing is deleted; a proposal leaves Pending once and for all; a transaction keeps its parties, its
    confirmations and its completion; an outbox row keeps its event and is never unmarked.
  */
  ghost predicate Grows(l: Ledger, m: Ledger) {
    && (forall p :: p in l.proposals ==>
          && p in m.proposals && SameIds(l.proposals[p], m.proposals[p])
          && (!l.proposals[p].status.Pending? ==> m.proposals[p].status == l.proposals[p].status))
    && (forall t :: t in l.transactions ==> t in m.transactions && Proceeds(l.transactions[t], m.transactions[t]))
    && |l.outbox| <= |m.outbox|
    && (forall i :: 0 <= i < |l.outbox| ==>
          && SameEvent(l.outbox[i], m.outbox[i])
          && (l.outbox[i].published ==> m.outbox[i].published)
          && l.outbox[i].attempts <= m.outbox[i].attempts)
  }

  lemma GrowsTransitive(l: Ledger, m: Ledger, n: Ledger)
    requires Grows(l, m) && Grows(m, n)
    ensures Grows(l, n)
  {
  }

  predicate Proceeds(t: Transaction, u: Transaction) {
    && SameParties(t, u)
    && (t.ownerConfirmed ==> u.ownerConfirmed)
    && (t.requesterConfirmed ==> u.requesterConfirmed)
    && (t.status.Completed? ==> u.status.Completed?)
  }

  lemma OpGrows(l: Ledger, op: Op)
    requires Enabled(l, op)
    ensures Grows(l, ApplyOp(l, op))
  {
  }

  ghost predicate RowAddedFor(before: seq<OutboxRow>, after: seq<OutboxRow>, q: Id) {
    exists i :: |before| <= i < |after| && after[i].payload.proposal == q
  }

  lemma AcceptMovesProposals(l: Ledger, id: Id, p: Proposal, owner: Id, tid: Id, rivals: seq<Rival>, at: string)
    requires Enabled(l, AcceptOne(id, p, owner, tid, rivals, at))
    ensures var m := ApplyOp(l, AcceptOne(id, p, owner, tid, rivals, at));
            && m.proposals.Keys == l.proposals.Keys && m.proposals[id].status.Accepted?
            && m.transactions == l.transactions[tid := Transaction(id, p.target, p.offered, owner, p.requester, InProgress, false, false)]
            && (forall q :: q in m.proposals && m.proposals[q].target == p.target ==> !m.proposals[q].status.Pending?)
            && (forall q :: q in l.proposals && q != id ==>
                  m.proposals[q] ==
                    if q in RivalIds(l.proposals, id, p.target) then l.proposals[q].(status := ProposalStatus.Rejected) else l.proposals[q])
  {
    hide Enumerates;
  }

  lemma AcceptAddsRows(l: Ledger, id: Id, p: Proposal, owner: Id, tid: Id, rivals: seq<Rival>, at: string)
    requires Enabled(l, AcceptOne(id, p, owner, tid, rivals, at))
    ensures var m := ApplyOp(l, AcceptOne(id, p, owner, tid, rivals, at));
            var ids := RivalIds(l.proposals, id, p.target);
            && (forall q :: q in ids ==> RowAddedFor(l.outbox, m.outbox, q))
            && (forall i :: |l.outbox| <= i < |m.outbox| ==>
                  && m.outbox[i].payload.proposal in ids
                  && m.outbox[i].payload.target == p.target && m.outbox[i].payload.owner == owner && !m.outbox[i].published)
            && |m.outbox| == |l.outbox| + |ids| && m.outbox[..|l.outbox|] == l.outbox
  {
    hide FreshEventId, RejectAll, Resolve;
    var m := ApplyOp(l, AcceptOne(id, p, owner, tid, rivals, at));
    var ids := RivalIds(l.proposals, id, p.target);
    forall q | q in ids
      ensures RowAddedFor(l.outbox, m.outbox, q)
    {
      var i :| 0 <= i < |rivals| && rivals[i].proposal == q;
      assert m.outbox[|l.outbox| + i].payload.proposal == q;
    }
    forall i | |l.outbox| <= i < |m.outbox|
      ensures m.outbox[i].payload.proposal in ids && m.outbox[i].payload.target == p.target
      ensures m.outbox[i].payload.owner == owner && !m.outbox[i].published
    {
      assert rivals[i - |l.outbox|].proposal in ids;
    }
    EnumerationSize(rivals, ids);
  }

  /**
    An acceptance moves exactly its own proposal and its rivals, leaves no pending proposal on the target, creates
    the one unconfirmed transaction, and adds exactly one outbox row for each rival it moved.
  */
  lemma AcceptMovesExactlyTheRivals(l: Ledger, id: Id, p: Proposal, owner: Id, tid: Id, rivals: seq<Rival>, at: string)
    requires Enabled(l, AcceptOne(id, p, owner, tid, rivals, at))
    ensures var m := ApplyOp(l, AcceptOne(id, p, owner, tid, rivals, at));
            && m.proposals.Keys == l.proposals.Keys
            && m.proposals[id].status.Accepted?
            && m.transactions == l.transactions[tid := Transaction(id, p.target, p.offered, owner, p.requester, InProgress, false, false)]
            && (forall q :: q in m.proposals && m.proposals[q].target == p.target ==> !m.proposals[q].status.Pending?)
            && (forall q :: q in l.proposals && q != id ==>
                  if l.proposals[q].target == p.target && l.proposals[q].status.Pending?
                  then m.proposals[q] == l.proposals[q].(status := ProposalStatus.Rejected) && RowAddedFor(l.outbox, m.outbox, q)
                  else m.proposals[q] == l.proposals[q])
            && (forall i :: |l.outbox| <= i < |m.outbox| ==>
                  && m.outbox[i].payload.proposal in RivalIds(l.proposals, id, p.target)
                  && m.outbox[i].payload.target == p.target && m.outbox[i].payload.owner == owner && !m.outbox[i].published)
            && |m.outbox| == |l.outbox| + |RivalIds(l.proposals, id, p.target)| && m.outbox[..|l.outbox|] == l.outbox
  {
    AcceptMovesProposals(l, id, p, owner, tid, rivals, at);
    AcceptAddsRows(l, id, p, owner, tid, rivals, at);
    hide Enabled, ApplyOp, RowAddedFor;
  }

  lemma {:induction false} EnumerationSize(rivals: seq<Rival>, ids: set<Id>)
    requires forall i :: 0 <= i < |rivals| ==> rivals[i].proposal in ids
    requires forall q :: q in ids ==> exists i :: 0 <= i < |rivals| && rivals[i].proposal == q
    requires forall i, j :: 0 <= i < j < |rivals| ==> rivals[i].proposal != rivals[j].proposal
    ensures |rivals| == |ids|
  {
    if rivals != [] {
      var last := |rivals| - 1;
      var rest := rivals[..last];
      var q := rivals[last].proposal;
      forall x | x in ids - {q}
        ensures exists i :: 0 <= i < |rest| && rest[i].proposal == x
      {
        var i :| 0 <= i < |rivals| && rivals[i].proposal == x;
        assert rest[i].proposal == x;
      }
      EnumerationSize(rest, ids - {q});
      assert |ids| == |ids - {q}| + 1;
    } else {
      assert forall q :: q !in ids;
      assert ids == {};
    }
  }
}
