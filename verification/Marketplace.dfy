/**
  The proposal and transaction services as the code runs them, one request at a time, against a network that may
  lose any call or reply, a database that may throw, and other requests whose changes appear at the points where
  this one waits.
*/
module Marketplace {
  import opened Wrappers
  import opened Catalog
  import opened Ledger
  import opened MarketplaceRules
  import opened CatalogClient
  import opened SagaInvariant
  import Text

  datatype Failure =
    | ProposalNotFound | TransactionNotFound | NotOwner | BadInput
    | CatalogFailed(reason: ClientError) | RefusedBy(refusal: Refusal) | AlreadyResolved | DatabaseFailed

  // ----- create

  datatype RawMessage = NoMessage | NotText | Message(text: string)

  /** The request body as it arrives. */
  datatype CreateInput = CreateInput(target: Option<string>, kind: Option<string>, offered: Option<string>, message: RawMessage)

  predicate Given(s: Option<string>) {
    s.Some? && Text.NonBlank(s.value)
  }

  const MAX_MESSAGE := 1000

  // ----- accept

  /** The weather each call of an acceptance meets, and whether its database transaction throws. */
  datatype AcceptPlan = AcceptPlan(readTarget: Weather, readOffered: Weather, reserveTarget: Weather, reserveOffered: Weather,
                                   databaseFails: bool, releaseOffered: Weather, releaseTarget: Weather)

  function WithAvailability(rows: Table, ids: set<Id>, a: Availability): Table {
    map l | l in rows :: if l in ids then rows[l].(availability := a) else rows[l]
  }

  function Occupy(rows: Table, ids: set<Id>): Table {
    WithAvailability(rows, ids, Reserved)
  }

  function ListingsOf(p: Proposal): set<Id> {
    {p.target} + if p.offered.Some? then {p.offered.value} else {}
  }

  /** The acceptance gets past its guards and starts reserving. */
  predicate ReachesReserve(rows: Table, l: Ledger, id: Id, owner: Id, plan: AcceptPlan) {
    && id in l.proposals && l.proposals[id].status.Pending? && plan.readTarget.Clear?
    && var p := l.proposals[id];
       && p.target in rows && rows[p.target].owner == owner
       && rows[p.target].status.Approved? && rows[p.target].availability.Available?
       && (p.offered.Some? ==>
             && plan.readOffered.Clear? && p.offered.value in rows
             && rows[p.offered.value].status.Approved? && rows[p.offered.value].availability.Available?)
  }

  /** The reserve of the target is seen to succeed. */
  predicate SeesTarget(rows: Table, p: Proposal, plan: AcceptPlan) {
    plan.reserveTarget.Clear? && CanReserve(rows, p.target)
  }

  predicate SeesOffered(rows: Table, p: Proposal, plan: AcceptPlan) {
    SeesTarget(rows, p, plan) && p.offered.Some? && plan.reserveOffered.Clear? && CanReserve(rows, p.offered.value)
  }

  predicate SeesAll(rows: Table, p: Proposal, plan: AcceptPlan) {
    SeesTarget(rows, p, plan) && (p.offered.Some? ==> SeesOffered(rows, p, plan))
  }

  /** The listings whose reserve was applied, whether or not the acceptance learns of it. */
  function Taken(rows: Table, p: Proposal, plan: AcceptPlan): set<Id> {
    (if !plan.reserveTarget.RequestLost? && CanReserve(rows, p.target) then {p.target} else {})
    + (if SeesTarget(rows, p, plan) && p.offered.Some? && !plan.reserveOffered.RequestLost? && CanReserve(rows, p.offered.value)
       then {p.offered.value} else {})
  }

  /** The listings a failed acceptance gives back: those it knows it holds, unless the release is lost. */
  function Returned(rows: Table, p: Proposal, plan: AcceptPlan): set<Id> {
    (if SeesTarget(rows, p, plan) && !plan.releaseTarget.RequestLost? then {p.target} else {})
    + (if SeesOffered(rows, p, plan) && !plan.releaseOffered.RequestLost? then {p.offered.value} else {})
  }

  /** No reserve is in doubt and no release is lost, on the path this acceptance takes. */
  predicate LosesNothing(rows: Table, p: Proposal, plan: AcceptPlan) {
    && (CanReserve(rows, p.target) ==> !plan.reserveTarget.ReplyLost?)
    && (SeesTarget(rows, p, plan) ==>
          && !plan.releaseTarget.RequestLost?
          && (p.offered.Some? && CanReserve(rows, p.offered.value) ==>
                !plan.reserveOffered.ReplyLost? && (plan.reserveOffered.Clear? ==> !plan.releaseOffered.RequestLost?)))
  }

  lemma OccupiedChanges(rows: Table, ids: set<Id>, l: Id)
    requires l in ids && CanReserve(rows, l)
    ensures Occupy(rows, ids) != rows
  {
    assert Occupy(rows, ids)[l].availability.Reserved?;
  }

  /** A failed acceptance leaves the catalog as the others left it exactly when it meets no doubt and no lost release. */
  lemma FailureLeavesNothingIff(rows: Table, p: Proposal, plan: AcceptPlan)
    requires p.offered != Some(p.target)
    ensures Occupy(rows, Taken(rows, p, plan) - Returned(rows, p, plan)) == rows <==> LosesNothing(rows, p, plan)
  {
    var left := Taken(rows, p, plan) - Returned(rows, p, plan);
    if p.target in left {
      OccupiedChanges(rows, left, p.target);
    }
    if p.offered.Some? && p.offered.value in left {
      OccupiedChanges(rows, left, p.offered.value);
    }
    if LosesNothing(rows, p, plan) {
      assert left == {};
    }
  }

  class ProposalsService {
    var ledger: Ledger
    var messages: map<Id, Option<string>>
    const catalog: Client
    /** Interns the text of an identifier. */
    const ids: string -> Id

    constructor (ledger: Ledger, catalog: Client, ids: string -> Id)
      ensures this.ledger == ledger && this.catalog == catalog && this.ids == ids && messages == map[]
    {
      this.ledger := ledger;
      this.catalog := catalog;
      this.ids := ids;
      messages := map[];
    }

    /**
      A proposal is stored exactly when its input is well formed and every guard passes on the listings read; it is
      then pending, between two people, on two listings, with its trimmed message or none.
    */
    method Create(requester: Id, input: CreateInput, id: Id, first: Weather, second: Weather) returns (r: Result<Proposal, Failure>)
      requires id !in ledger.proposals
      modifies this
      ensures r.Ok? <==>
        && input.target.Some? && Text.Trim(input.target.value) != ""
        && (input.message.NoMessage? || (input.message.Message? && Text.Utf16Length(Text.Trim(input.message.text)) <= 1000))
        && first.Clear?
        && var target := ids(Text.Trim(input.target.value));
           && target in catalog.server.rows
           && var t := catalog.server.rows[target];
              && t.owner != requester && t.status.Approved? && t.availability.Available?
              && if input.offered.Some? && Text.Trim(input.offered.value) != "" then
                   && input.kind == Some("TRADE_OFFER") && t.operation.Trade? && second.Clear?
                   && var offered := ids(Text.Trim(input.offered.value));
                      && offered in catalog.server.rows
                      && var o := catalog.server.rows[offered];
                         && offered != target && o.owner == requester
                         && o.status.Approved? && o.availability.Available? && o.operation.Trade?
                 else input.kind == Some("DONATION_REQUEST") && t.operation.Donation?
      ensures r.Ok? ==>
        && ledger == old(ledger).(proposals := old(ledger).proposals[id := r.value])
        && r.value == Proposal(ids(Text.Trim(input.target.value)), requester,
                               if input.kind == Some("TRADE_OFFER") then TradeOffer else DonationRequest,
                               if input.kind == Some("TRADE_OFFER") then Some(ids(Text.Trim(input.offered.value))) else None,
                               ProposalStatus.Pending)
        && messages == old(messages)[id := if input.message.Message? && Text.Trim(input.message.text) != ""
                                           then Some(Text.Trim(input.message.text)) else None]
      ensures r.Err? ==> ledger == old(ledger) && messages == old(messages)
    {
      hide Text.Trim, Text.Utf16Length;
      if !Given(input.target) {
        return Err(BadInput);
      }
      var target := ids(Text.Trim(input.target.value));
      if input.kind != Some("DONATION_REQUEST") && input.kind != Some("TRADE_OFFER") {
        return Err(BadInput);
      }
      var message: Option<string> := None;
      match input.message {
        case NoMessage =>
        case NotText => return Err(BadInput);
        case Message(text) =>
          var normalized := Text.Trim(text);
          if Text.Utf16Length(normalized) > MAX_MESSAGE {
            return Err(BadInput);
          }
          message := if normalized != "" then Some(normalized) else None;
      }
      var targetRow := catalog.GetListing(target, first);
      if targetRow.Err? {
        return Err(CatalogFailed(targetRow.error));
      }
      var offered: Option<Id> := None;
      if input.kind == Some("DONATION_REQUEST") {
        if Given(input.offered) {
          return Err(BadInput);
        }
        var refusal := CanRequestDonation(targetRow.value, requester);
        if refusal.Some? {
          return Err(RefusedBy(refusal.value));
        }
      } else {
        if !Given(input.offered) {
          return Err(BadInput);
        }
        offered := Some(ids(Text.Trim(input.offered.value)));
        var offeredRow := catalog.GetListing(offered.value, second);
        if offeredRow.Err? {
          return Err(CatalogFailed(offeredRow.error));
        }
        var refusal := CanOfferTrade(target, targetRow.value, offered.value, offeredRow.value, requester);
        if refusal.Some? {
          return Err(RefusedBy(refusal.value));
        }
      }
      var kind := if offered.Some? then TradeOffer else DonationRequest;
      var p := Proposal(target, requester, kind, offered, ProposalStatus.Pending);
      ledger := InsertProposal(ledger, id, p);
      messages := messages[id := message];
      return Ok(p);
    }

    method Reject(id: Id, owner: Id, eventId: string, at: string, w: Weather) returns (r: Result<Proposal, Failure>)
      requires FreshEventId(ledger.outbox, eventId)
      modifies this`ledger
      ensures r.Ok? <==>
        && id in old(ledger).proposals && old(ledger).proposals[id].status.Pending? && w.Clear?
        && var target := old(ledger).proposals[id].target; target in catalog.server.rows && catalog.server.rows[target].owner == owner
      ensures r.Ok? ==>
        var p := old(ledger).proposals[id];
        && r.value == p.(status := ProposalStatus.Rejected)
        && ledger.proposals == old(ledger).proposals[id := r.value] && ledger.transactions == old(ledger).transactions
        && ledger.outbox == old(ledger).outbox + [OutboxRow(eventId, Rejection(id, p.target, p.requester, owner), at, false, 0)]
      ensures r.Err? ==> ledger == old(ledger)
    {
      if id !in ledger.proposals {
        return Err(ProposalNotFound);
      }
      var p := ledger.proposals[id];
      var target := catalog.GetListing(p.target, w);
      if target.Err? {
        return Err(CatalogFailed(target.error));
      }
      if target.value.owner != owner {
        return Err(NotOwner);
      }
      var committed := RejectTx(ledger, id, p, owner, eventId, at);
      if committed.None? {
        return Err(AlreadyResolved);
      }
      ledger := committed.value;
      return Ok(ledger.proposals[id]);
    }

    /** Before anything is reserved: the reads and the guard, on the proposal as it was first read. */
    method Admit(id: Id, owner: Id, plan: AcceptPlan) returns (r: Result<Proposal, Failure>)
      ensures r.Ok? <==>
        && id in ledger.proposals && ledger.proposals[id].status.Pending? && plan.readTarget.Clear?
        && var p, rows := ledger.proposals[id], catalog.server.rows;
           && p.target in rows && rows[p.target].owner == owner
           && rows[p.target].status.Approved? && rows[p.target].availability.Available?
           && (p.offered.Some? ==>
                 && plan.readOffered.Clear? && p.offered.value in rows
                 && rows[p.offered.value].status.Approved? && rows[p.offered.value].availability.Available?)
      ensures r.Ok? ==> r.value == ledger.proposals[id]
      ensures id !in ledger.proposals ==> r == Err(ProposalNotFound)
      ensures id in ledger.proposals && plan.readTarget.Clear? && ledger.proposals[id].target in catalog.server.rows
              && catalog.server.rows[ledger.proposals[id].target].owner != owner ==>
        r == Err(NotOwner)
    {
      if id !in ledger.proposals {
        return Err(ProposalNotFound);
      }
      var p := ledger.proposals[id];
      var target := catalog.GetListing(p.target, plan.readTarget);
      if target.Err? {
        return Err(CatalogFailed(target.error));
      }
      if target.value.owner != owner {
        return Err(NotOwner);
      }
      var offered: Option<Snapshot> := None;
      if p.offered.Some? {
        var row := catalog.GetListing(p.offered.value, plan.readOffered);
        if row.Err? {
          return Err(CatalogFailed(row.error));
        }
        offered := Some(row.value);
      }
      var refusal := CanAccept(target.value, p.status, offered);
      if refusal.Some? {
        return Err(RefusedBy(refusal.value));
      }
      return Ok(p);
    }

    /** The target first, then the offered listing; the flags say which reserve was seen to succeed. */
    method ReserveAll(p: Proposal, plan: AcceptPlan) returns (targetReserved: bool, offeredReserved: bool, failure: Option<Failure>)
      requires p.offered != Some(p.target)
      modifies catalog.server
      ensures targetReserved == SeesTarget(old(catalog.server.rows), p, plan)
      ensures offeredReserved == SeesOffered(old(catalog.server.rows), p, plan)
      ensures failure.None? <==> SeesAll(old(catalog.server.rows), p, plan)
      ensures catalog.server.rows == Occupy(old(catalog.server.rows), Taken(old(catalog.server.rows), p, plan))
    {
      targetReserved, offeredReserved, failure := false, false, None;
      var reply := catalog.ReserveListing(p.target, plan.reserveTarget);
      targetReserved := reply.Ok?;
      if reply.Err? {
        failure := Some(CatalogFailed(reply.error));
      } else if p.offered.Some? {
        var second := catalog.ReserveListing(p.offered.value, plan.reserveOffered);
        offeredReserved := second.Ok?;
        if second.Err? {
          failure := Some(CatalogFailed(second.error));
        }
      }
    }

    /** Compensation, the offered listing first; whatever a release answers is ignored. */
    method GiveBack(p: Proposal, targetReserved: bool, offeredReserved: bool, plan: AcceptPlan)
      requires p.offered != Some(p.target) && (offeredReserved ==> p.offered.Some?)
      requires targetReserved ==> p.target in catalog.server.rows && catalog.server.rows[p.target].availability.Reserved?
      requires offeredReserved ==> p.offered.value in catalog.server.rows && catalog.server.rows[p.offered.value].availability.Reserved?
      modifies catalog.server
      ensures catalog.server.rows == WithAvailability(old(catalog.server.rows),
                (if targetReserved && !plan.releaseTarget.RequestLost? then {p.target} else {})
                + (if offeredReserved && !plan.releaseOffered.RequestLost? then {p.offered.value} else {}), Available)
    {
      if offeredReserved {
        var _ := catalog.ReleaseListing(p.offered.value, plan.releaseOffered, catalog.server.rows);
      }
      if targetReserved {
        var _ := catalog.ReleaseListing(p.target, plan.releaseTarget, catalog.server.rows);
      }
    }

    /** Taking and giving back what could be taken leaves exactly the difference. */
    lemma TakenAndReturned(rows: Table, p: Proposal, plan: AcceptPlan)
      requires p.offered != Some(p.target)
      ensures WithAvailability(Occupy(rows, Taken(rows, p, plan)), Returned(rows, p, plan), Available)
              == Occupy(rows, Taken(rows, p, plan) - Returned(rows, p, plan))
    {
      assert forall l :: l in Returned(rows, p, plan) ==> CanReserve(rows, l);
    }

    /** Seeing every reserve succeed leaves exactly the proposal's listings newly reserved. */
    lemma AllTaken(rows: Table, p: Proposal, plan: AcceptPlan)
      requires SeesAll(rows, p, plan)
      ensures var after := Occupy(rows, Taken(rows, p, plan));
              && after.Keys == rows.Keys && p.target in after
              && forall l :: l in rows ==>
                   after[l] == if l == p.target || Some(l) == p.offered then rows[l].(availability := Availability.Reserved) else rows[l]
    {
    }

    /** The new transaction names the owner of its target, who is not the requester, like every other. */
    lemma AcceptedIsSound(p: Proposal, before: Table, between: Table, after: Table, ts: Transactions, tid: Id, t: Transaction)
      requires ProposalSound(p, before) && Evolves(before, between) && Evolves(between, after) && TransactionsSound(ts, between)
      requires t.target == p.target && t.offered == p.offered && t.requester == p.requester && t.owner == before[p.target].owner
      ensures TransactionsSound(ts[tid := t], after)
    {
    }

    lemma HoldsWhatItSees(rows: Table, p: Proposal, plan: AcceptPlan)
      ensures var after := Occupy(rows, Taken(rows, p, plan));
              && (SeesTarget(rows, p, plan) ==> p.target in after && after[p.target].availability.Reserved?)
              && (SeesOffered(rows, p, plan) ==> p.offered.value in after && after[p.offered.value].availability.Reserved?)
    {
    }

    /**
      All or nothing, under interference: `atReserve` is the catalog as rivals left it before the first reserve,
      `atCommit` the ledger as they left it before the database transaction. On success both listings are reserved
      and the one transaction exists. On failure nothing is committed, and the catalog is as the rivals left it but
      for exactly what was taken and not given back.
    */
    method Accept(id: Id, owner: Id, plan: AcceptPlan, tid: Id, rivals: seq<Rival>, at: string, atReserve: Table, atCommit: Ledger)
      returns (r: Result<Transaction, Failure>)
      requires Evolves(catalog.server.rows, atReserve) && Grows(ledger, atCommit) && tid !in atCommit.transactions
      requires id in ledger.proposals ==>
        && Enumerates(rivals, RivalIds(atCommit.proposals, id, ledger.proposals[id].target), atCommit.outbox)
        && ledger.proposals[id].offered != Some(ledger.proposals[id].target)
      modifies this`ledger, catalog.server
      ensures r.Ok? <==>
        && id in old(ledger).proposals && old(ledger).proposals[id].status.Pending? && plan.readTarget.Clear?
        && var p, rows := old(ledger).proposals[id], old(catalog.server.rows);
           && p.target in rows && rows[p.target].owner == owner
           && rows[p.target].status.Approved? && rows[p.target].availability.Available?
           && plan.reserveTarget.Clear? && p.target in atReserve
           && atReserve[p.target].status.Approved? && atReserve[p.target].availability.Available?
           && (p.offered.Some? ==>
                 && plan.readOffered.Clear? && p.offered.value in rows
                 && rows[p.offered.value].status.Approved? && rows[p.offered.value].availability.Available?
                 && plan.reserveOffered.Clear? && p.offered.value in atReserve
                 && atReserve[p.offered.value].status.Approved? && atReserve[p.offered.value].availability.Available?)
           && id in atCommit.proposals && atCommit.proposals[id].status.Pending? && !plan.databaseFails
      ensures r.Ok? ==>
        var p, rows := old(ledger).proposals[id], catalog.server.rows;
        && Some(ledger) == AcceptTx(atCommit, id, p, owner, tid, rivals, at)
        && r.value == Transaction(id, p.target, p.offered, owner, p.requester, InProgress, false, false)
        && ledger.transactions == atCommit.transactions[tid := r.value]
        && rows.Keys == atReserve.Keys && p.target in rows && rows[p.target].owner == owner == r.value.owner
        && forall l :: l in atReserve ==>
             rows[l] == if l == p.target || Some(l) == p.offered then atReserve[l].(availability := Availability.Reserved) else atReserve[l]
      ensures r.Ok? && ProposalSound(old(ledger).proposals[id], old(catalog.server.rows)) && TransactionsSound(atCommit.transactions, atReserve) ==>
        TransactionsSound(ledger.transactions, catalog.server.rows)
      ensures id in old(ledger).proposals && old(ledger).proposals[id].target in old(catalog.server.rows)
              && old(catalog.server.rows)[old(ledger).proposals[id].target].owner != owner ==>
        r.Err? && ledger == old(ledger) && catalog.server.rows == old(catalog.server.rows)
      ensures r.Err? ==> ledger == old(ledger) || ledger == atCommit
      ensures r.Err? && !ReachesReserve(old(catalog.server.rows), old(ledger), id, owner, plan) ==>
        ledger == old(ledger) && catalog.server.rows == old(catalog.server.rows)
      ensures r.Err? && plan.reserveTarget.Clear? && plan.reserveOffered.Clear? && plan.releaseTarget.Clear? && plan.releaseOffered.Clear? ==>
        catalog.server.rows == old(catalog.server.rows) || catalog.server.rows == atReserve
      ensures r.Err? && ReachesReserve(old(catalog.server.rows), old(ledger), id, owner, plan) ==>
        var p := old(ledger).proposals[id];
        catalog.server.rows == Occupy(atReserve, Taken(atReserve, p, plan) - Returned(atReserve, p, plan))
    {
      hide Occupy, WithAvailability, Taken, Enumerates, Grows, RivalRows, RejectAll, Resolve;
      var admitted := Admit(id, owner, plan);
      if admitted.Err? {
        return Err(admitted.error);
      }
      var p := admitted.value;
      assert id in ledger.proposals by {
        AdmittedExists(catalog.server.rows, ledger, id, owner, plan);
      }

      ghost var before := catalog.server.rows;
      catalog.server.rows := atReserve;
      var targetReserved, offeredReserved, failure := ReserveAll(p, plan);
      HoldsWhatItSees(atReserve, p, plan);
      if failure.None? {
        AllTaken(atReserve, p, plan);
        ledger := atCommit;
        var committed := Commit(id, p, owner, tid, rivals, at, plan.databaseFails);
        if committed.Ok? {
          assert Evolves(atReserve, catalog.server.rows);
          if ProposalSound(p, before) && TransactionsSound(atCommit.transactions, atReserve) {
            AcceptedIsSound(p, before, atReserve, catalog.server.rows, atCommit.transactions, tid, committed.value);
          }
          return committed;
        }
        failure := Some(committed.error);
      }
      GiveBack(p, targetReserved, offeredReserved, plan);
      TakenAndReturned(atReserve, p, plan);
      FailureLeavesNothingIff(atReserve, p, plan);
      return Err(failure.value);
    }

    lemma AdmittedExists(rows: Table, l: Ledger, id: Id, owner: Id, plan: AcceptPlan)
      requires ReachesReserve(rows, l, id, owner, plan)
      ensures id in l.proposals
    {
    }

    /** The local database transaction of an acceptance. */
    method Commit(id: Id, p: Proposal, owner: Id, tid: Id, rivals: seq<Rival>, at: string, databaseFails: bool)
      returns (r: Result<Transaction, Failure>)
      requires Enumerates(rivals, RivalIds(ledger.proposals, id, p.target), ledger.outbox)
      modifies this`ledger
      ensures r.Ok? <==> id in old(ledger).proposals && old(ledger).proposals[id].status.Pending? && !databaseFails
      ensures r.Ok? ==>
        && Some(ledger) == AcceptTx(old(ledger), id, p, owner, tid, rivals, at)
        && r.value == Transaction(id, p.target, p.offered, owner, p.requester, InProgress, false, false)
        && ledger.transactions == old(ledger).transactions[tid := r.value]
      ensures r.Err? ==> ledger == old(ledger)
    {
      hide RivalRows, RejectAll, Resolve, FreshEventId;
      var committed := AcceptTx(ledger, id, p, owner, tid, rivals, at);
      if committed.None? {
        return Err(AlreadyResolved);
      }
      if databaseFails {
        return Err(DatabaseFailed);
      }
      ledger := committed.value;
      return Ok(ledger.transactions[tid]);
    }
  }

  // ----- confirm

  datatype ConfirmPlan = ConfirmPlan(completeTarget: Weather, completeOffered: Weather)

  /** Every listing of the transaction is in its hands: Reserved, or Completed by an earlier attempt. */
  predicate InHand(rows: Table, t: Transaction) {
    && t.target in rows && !rows[t.target].availability.Available?
    && (t.offered.Some? ==> t.offered.value in rows && !rows[t.offered.value].availability.Available?)
  }

  /** Only listings of the transaction change, and only from Reserved to Completed. */
  ghost predicate OnlyCompletes(before: Table, after: Table, t: Transaction) {
    && after.Keys == before.Keys
    && forall l :: l in before ==>
         || after[l] == before[l]
         || (Involves(t, l) && before[l].availability.Reserved? && after[l] == before[l].(availability := Availability.Completed))
  }

  class TransactionsService {
    var ledger: Ledger
    const catalog: Client

    constructor (ledger: Ledger, catalog: Client)
      ensures this.ledger == ledger && this.catalog == catalog
    {
      this.ledger := ledger;
      this.catalog := catalog;
    }

    method CompleteListings(t: Transaction, plan: ConfirmPlan) returns (failed: Option<ClientError>)
      modifies catalog.server
      ensures failed.None? <==>
        && InHand(old(catalog.server.rows), t) && plan.completeTarget.Clear?
        && (t.offered.Some? ==> plan.completeOffered.Clear?)
      ensures failed.None? ==>
        && t.target in catalog.server.rows && catalog.server.rows[t.target].availability.Completed?
        && (t.offered.Some? ==>
              t.offered.value in catalog.server.rows && catalog.server.rows[t.offered.value].availability.Completed?)
      ensures OnlyCompletes(old(catalog.server.rows), catalog.server.rows, t)
    {
      var reply := catalog.CompleteListing(t.target, plan.completeTarget, catalog.server.rows);
      if reply.Err? {
        return Some(reply.error);
      }
      if t.offered.Some? {
        var second := catalog.CompleteListing(t.offered.value, plan.completeOffered, catalog.server.rows);
        if second.Err? {
          return Some(second.error);
        }
      }
      return None;
    }

    method SetFlag(id: Id, actor: Id, seen: Transaction)
      requires id in ledger.transactions && ledger.transactions[id] == seen
      modifies this`ledger
      ensures ledger == old(ledger).(transactions := old(ledger).transactions[id :=
                seen.(ownerConfirmed := seen.ownerConfirmed || actor == seen.owner,
                      requesterConfirmed := seen.requesterConfirmed || actor == seen.requester)])
    {
      if actor == seen.owner && !seen.ownerConfirmed {
        ledger := ConfirmAsOwner(ledger, id);
      }
      if actor == seen.requester && !seen.requesterConfirmed {
        ledger := ConfirmAsRequester(ledger, id);
      }
      assert ledger.transactions == old(ledger).transactions[id :=
               seen.(ownerConfirmed := seen.ownerConfirmed || actor == seen.owner,
                     requesterConfirmed := seen.requesterConfirmed || actor == seen.requester)];
    }

    /**
      The actor's own flag is set before anything else. `reread` is the ledger others have left when the request
      reads the transaction again, `atClaim` when it claims the completion; both only grow. If both flags are then
      up, whoever set them, the transaction ends Completed, by this claim or by a concurrent one, exactly when no call
      is lost and every listing is in hand. A failed attempt keeps the flags. A party that confirms first, with nobody
      interfering, gets the transaction back in progress with its own flag and no other, and no listing is touched.
    */
    method Confirm(id: Id, actor: Id, plan: ConfirmPlan, reread: Ledger, atClaim: Ledger) returns (r: Result<Transaction, Failure>)
      requires id in ledger.transactions ==>
        var t := ledger.transactions[id];
        Grows(ledger.(transactions := ledger.transactions[id :=
                t.(ownerConfirmed := t.ownerConfirmed || actor == t.owner,
                   requesterConfirmed := t.requesterConfirmed || actor == t.requester)]), reread)
      requires Grows(reread, atClaim) && Consistent(atClaim)
      modifies this`ledger, catalog.server
      ensures id !in old(ledger.transactions) || !old(ledger.transactions)[id].status.InProgress?
              || (actor != old(ledger.transactions)[id].owner && actor != old(ledger.transactions)[id].requester) ==>
        r.Err? && ledger == old(ledger) && catalog.server.rows == old(catalog.server.rows)
      ensures id in old(ledger.transactions) && old(ledger.transactions)[id].status.InProgress?
              && (actor == old(ledger.transactions)[id].owner || actor == old(ledger.transactions)[id].requester) ==>
        && id in reread.transactions
        && var t := reread.transactions[id];
           && (actor == t.owner ==> t.ownerConfirmed) && (actor == t.requester ==> t.requesterConfirmed)
           && if t.status.InProgress? && t.ownerConfirmed && t.requesterConfirmed then
                && (r.Ok? <==>
                      && InHand(old(catalog.server.rows), t) && plan.completeTarget.Clear?
                      && (t.offered.Some? ==> plan.completeOffered.Clear?))
                && (r.Ok? ==>
                      && id in atClaim.transactions && r.value == atClaim.transactions[id].(status := TransactionStatus.Completed)
                      && ledger == atClaim.(transactions := atClaim.transactions[id := r.value])
                      && t.target in catalog.server.rows && catalog.server.rows[t.target].availability.Completed?
                      && (t.offered.Some? ==>
                            t.offered.value in catalog.server.rows && catalog.server.rows[t.offered.value].availability.Completed?))
                && (r.Err? ==> ledger == reread)
                && OnlyCompletes(old(catalog.server.rows), catalog.server.rows, t)
              else r == Ok(t) && ledger == reread && catalog.server.rows == old(catalog.server.rows)
      ensures id in old(ledger.transactions) ==>
        var t := old(ledger.transactions)[id];
        t.status.InProgress? && actor == t.owner && actor != t.requester && !t.requesterConfirmed
        && reread == old(ledger).(transactions := old(ledger.transactions)[id := t.(ownerConfirmed := true)]) ==>
        r == Ok(t.(ownerConfirmed := true)) && ledger == reread && catalog.server.rows == old(catalog.server.rows)
      ensures id in old(ledger.transactions) ==>
        var t := old(ledger.transactions)[id];
        t.status.InProgress? && actor == t.requester && actor != t.owner && !t.ownerConfirmed
        && reread == old(ledger).(transactions := old(ledger.transactions)[id := t.(requesterConfirmed := true)]) ==>
        r == Ok(t.(requesterConfirmed := true)) && ledger == reread && catalog.server.rows == old(catalog.server.rows)
    {
      if id !in ledger.transactions {
        return Err(TransactionNotFound);
      }
      var transaction := ledger.transactions[id];
      var refusal := CanConfirm(transaction, actor);
      if refusal.Some? {
        return Err(RefusedBy(refusal.value));
      }
      SetFlag(id, actor, transaction);
      ledger := reread;
      transaction := ledger.transactions[id];
      if transaction.status.InProgress? && BothConfirmed(transaction) {
        var failed := CompleteListings(transaction, plan);
        if failed.Some? {
          return Err(CatalogFailed(failed.value));
        }
        StaysConfirmed(reread, atClaim, id);
        ledger := ClaimCompletion(atClaim, id);
        transaction := ledger.transactions[id];
      }
      return Ok(transaction);
    }

    lemma StaysConfirmed(before: Ledger, after: Ledger, id: Id)
      requires Grows(before, after) && Consistent(after) && id in before.transactions && BothConfirmed(before.transactions[id])
      ensures id in after.transactions && BothConfirmed(after.transactions[id]) && !after.transactions[id].status.Cancelled?
    {
    }
  }
}
