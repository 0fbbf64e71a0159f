/** Marketplace's business guards. A guard yields None when it lets the request through. */
module MarketplaceRules {
  import opened Wrappers
  import opened Catalog
  import opened Ledger

  datatype Refusal =
    | OwnListing | NotApproved | NotAvailable | WrongOperation | SameListing | NotOfferOwner
    | ProposalNotPending | TransactionNotInProgress | NotParticipant

  function ApprovedAndAvailable(s: Snapshot): (r: Option<Refusal>)
    ensures r.None? <==> s.status.Approved? && s.availability.Available?
    ensures r == Some(NotApproved) <==> !s.status.Approved?
  {
    if !s.status.Approved? then Some(NotApproved)
    else if !s.availability.Available? then Some(NotAvailable)
    else None
  }

  function TargetCanReceiveProposal(target: Snapshot, requester: Id): (r: Option<Refusal>)
    ensures r.None? <==> target.owner != requester && target.status.Approved? && target.availability.Available?
    ensures r == Some(OwnListing) <==> target.owner == requester
  {
    if target.owner == requester then Some(OwnListing) else ApprovedAndAvailable(target)
  }

  function CanRequestDonation(target: Snapshot, requester: Id): (r: Option<Refusal>)
    ensures r.None? <==>
      target.owner != requester && target.status.Approved? && target.availability.Available? && target.operation.Donation?
    ensures r == Some(OwnListing) <==> target.owner == requester
  {
    var refusal := TargetCanReceiveProposal(target, requester);
    if refusal.Some? then refusal
    else if !target.operation.Donation? then Some(WrongOperation)
    else None
  }

  function CanOfferTrade(targetId: Id, target: Snapshot, offeredId: Id, offered: Snapshot, requester: Id): (r: Option<Refusal>)
    ensures r.None? <==>
      && target.owner != requester && target.status.Approved? && target.availability.Available? && target.operation.Trade?
      && offeredId != targetId && offered.owner == requester
      && offered.status.Approved? && offered.availability.Available? && offered.operation.Trade?
    ensures r == Some(OwnListing) <==> target.owner == requester
  {
    var refusal := TargetCanReceiveProposal(target, requester);
    if refusal.Some? then refusal
    else if !target.operation.Trade? then Some(WrongOperation)
    else if offeredId == targetId then Some(SameListing)
    else if offered.owner != requester then Some(NotOfferOwner)
    else if !offered.operation.Trade? then Some(WrongOperation)
    else ApprovedAndAvailable(offered)
  }

  function CanAccept(target: Snapshot, status: ProposalStatus, offered: Option<Snapshot>): (r: Option<Refusal>)
    ensures r.None? <==>
      && target.status.Approved? && target.availability.Available? && status.Pending?
      && (offered.Some? ==> offered.value.status.Approved? && offered.value.availability.Available?)
    ensures r == Some(ProposalNotPending) <==> target.status.Approved? && target.availability.Available? && !status.Pending?
  {
    var refusal := ApprovedAndAvailable(target);
    if refusal.Some? then refusal
    else if !status.Pending? then Some(ProposalNotPending)
    else if offered.Some? then ApprovedAndAvailable(offered.value)
    else None
  }

  function CanConfirm(t: Transaction, actor: Id): (r: Option<Refusal>)
    ensures r.None? <==> t.status.InProgress? && (actor == t.owner || actor == t.requester)
    ensures r == Some(NotParticipant) <==> t.status.InProgress? && actor != t.owner && actor != t.requester
  {
    if !t.status.InProgress? then Some(TransactionNotInProgress)
    else if actor != t.owner && actor != t.requester then Some(NotParticipant)
    else None
  }
}
