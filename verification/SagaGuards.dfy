/**
  What the guards of the commit protocol are worth although they read early and act late: over every run, each
  proposal was once asked for on open listings, and each listing in a transaction was approved and available at the
  very moment it was reserved.
*/
module SagaGuards {
  import opened Wrappers
  import opened Catalog
  import opened Ledger
  import opened MarketplaceRules
  import opened Saga
  import opened SagaInvariant
  import opened SagaSteps
  import opened SagaTheorems
  import opened SagaServices

  // ----- Proposals

  /** After `i` steps the listing was approved, available and of this type, and this person's or not. */
  ghost predicate OpenAt(acts: seq<Action>, i: nat, l: Id, operation: OperationType, person: Id, own: bool)
    requires i <= |acts|
  {
    IsOpen(Exec(INIT, acts[..i]).rows, l, operation, person, own)
  }

  predicate IsOpen(rows: Table, l: Id, operation: OperationType, person: Id, own: bool) {
    && l in rows && rows[l].status.Approved? && rows[l].availability.Available? && rows[l].operation == operation
    && (rows[l].owner == person <==> own)
  }

  ghost predicate OnceOpen(acts: seq<Action>, l: Id, operation: OperationType, person: Id, own: bool) {
    exists i: nat :: i <= |acts| && OpenAt(acts, i, l, operation, person, own)
  }

  /** A donation request for somebody else's donation, or one's own trade listing offered for another one of somebody else. */
  ghost predicate WasChecked(acts: seq<Action>, p: Proposal) {
    match p.kind
    case DonationRequest => p.offered.None? && OnceOpen(acts, p.target, Donation, p.requester, false)
    case TradeOffer =>
      && OnceOpen(acts, p.target, Trade, p.requester, false)
      && p.offered.Some? && p.offered.value != p.target && OnceOpen(acts, p.offered.value, Trade, p.requester, true)
  }

  /** What a `create` under way has read is what the catalog once showed. */
  ghost predicate CreateBacked(acts: seq<Action>, c: Create) {
    && (c.pc.CreateTargetRead? ==> c.p.kind.TradeOffer? && OnceRead(acts, c.p.target, c.pc.target))
    && (c.pc.Checked? ==> WasChecked(acts, c.p))
  }

  ghost predicate OnceRead(acts: seq<Action>, l: Id, seen: Snapshot) {
    exists i: nat :: i <= |acts| && ReadAt(acts, i, l, seen)
  }

  ghost predicate ReadAt(acts: seq<Action>, i: nat, l: Id, seen: Snapshot)
    requires i <= |acts|
  {
    l in Exec(INIT, acts[..i]).rows && Exec(INIT, acts[..i]).rows[l] == seen
  }

  lemma EarlierStaysOpen(acts: seq<Action>, l: Id, operation: OperationType, person: Id, own: bool)
    requires acts != [] && OnceOpen(acts[..|acts| - 1], l, operation, person, own)
    ensures OnceOpen(acts, l, operation, person, own)
  {
    hide Exec, IsOpen;
    var i: nat :| i <= |acts| - 1 && OpenAt(acts[..|acts| - 1], i, l, operation, person, own);
    assert acts[..|acts| - 1][..i] == acts[..i];
    assert OpenAt(acts, i, l, operation, person, own);
  }

  lemma EarlierStaysRead(acts: seq<Action>, l: Id, seen: Snapshot)
    requires acts != [] && OnceRead(acts[..|acts| - 1], l, seen)
    ensures OnceRead(acts, l, seen)
  {
    hide Exec;
    var i: nat :| i <= |acts| - 1 && ReadAt(acts[..|acts| - 1], i, l, seen);
    assert acts[..|acts| - 1][..i] == acts[..i];
    assert ReadAt(acts, i, l, seen);
  }

  lemma EarlierStaysChecked(acts: seq<Action>, p: Proposal)
    requires acts != [] && WasChecked(acts[..|acts| - 1], p)
    ensures WasChecked(acts, p)
  {
    hide OnceOpen;
    match p.kind
    case DonationRequest => EarlierStaysOpen(acts, p.target, Donation, p.requester, false);
    case TradeOffer =>
      EarlierStaysOpen(acts, p.target, Trade, p.requester, false);
      EarlierStaysOpen(acts, p.offered.value, Trade, p.requester, true);
  }

  lemma EarlierStaysBacked(acts: seq<Action>, c: Create)
    requires acts != [] && CreateBacked(acts[..|acts| - 1], c)
    ensures CreateBacked(acts, c)
  {
    hide OnceRead, WasChecked;
    if c.pc.CreateTargetRead? {
      EarlierStaysRead(acts, c.p.target, c.pc.target);
    }
    if c.pc.Checked? {
      EarlierStaysChecked(acts, c.p);
    }
  }

  lemma NowOpen(acts: seq<Action>, l: Id, operation: OperationType, person: Id, own: bool)
    requires acts != [] && IsOpen(Exec(INIT, acts[..|acts| - 1]).rows, l, operation, person, own)
    ensures OnceOpen(acts, l, operation, person, own)
  {
    hide Exec, IsOpen;
    assert OpenAt(acts, |acts| - 1, l, operation, person, own);
  }

  /** The target passes on what was read then. */
  lemma OnceReadOnceOpen(acts: seq<Action>, l: Id, seen: Snapshot, operation: OperationType, person: Id, own: bool)
    requires OnceRead(acts, l, seen) && IsOpen(map[l := seen], l, operation, person, own)
    ensures OnceOpen(acts, l, operation, person, own)
  {
    hide Exec;
    var i: nat :| i <= |acts| && ReadAt(acts, i, l, seen);
    assert OpenAt(acts, i, l, operation, person, own);
  }

  /** A `create` has just started, or has just read from the rows. */
  ghost predicate JustRead(s: State, r: nat, c: Create) {
    || c.pc.Started?
    || (r in s.creates && s.creates[r].pc.Started? && ReadTargetForCreate(s.creates[r], s.rows) == Some(c))
    || (r in s.creates && s.creates[r].pc.CreateTargetRead? && ReadOfferedForCreate(s.creates[r], s.rows) == Some(c))
  }

  lemma ReadCreateCameFrom(s: State, a: DraftAction, r: nat)
    requires (a.DoCreateReadTarget? || a.DoCreateReadOffered?) && r in ApplyDraft(s, a).creates
    ensures var c := ApplyDraft(s, a).creates[r]; (r in s.creates && c == s.creates[r]) || JustRead(s, r, c)
  {
    hide ReadTargetForCreate, ReadOfferedForCreate, CreateStart, CreateInsert, DeclineLoad, DeclineCheck, DeclineCommit, RequestEnds;
  }

  lemma OtherCreateCameFrom(s: State, a: DraftAction, r: nat)
    requires !a.DoCreateReadTarget? && !a.DoCreateReadOffered? && r in ApplyDraft(s, a).creates
    ensures var c := ApplyDraft(s, a).creates[r]; (r in s.creates && c == s.creates[r]) || c.pc.Started?
  {
    hide Put, CreateReadTarget, CreateReadOffered, CheckOwner, RejectTx, FreshEventId, InsertProposal;
  }

  lemma DraftCreateCameFrom(s: State, a: DraftAction, r: nat)
    requires r in ApplyDraft(s, a).creates
    ensures var c := ApplyDraft(s, a).creates[r]; (r in s.creates && c == s.creates[r]) || JustRead(s, r, c)
  {
    if a.DoCreateReadTarget? || a.DoCreateReadOffered? {
      ReadCreateCameFrom(s, a, r);
    } else {
      OtherCreateCameFrom(s, a, r);
    }
    hide ApplyDraft, ReadTargetForCreate, ReadOfferedForCreate;
  }

  lemma OthersKeepCreates(s: State, a: Action)
    requires !a.OnDraft?
    ensures Apply(s, a).creates == s.creates
  {
    match a
    case OnListing(x) =>
    case OnServer(x) =>
    case OnAccept(x) => AcceptKeepsCreates(s, x);
    case OnConfirm(x) => ConfirmKeepsCreates(s, x);
    hide ApplyAccept, ApplyConfirm, ReserveRow, CanReserve, Decide, SetAvailability;
  }

  /** A `create` after a step is as it was before, has just started, or has just read from the rows. */
  lemma CreateCameFrom(s: State, a: Action, r: nat)
    requires r in Apply(s, a).creates
    ensures var c := Apply(s, a).creates[r]; (r in s.creates && c == s.creates[r]) || JustRead(s, r, c)
  {
    if a.OnDraft? {
      assert Apply(s, a) == ApplyDraft(s, a.draft);
      DraftCreateCameFrom(s, a.draft, r);
    } else {
      OthersKeepCreates(s, a);
    }
    hide Apply, ApplyDraft, JustRead;
  }

  lemma AdmissionKeepsCreates(s: State, a: AcceptAction)
    requires a.DoAcceptLoad? || a.DoAcceptReadTarget? || a.DoAcceptReadOffered? || a.DoAcceptIssue?
    ensures ApplyAccept(s, a).creates == s.creates
  {
    hide Put, ReadTargetForAccept, ReadOfferedForAccept, NextToReserve, AcceptSeen, AcceptRefused, AcceptInDoubt, AcceptCommit, AcceptAbort,
         AcceptRelease, AcceptCrash;
  }

  lemma AcceptKeepsCreates(s: State, a: AcceptAction)
    ensures ApplyAccept(s, a).creates == s.creates
  {
    if a.DoAcceptLoad? || a.DoAcceptReadTarget? || a.DoAcceptReadOffered? || a.DoAcceptIssue? {
      AdmissionKeepsCreates(s, a);
    }
    hide AcceptLoad, AcceptReadTarget, AcceptReadOffered, AcceptIssue, NextToReserve, WithHold, HandOver, AcceptTx, Enumerates, RivalIds;
  }

  lemma ConfirmKeepsCreates(s: State, a: ConfirmAction)
    ensures ApplyConfirm(s, a).creates == s.creates
  {
    hide NextToComplete, Reread, ConfirmAsOwner, ConfirmAsRequester, ClaimCompletion, CanClaim;
  }

  lemma ReadsAreBacked(acts: seq<Action>, b: Create, c: Create)
    requires acts != [] && CreateBacked(acts[..|acts| - 1], b)
    requires var rows := Exec(INIT, acts[..|acts| - 1]).rows;
             || (b.pc.Started? && ReadTargetForCreate(b, rows) == Some(c))
             || (b.pc.CreateTargetRead? && ReadOfferedForCreate(b, rows) == Some(c))
    ensures CreateBacked(acts, c)
  {
    var rows := Exec(INIT, acts[..|acts| - 1]).rows;
    var p := b.p;
    hide Exec, OnceOpen, OnceRead;
    if b.pc.Started? && p.kind.TradeOffer? {
      assert ReadAt(acts, |acts| - 1, p.target, rows[p.target]);
      NowRead(acts, p.target);
    } else if b.pc.Started? {
      NowOpen(acts, p.target, Donation, p.requester, false);
    } else {
      EarlierStaysRead(acts, p.target, b.pc.target);
      OnceReadOnceOpen(acts, p.target, b.pc.target, Trade, p.requester, false);
      NowOpen(acts, p.offered.value, Trade, p.requester, true);
    }
  }

  lemma NowRead(acts: seq<Action>, l: Id)
    requires acts != [] && l in Exec(INIT, acts[..|acts| - 1]).rows
    ensures OnceRead(acts, l, Exec(INIT, acts[..|acts| - 1]).rows[l])
  {
    hide Exec;
    assert ReadAt(acts, |acts| - 1, l, Exec(INIT, acts[..|acts| - 1]).rows[l]);
  }

  lemma {:induction false} CreatesAreBacked(acts: seq<Action>, r: nat)
    requires r in Exec(INIT, acts).creates
    ensures CreateBacked(acts, Exec(INIT, acts).creates[r])
  {
    if acts != [] {
      var last := |acts| - 1;
      var s := Exec(INIT, acts[..last]);
      assert Exec(INIT, acts) == Apply(s, acts[last]);
      hide Exec, Apply, WasChecked, OnceRead, ReadTargetForCreate, ReadOfferedForCreate;
      CreateCameFrom(s, acts[last], r);
      var c := Apply(s, acts[last]).creates[r];
      if r in s.creates {
        CreatesAreBacked(acts[..last], r);
        if c == s.creates[r] {
          EarlierStaysBacked(acts, c);
        } else if !c.pc.Started? {
          ReadsAreBacked(acts, s.creates[r], c);
        }
      }
    }
  }

  /** A proposal of the ledger was there before, on the same listings, or comes from a `create` that has been checked. */
  lemma ProposalCameFrom(s: State, a: Action, id: Id)
    requires Inv(s) && id in Apply(s, a).ledger.proposals
    ensures var p := Apply(s, a).ledger.proposals[id];
            || (id in s.ledger.proposals && SameIds(s.ledger.proposals[id], p))
            || (exists r :: r in s.creates && s.creates[r].pc.Checked? && SameIds(s.creates[r].p, p))
  {
    hide Inv, Apply, Performs, OpOf;
    ActionIsLedgerOp(s, a);
    StepGrows(s, a);
    if id !in s.ledger.proposals {
      OnlyInsertAdds(s.ledger, OpOf(s, a), Apply(s, a).ledger, id);
      var r := InsertIsChecked(s, a);
    }
  }

  lemma InsertIsChecked(s: State, a: Action) returns (r: nat)
    requires OpOf(s, a).Some? && OpOf(s, a).value.Insert?
    ensures r in s.creates && s.creates[r].pc.Checked? && s.creates[r].p == OpOf(s, a).value.p
  {
    r := a.draft.r;
  }

  lemma OnlyInsertAdds(l: Ledger, op: Option<Op>, m: Ledger, id: Id)
    requires Performs(l, op, m) && id !in l.proposals && id in m.proposals
    ensures op.Some? && op.value.Insert? && op.value.id == id && m.proposals[id] == op.value.p.(status := ProposalStatus.Pending)
  {
    hide Enumerates, RivalRows, MarkOutbox, RivalIds, FreshEventId, Consistent;
  }

  lemma SameIdsChecked(acts: seq<Action>, p: Proposal, q: Proposal)
    requires WasChecked(acts, p) && SameIds(p, q)
    ensures WasChecked(acts, q)
  {
    hide OnceOpen;
  }

  /**
    Whatever the interleaving, every proposal of the ledger has been through the guards: its target was once somebody
    else's, approved, available and of the right type, and the listing it offers was once the requester's own, so too.
  */
  lemma {:induction false} ProposalsWereChecked(acts: seq<Action>, id: Id)
    requires id in Exec(INIT, acts).ledger.proposals
    ensures WasChecked(acts, Exec(INIT, acts).ledger.proposals[id])
  {
    var last := |acts| - 1;
    var s := Exec(INIT, acts[..last]);
    assert Exec(INIT, acts) == Apply(s, acts[last]);
    var p := Exec(INIT, acts).ledger.proposals[id];
    hide Exec, Apply, Inv, WasChecked;
    RunKeepsInv(acts[..last]);
    ProposalCameFrom(s, acts[last], id);
    if id in s.ledger.proposals && SameIds(s.ledger.proposals[id], p) {
      ProposalsWereChecked(acts[..last], id);
      EarlierStaysChecked(acts, s.ledger.proposals[id]);
      SameIdsChecked(acts, s.ledger.proposals[id], p);
    } else {
      var r :| r in s.creates && s.creates[r].pc.Checked? && SameIds(s.creates[r].p, p);
      CreatesAreBacked(acts[..last], r);
      EarlierStaysChecked(acts, s.creates[r].p);
      SameIdsChecked(acts, s.creates[r].p, p);
    }
  }

  // ----- Transactions

  /** Step `i` reserves the listing, which is approved and available at that moment. */
  ghost predicate ReservesAt(acts: seq<Action>, i: nat, l: Id)
    requires i < |acts|
  {
    var rows := Exec(INIT, acts[..i]).rows;
    && acts[i].OnServer? && acts[i].server.DoServerReserve?
    && l in rows && rows[l].status.Approved? && rows[l].availability.Available?
    && l in Exec(INIT, acts[..i + 1]).rows && Exec(INIT, acts[..i + 1]).rows[l].availability.Reserved?
  }

  predicate Taken(rows: Table, l: Id) {
    l in rows && !rows[l].availability.Available?
  }

  lemma ListingTakesNothing(s: State, a: ListingAction, l: Id)
    requires Taken(ApplyListing(s, a).rows, l)
    ensures Taken(s.rows, l)
  {
  }

  /** Nothing but a reserve takes an available listing, and only an approved one. */
  lemma ServerTakes(s: State, a: ServerAction, l: Id)
    requires Taken(ApplyServer(s, a).rows, l) && !Taken(s.rows, l)
    requires forall c :: c in s.calls && s.calls[c].stage.SawReserved? ==> Taken(s.rows, s.calls[c].listing)
    ensures a.DoServerReserve? && l in s.rows && s.rows[l].status.Approved? && s.rows[l].availability.Available?
    ensures ApplyServer(s, a).rows[l].availability.Reserved?
  {
  }

  lemma OnlyReserveTakes(s: State, a: Action, l: Id)
    requires Inv(s) && Taken(Apply(s, a).rows, l) && !Taken(s.rows, l)
    ensures a.OnServer? && a.server.DoServerReserve?
    ensures l in s.rows && s.rows[l].status.Approved? && s.rows[l].availability.Available? && Apply(s, a).rows[l].availability.Reserved?
  {
    match a
    case OnListing(x) => ListingTakesNothing(s, x, l);
    case OnServer(x) => PausedCallsHold(s); ServerTakes(s, x, l);
    case OnDraft(x) => DraftKeepsRows(s, x);
    case OnAccept(x) => AcceptKeepsRows(s, x);
    case OnConfirm(x) => ConfirmKeepsRows(s, x);
    hide Inv, ApplyListing, ApplyServer, ApplyDraft, ApplyAccept, ApplyConfirm, Taken;
  }

  lemma PausedCallsHold(s: State)
    requires Inv(s)
    ensures forall c :: c in s.calls && s.calls[c].stage.SawReserved? ==> Taken(s.rows, s.calls[c].listing)
  {
    hide AcceptInv, ConfirmInv, DraftInv, LedgerInv, Numbered;
  }

  lemma {:induction false} TakenWasReserved(acts: seq<Action>, l: Id) returns (i: nat)
    requires Taken(Exec(INIT, acts).rows, l)
    ensures i < |acts| && ReservesAt(acts, i, l)
  {
    var last := |acts| - 1;
    var s := Exec(INIT, acts[..last]);
    assert Exec(INIT, acts) == Apply(s, acts[last]) && acts[..last + 1] == acts;
    RunKeepsInv(acts[..last]);
    if Taken(s.rows, l) {
      i := TakenWasReserved(acts[..last], l);
      assert acts[..last][..i] == acts[..i] && acts[..last][..i + 1] == acts[..i + 1];
    } else {
      i := last;
      OnlyReserveTakes(s, acts[last], l);
    }
    hide Exec, Apply, Inv, Taken;
  }

  lemma PartiesOwn(s: State, t: Id)
    requires Inv(s) && t in s.ledger.transactions
    ensures var x := s.ledger.transactions[t];
            && x.target in s.rows && s.rows[x.target].owner == x.owner
            && (x.offered.Some? ==> x.offered.value in s.rows && s.rows[x.offered.value].owner == x.requester)
  {
    LedgerOf(s.ledger, s.rows, s.announced);
    assert TransactionsAgree(s.ledger.proposals, s.ledger.transactions);
    hide Inv;
    assert ProposalSound(s.ledger.proposals[s.ledger.transactions[t].proposal], s.rows);
  }

  /**
    Every listing of every transaction of any run was approved and available at the very moment it was reserved, and
    belonged to the party that now gives it away: the target to the owner, the offered listing to the requester.
  */
  lemma TradedWasApproved(acts: seq<Action>, t: Id, l: Id) returns (i: nat)
    requires var ts := Exec(INIT, acts).ledger.transactions; t in ts && Involves(ts[t], l)
    ensures i < |acts| && ReservesAt(acts, i, l)
    ensures var x, row := Exec(INIT, acts).ledger.transactions[t], Exec(INIT, acts[..i]).rows[l];
            (l == x.target ==> row.owner == x.owner) && (x.offered == Some(l) ==> row.owner == x.requester)
  {
    ReachableStatesServe(acts);
    RunKeepsInv(acts);
    PartiesOwn(Exec(INIT, acts), t);
    i := TakenWasReserved(acts, l);
    LaterTablesServe(acts, i);
    hide Exec, Inv, Grows, Consistent;
  }
}
