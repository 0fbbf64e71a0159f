/**
  The donation/trade commit protocol as a state machine. Any number of requests run at once against two
  databases that share no transaction. Each action is one atomic step of one request or of one Catalog call:
  a single read, a single conditional update, a single local transaction, or a fault. An action that is not
  enabled changes nothing, so a run is any sequence of actions.
*/
module Saga {
  import opened Wrappers
  import opened Catalog
  import opened Ledger
  import opened MarketplaceRules

  // ----- State

  datatype CallKind = ReserveCall | CompleteCall | ReleaseCall

  /** Where the Catalog server is with a call: not started, between its read and its write, or answered. */
  datatype Stage = Sent | SawReserved | Answered(ok: bool)

  datatype Call = Call(kind: CallKind, listing: Id, caller: nat, stage: Stage)

  datatype AcceptPc = Loaded | TargetRead(target: Snapshot) | Reserving | Waiting(call: nat) | Undoing

  datatype Accept = Accept(id: Id, p: Proposal, owner: Id, targetReserved: bool, offeredReserved: bool, pc: AcceptPc)

  datatype ConfirmPc =
    | OwnerTurn | RequesterTurn | Rereading
    | Completing(targetDone: bool, offeredDone: bool)
    | WaitingComplete(targetDone: bool, call: nat)

  /** `seen` is the transaction row as last read by this request. */
  datatype Confirm = Confirm(tid: Id, actor: Id, seen: Transaction, pc: ConfirmPc)

  datatype CreatePc = Started | CreateTargetRead(target: Snapshot) | Checked

  datatype Create = Create(p: Proposal, pc: CreatePc)

  datatype Decline = Decline(id: Id, p: Proposal, owner: Id, checked: bool)

  /**
    History variable, read by no guard: who took each listing out of Available. A hold whose call, request or
    release has vanished without giving it back is a leak.
  */
  datatype Holder = Free | ByReserve(call: nat) | ByAccept(request: nat) | ByTransaction(tid: Id) | ByRelease(call: nat)

  type Holders = map<Id, Holder>

  type Calls = map<nat, Call>

  type Accepts = map<nat, Accept>

  type Confirms = map<nat, Confirm>

  type Creates = map<nat, Create>

  type Declines = map<nat, Decline>

  /** `announced` lists the transactions whose completion event was handed to the publisher. */
  datatype State = State(rows: Table, ledger: Ledger, calls: Calls, accepts: Accepts, confirms: Confirms,
                         creates: Creates, declines: Declines, holder: Holders, announced: seq<Id>, next: nat)

  const INIT := State(map[], EMPTY_LEDGER, map[], map[], map[], map[], map[], map[], [], 0)

  // ----- The rest of Catalog: new listings, and any moderation or edit (availability is not theirs to write)

  ghost function ListingCreated(s: State, id: Id, owner: Id, operation: OperationType): State {
    if id in s.rows then s
    else s.(rows := s.rows[id := Snapshot(owner, operation, ListingStatus.Pending, Available)], holder := s.holder[id := Free])
  }

  ghost function ListingModerated(s: State, id: Id, operation: OperationType, status: ListingStatus): State {
    if id !in s.rows then s
    else s.(rows := s.rows[id := s.rows[id].(operation := operation, status := status)])
  }

  // ----- Catalog server steps. A call runs whether or not its caller still waits.

  ghost function ServerReserve(s: State, c: nat): State {
    if !(c in s.calls && s.calls[c].kind.ReserveCall? && s.calls[c].stage.Sent?) then s
    else
      var id := s.calls[c].listing;
      var done := CanReserve(s.rows, id);
      s.(rows := ReserveRow(s.rows, id),
         calls := s.calls[c := s.calls[c].(stage := Answered(done))],
         holder := if done then s.holder[id := ByReserve(c)] else s.holder)
  }

  function Decide(kind: CallKind, rows: Table, id: Id): Decision {
    if kind.CompleteCall? then CompleteDecision(rows, id) else ReleaseDecision(rows, id)
  }

  ghost function ServerRead(s: State, c: nat): State {
    if !(c in s.calls && !s.calls[c].kind.ReserveCall? && s.calls[c].stage.Sent?) then s
    else
      var d := Decide(s.calls[c].kind, s.rows, s.calls[c].listing);
      s.(calls := s.calls[c := s.calls[c].(stage := if d.WriteNow? then SawReserved else Answered(d.AnswerOk?))])
  }

  /** The unconditional write: it does not look at the row again. */
  ghost function ServerWrite(s: State, c: nat): State {
    if !(c in s.calls && s.calls[c].stage.SawReserved? && s.calls[c].listing in s.rows) then s
    else
      var id := s.calls[c].listing;
      var release := s.calls[c].kind.ReleaseCall?;
      s.(rows := SetAvailability(s.rows, id, if release then Available else Availability.Completed),
         calls := s.calls[c := s.calls[c].(stage := Answered(true))],
         holder := if release then s.holder[id := Free] else s.holder)
  }

  /** Fault: the request never arrives, or the server dies before answering. */
  ghost function ServerLost(s: State, c: nat): State {
    if !(c in s.calls && !s.calls[c].stage.Answered?) then s
    else s.(calls := s.calls - {c})
  }

  // ----- create

  ghost function CreateStart(s: State, p: Proposal): State {
    s.(creates := s.creates[s.next := Create(p, Started)], next := s.next + 1)
  }

  /** A request moves to its next program point, or ends (None: it throws, or has nothing left to do). */
  function Put<T>(requests: map<nat, T>, r: nat, q: Option<T>): map<nat, T> {
    if q.Some? then requests[r := q.value] else requests - {r}
  }

  function ReadTargetForCreate(c: Create, rows: Table): Option<Create> {
    if c.p.target !in rows then None
    else if c.p.kind.TradeOffer? then Some(c.(pc := CreateTargetRead(rows[c.p.target])))
    else if c.p.offered.Some? || CanRequestDonation(rows[c.p.target], c.p.requester).Some? then None
    else Some(c.(pc := Checked))
  }

  ghost function CreateReadTarget(s: State, r: nat): State {
    if !(r in s.creates && s.creates[r].pc.Started?) then s
    else s.(creates := Put(s.creates, r, ReadTargetForCreate(s.creates[r], s.rows)))
  }

  function ReadOfferedForCreate(c: Create, rows: Table): Option<Create>
    requires c.pc.CreateTargetRead?
  {
    if c.p.offered.None? || c.p.offered.value !in rows then None
    else if CanOfferTrade(c.p.target, c.pc.target, c.p.offered.value, rows[c.p.offered.value], c.p.requester).Some? then None
    else Some(c.(pc := Checked))
  }

  ghost function CreateReadOffered(s: State, r: nat): State {
    if !(r in s.creates && s.creates[r].pc.CreateTargetRead?) then s
    else s.(creates := Put(s.creates, r, ReadOfferedForCreate(s.creates[r], s.rows)))
  }

  ghost function CreateInsert(s: State, r: nat, id: Id): State {
    if !(r in s.creates && s.creates[r].pc.Checked? && id !in s.ledger.proposals) then s
    else s.(ledger := InsertProposal(s.ledger, id, s.creates[r].p), creates := s.creates - {r})
  }

  // ----- reject

  ghost function DeclineLoad(s: State, id: Id, owner: Id): State {
    if id !in s.ledger.proposals then s
    else s.(declines := s.declines[s.next := Decline(id, s.ledger.proposals[id], owner, false)], next := s.next + 1)
  }

  function CheckOwner(d: Decline, rows: Table): Option<Decline> {
    if d.p.target in rows && rows[d.p.target].owner == d.owner then Some(d.(checked := true)) else None
  }

  ghost function DeclineCheck(s: State, r: nat): State {
    if !(r in s.declines && !s.declines[r].checked) then s
    else s.(declines := Put(s.declines, r, CheckOwner(s.declines[r], s.rows)))
  }

  ghost function DeclineCommit(s: State, r: nat, eventId: string, at: string): State {
    if !(r in s.declines && s.declines[r].checked && FreshEventId(s.ledger.outbox, eventId)) then s
    else
      var d := s.declines[r];
      match RejectTx(s.ledger, d.id, d.p, d.owner, eventId, at)
      case Some(l) => s.(ledger := l, declines := s.declines - {r})
      case None => s.(declines := s.declines - {r})
  }

  // ----- accept

  ghost function AcceptLoad(s: State, id: Id, owner: Id): State {
    if id !in s.ledger.proposals then s
    else s.(accepts := s.accepts[s.next := Accept(id, s.ledger.proposals[id], owner, false, false, Loaded)], next := s.next + 1)
  }

  function ReadTargetForAccept(a: Accept, rows: Table): Option<Accept> {
    if a.p.target in rows && rows[a.p.target].owner == a.owner then Some(a.(pc := TargetRead(rows[a.p.target]))) else None
  }

  ghost function AcceptReadTarget(s: State, r: nat): State {
    if !(r in s.accepts && s.accepts[r].pc.Loaded?) then s
    else s.(accepts := Put(s.accepts, r, ReadTargetForAccept(s.accepts[r], s.rows)))
  }

  /** Reads the offered listing, if any, then applies the acceptance guard to what was read. */
  function ReadOfferedForAccept(a: Accept, rows: Table): Option<Accept>
    requires a.pc.TargetRead?
  {
    if a.p.offered.Some? && a.p.offered.value !in rows then None
    else
      var offered := if a.p.offered.Some? then Some(rows[a.p.offered.value]) else None;
      if CanAccept(a.pc.target, a.p.status, offered).Some? then None else Some(a.(pc := Reserving))
  }

  ghost function AcceptReadOffered(s: State, r: nat): State {
    if !(r in s.accepts && s.accepts[r].pc.TargetRead?) then s
    else s.(accepts := Put(s.accepts, r, ReadOfferedForAccept(s.accepts[r], s.rows)))
  }

  /** The listing to reserve next: the target, then the offered listing, then none. */
  function NextToReserve(a: Accept): Option<Id> {
    if !a.targetReserved then Some(a.p.target)
    else if !a.offeredReserved then a.p.offered
    else None
  }

  ghost function AcceptIssue(s: State, r: nat): State {
    if !(r in s.accepts && s.accepts[r].pc.Reserving? && NextToReserve(s.accepts[r]).Some?) then s
    else
      var a := s.accepts[r];
      s.(calls := s.calls[s.next := Call(ReserveCall, NextToReserve(a).value, r, Sent)],
         accepts := s.accepts[r := a.(pc := Waiting(s.next))],
         next := s.next + 1)
  }

  predicate Answer(s: State, c: nat, ok: bool) {
    c in s.calls && s.calls[c].stage == Answered(ok)
  }

  /** The flag the acceptance sets once it has seen a reserve succeed. */
  function WithHold(a: Accept): Accept {
    var b := if a.targetReserved then a.(offeredReserved := true) else a.(targetReserved := true);
    b.(pc := Reserving)
  }

  ghost function AcceptSeen(s: State, r: nat): State {
    if !(r in s.accepts && s.accepts[r].pc.Waiting? && Answer(s, s.accepts[r].pc.call, true)) then s
    else
      var a := s.accepts[r];
      s.(calls := s.calls - {a.pc.call},
         accepts := s.accepts[r := WithHold(a)],
         holder := s.holder[s.calls[a.pc.call].listing := ByAccept(r)])
  }

  ghost function AcceptRefused(s: State, r: nat): State {
    if !(r in s.accepts && s.accepts[r].pc.Waiting? && Answer(s, s.accepts[r].pc.call, false)) then s
    else s.(calls := s.calls - {s.accepts[r].pc.call}, accepts := s.accepts[r := s.accepts[r].(pc := Undoing)])
  }

  /** Fault: timeout, network error, HTTP 500 or unreadable body. The reserve may or may not have been applied. */
  ghost function AcceptInDoubt(s: State, r: nat): State {
    if !(r in s.accepts && s.accepts[r].pc.Waiting?) then s
    else s.(accepts := s.accepts[r := s.accepts[r].(pc := Undoing)])
  }

  predicate ReadyToCommit(s: State, r: nat) {
    r in s.accepts && s.accepts[r].pc.Reserving? && NextToReserve(s.accepts[r]).None?
  }

  function HandOver(holder: Holders, p: Proposal, tid: Id): Holders {
    var h := holder[p.target := ByTransaction(tid)];
    if p.offered.Some? then h[p.offered.value := ByTransaction(tid)] else h
  }

  /** The local transaction. Publishing `proposal.accepted` afterwards returns a flag nobody reads, and never throws. */
  ghost function AcceptCommit(s: State, r: nat, tid: Id, rivals: seq<Rival>, at: string): State {
    if !(ReadyToCommit(s, r) && tid !in s.ledger.transactions
         && Enumerates(rivals, RivalIds(s.ledger.proposals, s.accepts[r].id, s.accepts[r].p.target), s.ledger.outbox)) then s
    else
      var a := s.accepts[r];
      match AcceptTx(s.ledger, a.id, a.p, a.owner, tid, rivals, at)
      case Some(l) => s.(ledger := l, accepts := s.accepts - {r}, holder := HandOver(s.holder, a.p, tid))
      case None => s.(accepts := s.accepts[r := a.(pc := Undoing)])
  }

  /** The database throws: the transaction has aborted. */
  ghost function AcceptAbort(s: State, r: nat): State {
    if !ReadyToCommit(s, r) then s
    else s.(accepts := s.accepts[r := s.accepts[r].(pc := Undoing)])
  }

  /** Compensation: the offered listing first, then the target; whatever a release answers is ignored. */
  ghost function AcceptRelease(s: State, r: nat): State {
    if !(r in s.accepts && s.accepts[r].pc.Undoing?) then s
    else
      var a := s.accepts[r];
      if a.offeredReserved && a.p.offered.Some? then
        s.(calls := s.calls[s.next := Call(ReleaseCall, a.p.offered.value, r, Sent)],
           accepts := s.accepts[r := a.(offeredReserved := false)],
           holder := s.holder[a.p.offered.value := ByRelease(s.next)],
           next := s.next + 1)
      else if a.targetReserved then
        s.(calls := s.calls[s.next := Call(ReleaseCall, a.p.target, r, Sent)],
           accepts := s.accepts[r := a.(targetReserved := false)],
           holder := s.holder[a.p.target := ByRelease(s.next)],
           next := s.next + 1)
      else s.(accepts := s.accepts - {r})
  }

  /** Fault: the process serving this acceptance dies. */
  ghost function AcceptCrash(s: State, r: nat): State {
    s.(accepts := s.accepts - {r})
  }

  // ----- confirm

  ghost function ConfirmLoad(s: State, tid: Id, actor: Id): State {
    if !(tid in s.ledger.transactions && CanConfirm(s.ledger.transactions[tid], actor).None?) then s
    else s.(confirms := s.confirms[s.next := Confirm(tid, actor, s.ledger.transactions[tid], OwnerTurn)], next := s.next + 1)
  }

  predicate ConfirmAt(s: State, r: nat) {
    r in s.confirms && s.confirms[r].tid in s.ledger.transactions
  }

  ghost function ConfirmOwner(s: State, r: nat): State {
    if !(ConfirmAt(s, r) && s.confirms[r].pc.OwnerTurn?) then s
    else
      var q := s.confirms[r];
      s.(confirms := s.confirms[r := q.(pc := RequesterTurn)],
         ledger := if q.actor == q.seen.owner && !q.seen.ownerConfirmed then ConfirmAsOwner(s.ledger, q.tid) else s.ledger)
  }

  ghost function ConfirmRequester(s: State, r: nat): State {
    if !(ConfirmAt(s, r) && s.confirms[r].pc.RequesterTurn?) then s
    else
      var q := s.confirms[r];
      s.(confirms := s.confirms[r := q.(pc := Rereading)],
         ledger := if q.actor == q.seen.requester && !q.seen.requesterConfirmed then ConfirmAsRequester(s.ledger, q.tid) else s.ledger)
  }

  function Reread(q: Confirm, t: Transaction): Option<Confirm> {
    if t.status.InProgress? && BothConfirmed(t) then Some(q.(seen := t, pc := Completing(false, false))) else None
  }

  ghost function ConfirmReread(s: State, r: nat): State {
    if !(ConfirmAt(s, r) && s.confirms[r].pc.Rereading?) then s
    else s.(confirms := Put(s.confirms, r, Reread(s.confirms[r], s.ledger.transactions[s.confirms[r].tid])))
  }

  function NextToComplete(t: Transaction, targetDone: bool, offeredDone: bool): Option<Id> {
    if !targetDone then Some(t.target)
    else if !offeredDone then t.offered
    else None
  }

  ghost function ConfirmIssue(s: State, r: nat): State {
    if !(r in s.confirms && s.confirms[r].pc.Completing?) then s
    else
      var q := s.confirms[r];
      var id := NextToComplete(q.seen, q.pc.targetDone, q.pc.offeredDone);
      if id.None? then s
      else
        s.(calls := s.calls[s.next := Call(CompleteCall, id.value, r, Sent)],
           confirms := s.confirms[r := q.(pc := WaitingComplete(q.pc.targetDone, s.next))],
           next := s.next + 1)
  }

  ghost function ConfirmSeen(s: State, r: nat): State {
    if !(r in s.confirms && s.confirms[r].pc.WaitingComplete? && Answer(s, s.confirms[r].pc.call, true)) then s
    else
      var q := s.confirms[r];
      s.(calls := s.calls - {q.pc.call}, confirms := s.confirms[r := q.(pc := Completing(true, q.pc.targetDone))])
  }

  /** The completion claim; `handed` says whether the request lives long enough to hand its event over. */
  ghost function ConfirmClaim(s: State, r: nat, handed: bool): State {
    if !(r in s.confirms && s.confirms[r].pc.Completing?) then s
    else
      var q := s.confirms[r];
      if NextToComplete(q.seen, q.pc.targetDone, q.pc.offeredDone).Some? then s
      else
        s.(ledger := ClaimCompletion(s.ledger, q.tid),
           confirms := s.confirms - {r},
           announced := if CanClaim(s.ledger, q.tid) && handed then s.announced + [q.tid] else s.announced)
  }

  /** A create, reject or confirm request throws or dies; none of them has anything to undo. */
  ghost function RequestEnds(s: State, r: nat): State {
    s.(creates := s.creates - {r}, declines := s.declines - {r}, confirms := s.confirms - {r})
  }

  // ----- Runs

  datatype ListingAction =
    | DoListingCreated(id: Id, owner: Id, operation: OperationType)
    | DoListingModerated(id: Id, operation: OperationType, status: ListingStatus)

  datatype ServerAction = DoServerReserve(c: nat) | DoServerRead(c: nat) | DoServerWrite(c: nat) | DoServerLost(c: nat)

  datatype DraftAction =
    | DoCreateStart(p: Proposal) | DoCreateReadTarget(r: nat) | DoCreateReadOffered(r: nat) | DoCreateInsert(r: nat, id: Id)
    | DoDeclineLoad(id: Id, owner: Id) | DoDeclineCheck(r: nat) | DoDeclineCommit(r: nat, eventId: string, at: string)
    | DoRequestEnds(r: nat)

  datatype AcceptAction =
    | DoAcceptLoad(id: Id, owner: Id) | DoAcceptReadTarget(r: nat) | DoAcceptReadOffered(r: nat)
    | DoAcceptIssue(r: nat) | DoAcceptSeen(r: nat) | DoAcceptRefused(r: nat) | DoAcceptInDoubt(r: nat)
    | DoAcceptCommit(r: nat, tid: Id, rivals: seq<Rival>, at: string) | DoAcceptAbort(r: nat)
    | DoAcceptRelease(r: nat) | DoAcceptCrash(r: nat)

  datatype ConfirmAction =
    | DoConfirmLoad(tid: Id, actor: Id) | DoConfirmOwner(r: nat) | DoConfirmRequester(r: nat) | DoConfirmReread(r: nat)
    | DoConfirmIssue(r: nat) | DoConfirmSeen(r: nat) | DoConfirmClaim(r: nat, handed: bool)

  datatype Action =
    | OnListing(listing: ListingAction)
    | OnServer(server: ServerAction)
    | OnDraft(draft: DraftAction)
    | OnAccept(accept: AcceptAction)
    | OnConfirm(confirm: ConfirmAction)

  ghost function ApplyListing(s: State, a: ListingAction): State {
    match a
    case DoListingCreated(id, owner, operation) => ListingCreated(s, id, owner, operation)
    case DoListingModerated(id, operation, status) => ListingModerated(s, id, operation, status)
  }

  ghost function ApplyServer(s: State, a: ServerAction): State {
    match a
    case DoServerReserve(c) => ServerReserve(s, c)
    case DoServerRead(c) => ServerRead(s, c)
    case DoServerWrite(c) => ServerWrite(s, c)
    case DoServerLost(c) => ServerLost(s, c)
  }

  ghost function ApplyDraft(s: State, a: DraftAction): State {
    match a
    case DoCreateStart(p) => CreateStart(s, p)
    case DoCreateReadTarget(r) => CreateReadTarget(s, r)
    case DoCreateReadOffered(r) => CreateReadOffered(s, r)
    case DoCreateInsert(r, id) => CreateInsert(s, r, id)
    case DoDeclineLoad(id, owner) => DeclineLoad(s, id, owner)
    case DoDeclineCheck(r) => DeclineCheck(s, r)
    case DoDeclineCommit(r, eventId, at) => DeclineCommit(s, r, eventId, at)
    case DoRequestEnds(r) => RequestEnds(s, r)
  }

  ghost function ApplyAccept(s: State, a: AcceptAction): State {
    match a
    case DoAcceptLoad(id, owner) => AcceptLoad(s, id, owner)
    case DoAcceptReadTarget(r) => AcceptReadTarget(s, r)
    case DoAcceptReadOffered(r) => AcceptReadOffered(s, r)
    case DoAcceptIssue(r) => AcceptIssue(s, r)
    case DoAcceptSeen(r) => AcceptSeen(s, r)
    case DoAcceptRefused(r) => AcceptRefused(s, r)
    case DoAcceptInDoubt(r) => AcceptInDoubt(s, r)
    case DoAcceptCommit(r, tid, rivals, at) => AcceptCommit(s, r, tid, rivals, at)
    case DoAcceptAbort(r) => AcceptAbort(s, r)
    case DoAcceptRelease(r) => AcceptRelease(s, r)
    case DoAcceptCrash(r) => AcceptCrash(s, r)
  }

  ghost function ApplyConfirm(s: State, a: ConfirmAction): State {
    match a
    case DoConfirmLoad(tid, actor) => ConfirmLoad(s, tid, actor)
    case DoConfirmOwner(r) => ConfirmOwner(s, r)
    case DoConfirmRequester(r) => ConfirmRequester(s, r)
    case DoConfirmReread(r) => ConfirmReread(s, r)
    case DoConfirmIssue(r) => ConfirmIssue(s, r)
    case DoConfirmSeen(r) => ConfirmSeen(s, r)
    case DoConfirmClaim(r, handed) => ConfirmClaim(s, r, handed)
  }

  ghost function Apply(s: State, a: Action): State {
    match a
    case OnListing(x) => ApplyListing(s, x)
    case OnServer(x) => ApplyServer(s, x)
    case OnDraft(x) => ApplyDraft(s, x)
    case OnAccept(x) => ApplyAccept(s, x)
    case OnConfirm(x) => ApplyConfirm(s, x)
  }

  /** The state after the run `acts` from `s`. */
  ghost function Exec(s: State, acts: seq<Action>): State {
    if acts == [] then s else Apply(Exec(s, acts[..|acts| - 1]), acts[|acts| - 1])
  }
}
