/**
  From a rejected proposal to the notification inbox, as a state machine: the ledger's outbox, any number of
  workers, a broker queue that may deliver again and again, any number of consumers, and an inbox keyed by event
  id. Crashes and failures may strike between any two steps.
*/
module Delivery {
  import opened Wrappers
  import opened Catalog
  import opened Ledger
  import opened EventContract
  import Text

  /** The text of interned identifiers, and the dates `Date.parse` understands. */
  datatype World = World(names: Id -> string, isDate: string -> bool)

  /** Identifiers are non-blank and two of them are never the same text. */
  ghost predicate Sane(w: World) {
    && (forall id :: Text.NonBlank(w.names(id)))
    && (forall a, b :: w.names(a) == w.names(b) ==> a == b)
  }

  /** The bytes of a message: JSON, or None for bytes that are not JSON at all. */
  type Message = Option<Json>

  /** What the consumer makes of a message: an event, or None when it breaks the contract. */
  function Read(m: Message, isDate: string -> bool): Option<Event> {
    match m
    case None => None
    case Some(j) => (match Parse(j, isDate) case Ok(e) => Some(e) case Err(_) => None)
  }

  function Understand(m: Message, w: World): Option<Event> {
    Read(m, w.isDate)
  }

  function RowEvent(row: OutboxRow, w: World): Event {
    Event(row.eventId, row.occurredAt,
          ProposalRejected(w.names(row.payload.proposal), w.names(row.payload.target), w.names(row.payload.requester), w.names(row.payload.owner)))
  }

  /** The envelope the worker builds; it carries the committed event id on every attempt. */
  function RowMessage(row: OutboxRow, w: World): Message {
    Some(Build(RowEvent(row, w)))
  }

  datatype Delivered = Delivered(message: Message, recorded: bool)

  datatype WorkerPc = Sending(attempt: nat) | Marking(published: bool)

  /** A sweep in progress: the rows it read and has not settled yet, the first one being handled. */
  datatype Worker = Worker(batch: seq<OutboxRow>, pc: WorkerPc)

  type Queue = multiset<Message>

  type Unacked = map<nat, Delivered>

  type Workers = map<nat, Worker>

  type Inbox = map<string, Event>

  /** `direct` holds the ids of events published without an outbox. */
  datatype State = State(ledger: Ledger, queue: Queue, unacked: Unacked, workers: Workers, inbox: Inbox, direct: set<string>, next: nat)

  const INIT := State(EMPTY_LEDGER, multiset{}, map[], map[], map[], {}, 0)

  const BATCH := 25

  // ----- Steps

  /** The event ids and dates an operation brings with it are usable: fresh across all events, and real dates. */
  ghost predicate Mints(op: Op, direct: set<string>, w: World) {
    match op
    case RejectOne(_, _, _, eventId, at) => eventId !in direct && w.isDate(at)
    case AcceptOne(_, _, _, _, rivals, at) => w.isDate(at) && forall i :: 0 <= i < |rivals| ==> rivals[i].eventId !in direct
    case Mark(_, _) => false
    case _ => true
  }

  ghost function LedgerStep(s: State, w: World, op: Op): State {
    if Enabled(s.ledger, op) && Mints(op, s.direct, w) then s.(ledger := ApplyOp(s.ledger, op)) else s
  }

  ghost predicate IsBatch(batch: seq<OutboxRow>, outbox: seq<OutboxRow>) {
    0 < |batch| <= BATCH && forall k :: 0 <= k < |batch| ==> batch[k] in outbox && !batch[k].published
  }

  ghost function WorkerStart(s: State, batch: seq<OutboxRow>): State {
    if !IsBatch(batch, s.ledger.outbox) then s
    else s.(workers := s.workers[s.next := Worker(batch, Sending(1))], next := s.next + 1)
  }

  predicate CanSend(s: State, k: nat) {
    k in s.workers && s.workers[k].pc.Sending? && s.workers[k].batch != []
  }

  /** One publish attempt. A confirm implies the broker has the message; without one it may or may not have it. */
  ghost function WorkerSend(s: State, w: World, k: nat, reached: bool, confirmed: bool): State {
    if !CanSend(s, k) || (confirmed && !reached) then s
    else
      var x := s.workers[k];
      var pc := if confirmed then Marking(true) else if x.pc.attempt < 2 then Sending(x.pc.attempt + 1) else Marking(false);
      s.(queue := if reached then s.queue + multiset{RowMessage(x.batch[0], w)} else s.queue,
         workers := s.workers[k := x.(pc := pc)])
  }

  /** The conditional update that follows; after a failure the sweep stops. */
  ghost function WorkerMark(s: State, k: nat): State {
    if !(k in s.workers && s.workers[k].pc.Marking? && s.workers[k].batch != []) then s
    else
      var x := s.workers[k];
      s.(ledger := s.ledger.(outbox := MarkOutbox(s.ledger.outbox, x.batch[0].eventId, x.pc.published)),
         workers := if x.pc.published && |x.batch| > 1 then s.workers[k := Worker(x.batch[1..], Sending(1))] else s.workers - {k})
  }

  ghost function WorkerStops(s: State, k: nat): State {
    s.(workers := s.workers - {k})
  }

  /** Created, accepted and completed events go out once, unrecorded, in 0, 1 or 2 copies. */
  ghost function PublishDirect(s: State, e: Event, copies: nat): State {
    if e.data.ProposalRejected? || e.eventId in s.direct || UsedEventId(s.ledger.outbox, e.eventId) then s
    else s.(queue := s.queue[Some(Build(e)) := s.queue[Some(Build(e))] + copies], direct := s.direct + {e.eventId})
  }

  /** Bytes that break the contract. */
  ghost function Garbage(s: State, w: World, m: Message): State {
    if Understand(m, w).Some? then s else s.(queue := s.queue + multiset{m})
  }

  ghost function Deliver(s: State, m: Message): State {
    if m !in s.queue then s
    else s.(queue := s.queue - multiset{m}, unacked := s.unacked[s.next := Delivered(m, false)], next := s.next + 1)
  }

  /** Insert if absent, in one atomic statement. */
  function Insert(inbox: Inbox, e: Event): Inbox {
    if e.eventId in inbox then inbox else inbox[e.eventId := e]
  }

  ghost function Record(s: State, w: World, tag: nat): State {
    if !(tag in s.unacked && Understand(s.unacked[tag].message, w).Some?) then s
    else s.(inbox := Insert(s.inbox, Understand(s.unacked[tag].message, w).value), unacked := s.unacked[tag := s.unacked[tag].(recorded := true)])
  }

  ghost function Ack(s: State, tag: nat): State {
    if !(tag in s.unacked && s.unacked[tag].recorded) then s else s.(unacked := s.unacked - {tag})
  }

  /** Only a message that breaks the contract is discarded. */
  ghost function Discard(s: State, w: World, tag: nat): State {
    if !(tag in s.unacked && Understand(s.unacked[tag].message, w).None?) then s else s.(unacked := s.unacked - {tag})
  }

  /** A nack with requeue, a lost channel or a dead consumer: the message goes back, recorded or not. */
  ghost function Requeue(s: State, tag: nat): State {
    if tag !in s.unacked then s
    else s.(queue := s.queue + multiset{s.unacked[tag].message}, unacked := s.unacked - {tag})
  }

  datatype Action =
    | DoLedger(op: Op)
    | DoWorkerStart(batch: seq<OutboxRow>) | DoWorkerSend(k: nat, reached: bool, confirmed: bool) | DoWorkerMark(k: nat) | DoWorkerStops(k: nat)
    | DoPublishDirect(e: Event, copies: nat) | DoGarbage(m: Message)
    | DoDeliver(m: Message) | DoRecord(tag: nat) | DoAck(tag: nat) | DoDiscard(tag: nat) | DoRequeue(tag: nat)

  ghost function Apply(s: State, w: World, a: Action): State {
    match a
    case DoLedger(op) => LedgerStep(s, w, op)
    case DoWorkerStart(batch) => WorkerStart(s, batch)
    case DoWorkerSend(k, reached, confirmed) => WorkerSend(s, w, k, reached, confirmed)
    case DoWorkerMark(k) => WorkerMark(s, k)
    case DoWorkerStops(k) => WorkerStops(s, k)
    case DoPublishDirect(e, copies) => PublishDirect(s, e, copies)
    case DoGarbage(m) => Garbage(s, w, m)
    case DoDeliver(m) => Deliver(s, m)
    case DoRecord(tag) => Record(s, w, tag)
    case DoAck(tag) => Ack(s, tag)
    case DoDiscard(tag) => Discard(s, w, tag)
    case DoRequeue(tag) => Requeue(s, tag)
  }

  ghost function Exec(w: World, acts: seq<Action>): State {
    if acts == [] then INIT else Apply(Exec(w, acts[..|acts| - 1]), w, acts[|acts| - 1])
  }

  // ----- Invariant

  ghost predicate OutboxGood(outbox: seq<OutboxRow>, w: World) {
    forall i :: 0 <= i < |outbox| ==> RowGood(outbox[i], w)
  }

  predicate RowGood(row: OutboxRow, w: World) {
    Text.NonBlank(row.eventId) && Text.Utf16Length(row.eventId) <= 128 && w.isDate(row.occurredAt)
  }

  ghost predicate DirectApart(outbox: seq<OutboxRow>, direct: set<string>) {
    forall i :: 0 <= i < |outbox| ==> outbox[i].eventId !in direct
  }

  ghost predicate FromOutbox(e: Event, outbox: seq<OutboxRow>, w: World) {
    exists i :: 0 <= i < |outbox| && RowEvent(outbox[i], w) == e
  }

  /** A rejection comes from an outbox row, anything else from a direct publication. */
  ghost predicate EventSourced(e: Event, outbox: seq<OutboxRow>, direct: set<string>, w: World) {
    if e.data.ProposalRejected? then FromOutbox(e, outbox, w) else e.eventId in direct
  }

  ghost predicate MessageSourced(m: Message, outbox: seq<OutboxRow>, direct: set<string>, w: World) {
    Understand(m, w).Some? ==> EventSourced(Understand(m, w).value, outbox, direct, w)
  }

  ghost predicate QueueSourced(queue: Queue, outbox: seq<OutboxRow>, direct: set<string>, w: World) {
    forall m :: m in queue ==> MessageSourced(m, outbox, direct, w)
  }

  ghost predicate UnackedSourced(unacked: Unacked, outbox: seq<OutboxRow>, direct: set<string>, w: World) {
    forall tag :: tag in unacked ==> MessageSourced(unacked[tag].message, outbox, direct, w)
  }

  ghost predicate InboxSourced(inbox: Inbox, outbox: seq<OutboxRow>, direct: set<string>, w: World) {
    forall id :: id in inbox ==> inbox[id].eventId == id && EventSourced(inbox[id], outbox, direct, w)
  }

  ghost predicate RecordedInInbox(unacked: Unacked, inbox: Inbox, w: World) {
    forall tag :: tag in unacked && unacked[tag].recorded ==>
      var e := Understand(unacked[tag].message, w); e.Some? && e.value.eventId in inbox
  }

  ghost predicate InFlight(unacked: Unacked, m: Message) {
    exists tag :: tag in unacked && unacked[tag].message == m
  }

  /** The row's message is queued, or delivered and not settled, or already in the inbox. */
  ghost predicate Reached(m: Message, eventId: string, queue: Queue, unacked: Unacked, inbox: Inbox) {
    m in queue || InFlight(unacked, m) || eventId in inbox
  }

  ghost predicate PublishedReached(outbox: seq<OutboxRow>, queue: Queue, unacked: Unacked, inbox: Inbox, w: World) {
    forall i :: 0 <= i < |outbox| && outbox[i].published ==> Reached(RowMessage(outbox[i], w), outbox[i].eventId, queue, unacked, inbox)
  }

  ghost predicate IsRow(row: OutboxRow, outbox: seq<OutboxRow>) {
    exists i :: 0 <= i < |outbox| && SameEvent(outbox[i], row)
  }

  ghost predicate WorkersKnow(workers: Workers, outbox: seq<OutboxRow>) {
    forall k, j :: k in workers && 0 <= j < |workers[k].batch| ==> IsRow(workers[k].batch[j], outbox)
  }

  ghost predicate WorkersReached(workers: Workers, queue: Queue, unacked: Unacked, inbox: Inbox, w: World) {
    forall k :: k in workers && workers[k].pc == Marking(true) && workers[k].batch != [] ==>
      Reached(RowMessage(workers[k].batch[0], w), workers[k].batch[0].eventId, queue, unacked, inbox)
  }

  ghost predicate SourceInv(s: State, w: World) {
    && OutboxGood(s.ledger.outbox, w)
    && DirectApart(s.ledger.outbox, s.direct)
    && QueueSourced(s.queue, s.ledger.outbox, s.direct, w)
    && UnackedSourced(s.unacked, s.ledger.outbox, s.direct, w)
    && InboxSourced(s.inbox, s.ledger.outbox, s.direct, w)
  }

  ghost predicate ReachInv(s: State, w: World) {
    && RecordedInInbox(s.unacked, s.inbox, w)
    && PublishedReached(s.ledger.outbox, s.queue, s.unacked, s.inbox, w)
    && WorkersKnow(s.workers, s.ledger.outbox)
    && WorkersReached(s.workers, s.queue, s.unacked, s.inbox, w)
    && (forall tag :: tag in s.unacked ==> tag < s.next)
  }

  ghost predicate Inv(s: State, w: World) {
    Consistent(s.ledger) && SourceInv(s, w) && ReachInv(s, w)
  }
}
