/** Every step of the delivery pipeline keeps its invariant. */
module DeliverySteps {
  import opened Wrappers
  import opened Catalog
  import opened Ledger
  import opened EventContract
  import opened Delivery
  import Text

  // ----- Rows and their messages

  /** A good row's message always reads back as the row's own rejection. */
  lemma RowMessageUnderstood(row: OutboxRow, w: World)
    requires Sane(w) && RowGood(row, w)
    ensures Understand(RowMessage(row, w), w) == Some(RowEvent(row, w))
  {
    hide Parse, Build, Text.Trim, Text.Utf16Length;
    ProducersAgreeWithParser(RowEvent(row, w), w.isDate);
  }

  lemma SameEventSameMessage(a: OutboxRow, b: OutboxRow, w: World)
    requires SameEvent(a, b)
    ensures RowEvent(a, w) == RowEvent(b, w) && RowMessage(a, w) == RowMessage(b, w) && (RowGood(a, w) <==> RowGood(b, w))
  {
    hide Build, Text.Trim, Text.Utf16Length;
  }

  // ----- Sources survive a growing outbox

  ghost predicate Extends(a: seq<OutboxRow>, b: seq<OutboxRow>) {
    |a| <= |b| && forall i :: 0 <= i < |a| ==> SameEvent(a[i], b[i])
  }

  lemma EventStillSourced(e: Event, a: seq<OutboxRow>, b: seq<OutboxRow>, d: set<string>, d': set<string>, w: World)
    requires Extends(a, b) && d <= d' && EventSourced(e, a, d, w)
    ensures EventSourced(e, b, d', w)
  {
    if e.data.ProposalRejected? {
      var i :| 0 <= i < |a| && RowEvent(a[i], w) == e;
      SameEventSameMessage(a[i], b[i], w);
      assert RowEvent(b[i], w) == e;
    }
  }

  lemma SourcesSurvive(s: State, b: seq<OutboxRow>, d': set<string>, w: World)
    requires SourceInv(s, w) && Extends(s.ledger.outbox, b) && s.direct <= d'
    ensures QueueSourced(s.queue, b, d', w) && UnackedSourced(s.unacked, b, d', w) && InboxSourced(s.inbox, b, d', w)
  {
    hide EventSourced, Understand, OutboxGood, DirectApart, SameEvent, Extends;
    forall e | EventSourced(e, s.ledger.outbox, s.direct, w)
      ensures EventSourced(e, b, d', w)
    {
      EventStillSourced(e, s.ledger.outbox, b, s.direct, d', w);
    }
  }

  lemma BatchesStillKnown(workers: Workers, a: seq<OutboxRow>, b: seq<OutboxRow>)
    requires WorkersKnow(workers, a) && Extends(a, b)
    ensures WorkersKnow(workers, b)
  {
    forall k, j | k in workers && 0 <= j < |workers[k].batch|
      ensures IsRow(workers[k].batch[j], b)
    {
      var i :| 0 <= i < |a| && SameEvent(a[i], workers[k].batch[j]);
      assert SameEvent(b[i], workers[k].batch[j]);
    }
  }

  // ----- Nothing a row relies on is lost

  ghost predicate StillReached(s: State, t: State, w: World) {
    forall m :: Understand(m, w).Some? && Reached(m, Understand(m, w).value.eventId, s.queue, s.unacked, s.inbox) ==>
      Reached(m, Understand(m, w).value.eventId, t.queue, t.unacked, t.inbox)
  }

  lemma KnownRowMessage(row: OutboxRow, outbox: seq<OutboxRow>, w: World)
    requires Sane(w) && OutboxGood(outbox, w) && IsRow(row, outbox)
    ensures Understand(RowMessage(row, w), w) == Some(RowEvent(row, w)) && FromOutbox(RowEvent(row, w), outbox, w)
  {
    hide RowGood, Understand, RowMessage;
    var i :| 0 <= i < |outbox| && SameEvent(outbox[i], row);
    assert RowGood(outbox[i], w);
    SameEventSameMessage(outbox[i], row, w);
    RowMessageUnderstood(row, w);
    assert RowEvent(outbox[i], w) == RowEvent(row, w);
  }

  lemma CarryReached(s: State, t: State, w: World)
    requires Sane(w) && SourceInv(s, w) && ReachInv(s, w) && StillReached(s, t, w)
    ensures PublishedReached(s.ledger.outbox, t.queue, t.unacked, t.inbox, w)
    ensures WorkersReached(s.workers, t.queue, t.unacked, t.inbox, w)
  {
    hide Understand, RowMessage, RowGood, Reached, QueueSourced, UnackedSourced, InboxSourced, DirectApart, RecordedInInbox, SameEvent;
    var outbox := s.ledger.outbox;
    forall i | 0 <= i < |outbox| && outbox[i].published
      ensures Reached(RowMessage(outbox[i], w), outbox[i].eventId, t.queue, t.unacked, t.inbox)
    {
      assert RowGood(outbox[i], w);
      RowMessageUnderstood(outbox[i], w);
      assert RowEvent(outbox[i], w).eventId == outbox[i].eventId;
    }
    forall k | k in s.workers && s.workers[k].pc == Marking(true) && s.workers[k].batch != []
      ensures Reached(RowMessage(s.workers[k].batch[0], w), s.workers[k].batch[0].eventId, t.queue, t.unacked, t.inbox)
    {
      assert IsRow(s.workers[k].batch[0], outbox);
      KnownRowMessage(s.workers[k].batch[0], outbox, w);
      assert RowEvent(s.workers[k].batch[0], w).eventId == s.workers[k].batch[0].eventId;
    }
  }

  // ----- Ledger operations

  /** An operation leaves the outbox rows alone and appends unpublished rows with event ids and dates of their own. */
  lemma OpAppends(l: Ledger, op: Op, direct: set<string>, w: World)
    requires Enabled(l, op) && Mints(op, direct, w)
    ensures var outbox := ApplyOp(l, op).outbox;
            && |l.outbox| <= |outbox| && outbox[..|l.outbox|] == l.outbox
            && forall i :: |l.outbox| <= i < |outbox| ==> !outbox[i].published && RowGood(outbox[i], w) && outbox[i].eventId !in direct
  {
    hide Text.Trim, Text.Utf16Length;
    var outbox := ApplyOp(l, op).outbox;
    if op.AcceptOne? {
      forall i | |l.outbox| <= i < |outbox|
        ensures !outbox[i].published && RowGood(outbox[i], w) && outbox[i].eventId !in direct
      {
        var r := op.rivals[i - |l.outbox|];
        assert FreshEventId(l.outbox, r.eventId);
      }
    }
  }

  lemma LedgerStepKeepsInv(s: State, w: World, op: Op)
    requires Sane(w) && Inv(s, w)
    ensures Inv(LedgerStep(s, w, op), w)
  {
    hide Consistent, Enabled, ApplyOp, Mints, RowGood, MessageSourced, EventSourced, Reached, RecordedInInbox, QueueSourced, UnackedSourced, InboxSourced;
    if Enabled(s.ledger, op) && Mints(op, s.direct, w) {
      var a, b := s.ledger.outbox, ApplyOp(s.ledger, op).outbox;
      OpKeepsConsistent(s.ledger, op);
      OpAppends(s.ledger, op, s.direct, w);
      assert forall i :: 0 <= i < |a| ==> b[i] == b[..|a|][i] == a[i];
      assert Extends(a, b);
      SourcesSurvive(s, b, s.direct, w);
      BatchesStillKnown(s.workers, a, b);
    }
  }

  // ----- Worker steps

  lemma WorkerStartKeepsInv(s: State, w: World, batch: seq<OutboxRow>)
    requires Inv(s, w)
    ensures Inv(WorkerStart(s, batch), w)
  {
    hide Consistent, OutboxGood, DirectApart, QueueSourced, UnackedSourced, InboxSourced, RecordedInInbox, PublishedReached, Reached;
    if IsBatch(batch, s.ledger.outbox) {
      forall j | 0 <= j < |batch|
        ensures IsRow(batch[j], s.ledger.outbox)
      {
        assert batch[j] in s.ledger.outbox;
        var i :| 0 <= i < |s.ledger.outbox| && s.ledger.outbox[i] == batch[j];
        assert SameEvent(s.ledger.outbox[i], batch[j]);
      }
    }
  }

  lemma EnqueuingKeepsReached(s: State, w: World, extra: Queue, t: State)
    requires t.queue == s.queue + extra && t.unacked == s.unacked && t.inbox == s.inbox
    ensures StillReached(s, t, w)
  {
    hide Understand;
  }

  /** Whatever a worker sends for a row it read is one more message that stands for a row of the outbox. */
  lemma RowMessageSourced(row: OutboxRow, outbox: seq<OutboxRow>, direct: set<string>, w: World)
    requires Sane(w) && OutboxGood(outbox, w) && IsRow(row, outbox)
    ensures MessageSourced(RowMessage(row, w), outbox, direct, w)
  {
    hide Understand, RowMessage, FromOutbox, IsRow, OutboxGood;
    KnownRowMessage(row, outbox, w);
  }

  lemma SendReaches(s: State, w: World, k: nat, reached: bool, confirmed: bool)
    requires Sane(w) && SourceInv(s, w) && ReachInv(s, w) && CanSend(s, k) && (confirmed ==> reached)
    ensures ReachInv(WorkerSend(s, w, k, reached, confirmed), w)
  {
    hide OutboxGood, DirectApart, QueueSourced, UnackedSourced, InboxSourced, RecordedInInbox, PublishedReached,
         Understand, RowMessage, IsRow, StillReached, InFlight;
    var t := WorkerSend(s, w, k, reached, confirmed);
    var m := RowMessage(s.workers[k].batch[0], w);
    EnqueuingKeepsReached(s, w, if reached then multiset{m} else multiset{}, t);
    CarryReached(s, t, w);
  }

  lemma WorkerSendKeepsInv(s: State, w: World, k: nat, reached: bool, confirmed: bool)
    requires Sane(w) && Inv(s, w)
    ensures Inv(WorkerSend(s, w, k, reached, confirmed), w)
  {
    if CanSend(s, k) && (confirmed ==> reached) {
      assert IsRow(s.workers[k].batch[0], s.ledger.outbox);
      hide Consistent, ReachInv, InboxSourced, UnackedSourced, OutboxGood, DirectApart, MessageSourced, RowMessage, IsRow;
      RowMessageSourced(s.workers[k].batch[0], s.ledger.outbox, s.direct, w);
      SendReaches(s, w, k, reached, confirmed);
    }
  }

  lemma WorkerStopsKeepsInv(s: State, w: World, k: nat)
    requires Inv(s, w)
    ensures Inv(WorkerStops(s, k), w)
  {
    hide Consistent, OutboxGood, DirectApart, QueueSourced, UnackedSourced, InboxSourced, RecordedInInbox, PublishedReached, Reached, IsRow;
  }

  // ----- Marking

  lemma MarkKeepsRows(outbox: seq<OutboxRow>, eventId: string, published: bool, w: World)
    ensures var b := MarkOutbox(outbox, eventId, published);
            && Extends(outbox, b) && |b| == |outbox|
            && (OutboxGood(outbox, w) ==> OutboxGood(b, w))
            && forall i :: 0 <= i < |outbox| ==> RowMessage(b[i], w) == RowMessage(outbox[i], w) && b[i].eventId == outbox[i].eventId
                                                 && (b[i].published ==> outbox[i].published || (published && outbox[i].eventId == eventId))
  {
    hide RowGood, RowMessage;
    var b := MarkOutbox(outbox, eventId, published);
    forall i | 0 <= i < |outbox|
      ensures SameEvent(outbox[i], b[i]) && RowMessage(b[i], w) == RowMessage(outbox[i], w) && (RowGood(outbox[i], w) ==> RowGood(b[i], w))
    {
      SameEventSameMessage(outbox[i], b[i], w);
    }
    assert OutboxGood(outbox, w) ==> forall i :: 0 <= i < |b| ==> RowGood(outbox[i], w) && RowGood(b[i], w);
  }

  /** A row marked as published is the very row whose message the broker confirmed. */
  lemma MarkedRowReached(s: State, w: World, k: nat)
    requires RowsDistinct(s.ledger.outbox) && ReachInv(s, w)
    requires k in s.workers && s.workers[k].pc.Marking? && s.workers[k].batch != []
    ensures PublishedReached(MarkOutbox(s.ledger.outbox, s.workers[k].batch[0].eventId, s.workers[k].pc.published), s.queue, s.unacked, s.inbox, w)
  {
    hide RowMessage, Reached, RecordedInInbox, OutboxGood, RowGood;
    var x := s.workers[k];
    var row := x.batch[0];
    var a, b := s.ledger.outbox, MarkOutbox(s.ledger.outbox, row.eventId, x.pc.published);
    MarkKeepsRows(a, row.eventId, x.pc.published, w);
    assert IsRow(row, a);
    var j :| 0 <= j < |a| && SameEvent(a[j], row);
    SameEventSameMessage(a[j], row, w);
    forall i | 0 <= i < |b| && b[i].published
      ensures Reached(RowMessage(b[i], w), b[i].eventId, s.queue, s.unacked, s.inbox)
    {
      if !a[i].published {
        assert i == j;
      }
    }
  }

  lemma MarkedWorkers(s: State, w: World, k: nat)
    requires ReachInv(s, w)
    requires k in s.workers && s.workers[k].pc.Marking? && s.workers[k].batch != []
    ensures var t := WorkerMark(s, k); WorkersKnow(t.workers, s.ledger.outbox) && WorkersReached(t.workers, s.queue, s.unacked, s.inbox, w)
  {
    hide RowMessage, Reached, RecordedInInbox, PublishedReached, IsRow, MarkOutbox;
  }

  lemma WorkerMarkKeepsInv(s: State, w: World, k: nat)
    requires Inv(s, w)
    ensures Inv(WorkerMark(s, k), w)
  {
    if k in s.workers && s.workers[k].pc.Marking? && s.workers[k].batch != [] {
      var eventId, published := s.workers[k].batch[0].eventId, s.workers[k].pc.published;
      var b := MarkOutbox(s.ledger.outbox, eventId, published);
      MarkKeepsConsistent(s.ledger, eventId, published);
      MarkKeepsRows(s.ledger.outbox, eventId, published, w);
      SourcesSurvive(s, b, s.direct, w);
      MarkedRowReached(s, w, k);
      MarkedWorkers(s, w, k);
      BatchesStillKnown(WorkerMark(s, k).workers, s.ledger.outbox, b);
      hide Consistent, OutboxGood, QueueSourced, UnackedSourced, InboxSourced, RecordedInInbox, PublishedReached,
           WorkersKnow, WorkersReached, MarkOutbox, Extends, RowMessage;
    }
  }

  // ----- Other publishers

  lemma DirectSourced(e: Event, outbox: seq<OutboxRow>, direct: set<string>, w: World)
    requires !e.data.ProposalRejected? && e.eventId in direct
    ensures MessageSourced(Some(Build(e)), outbox, direct, w)
  {
    hide Parse, Build;
    ProducersAgreeWithParser(e, w.isDate);
  }

  lemma PublishDirectKeepsInv(s: State, w: World, e: Event, copies: nat)
    requires Sane(w) && Inv(s, w)
    ensures Inv(PublishDirect(s, e, copies), w)
  {
    if !(e.data.ProposalRejected? || e.eventId in s.direct || UsedEventId(s.ledger.outbox, e.eventId)) {
      hide Consistent, RecordedInInbox, OutboxGood, Build, EventSourced, MessageSourced, WorkersKnow;
      var t := PublishDirect(s, e, copies);
      SourcesSurvive(s, s.ledger.outbox, t.direct, w);
      DirectSourced(e, s.ledger.outbox, t.direct, w);
      DirectReached(s, w, e, copies);
      CarryReached(s, t, w);
    }
  }

  lemma DirectReached(s: State, w: World, e: Event, copies: nat)
    ensures StillReached(s, PublishDirect(s, e, copies), w)
  {
    hide Build, Understand, UsedEventId;
  }

  lemma GarbageKeepsInv(s: State, w: World, m: Message)
    requires Sane(w) && Inv(s, w)
    ensures Inv(Garbage(s, w, m), w)
  {
    if Understand(m, w).None? {
      hide Consistent, RecordedInInbox, OutboxGood, DirectApart, UnackedSourced, InboxSourced, EventSourced, Understand, WorkersKnow;
      var t := Garbage(s, w, m);
      EnqueuingKeepsReached(s, w, multiset{m}, t);
      CarryReached(s, t, w);
    }
  }

  // ----- The consumer

  lemma DeliverReached(s: State, w: World, m: Message)
    requires ReachInv(s, w)
    ensures StillReached(s, Deliver(s, m), w)
  {
    hide Understand, PublishedReached, WorkersReached, WorkersKnow, RecordedInInbox;
    var t := Deliver(s, m);
    forall x | Understand(x, w).Some? && Reached(x, Understand(x, w).value.eventId, s.queue, s.unacked, s.inbox)
      ensures Reached(x, Understand(x, w).value.eventId, t.queue, t.unacked, t.inbox)
    {
      if InFlight(s.unacked, x) {
        var tag :| tag in s.unacked && s.unacked[tag].message == x;
        assert t.unacked[tag].message == x;
      } else if m in s.queue && x == m {
        assert t.unacked[s.next].message == x;
      }
    }
  }

  lemma DeliverKeepsInv(s: State, w: World, m: Message)
    requires Sane(w) && Inv(s, w)
    ensures Inv(Deliver(s, m), w)
  {
    if m in s.queue {
      DeliverReached(s, w, m);
      CarryReached(s, Deliver(s, m), w);
      hide Consistent, OutboxGood, DirectApart, InboxSourced, PublishedReached, WorkersReached, WorkersKnow, MessageSourced, Understand, StillReached;
    }
  }

  lemma RecordReached(s: State, w: World, tag: nat)
    ensures StillReached(s, Record(s, w, tag), w)
  {
    hide Understand;
    var t := Record(s, w, tag);
    forall x | Understand(x, w).Some? && Reached(x, Understand(x, w).value.eventId, s.queue, s.unacked, s.inbox)
      ensures Reached(x, Understand(x, w).value.eventId, t.queue, t.unacked, t.inbox)
    {
      if InFlight(s.unacked, x) {
        var u :| u in s.unacked && s.unacked[u].message == x;
        assert t.unacked[u].message == x;
      }
    }
  }

  lemma RecordSources(s: State, w: World, tag: nat)
    requires SourceInv(s, w)
    ensures SourceInv(Record(s, w, tag), w)
  {
    hide OutboxGood, DirectApart, QueueSourced, EventSourced, Understand;
  }

  lemma RecordKeepsInv(s: State, w: World, tag: nat)
    requires Sane(w) && Inv(s, w)
    ensures Inv(Record(s, w, tag), w)
  {
    RecordSources(s, w, tag);
    if tag in s.unacked && Understand(s.unacked[tag].message, w).Some? {
      RecordReached(s, w, tag);
      CarryReached(s, Record(s, w, tag), w);
      hide Consistent, SourceInv, PublishedReached, WorkersReached, WorkersKnow, Understand, StillReached;
    }
  }

  /** An ack never drops a rejection that is not in the inbox yet. */
  lemma AckReached(s: State, w: World, tag: nat)
    requires RecordedInInbox(s.unacked, s.inbox, w)
    ensures StillReached(s, Ack(s, tag), w)
  {
    hide Understand;
    var t := Ack(s, tag);
    forall x | Understand(x, w).Some? && Reached(x, Understand(x, w).value.eventId, s.queue, s.unacked, s.inbox)
      ensures Reached(x, Understand(x, w).value.eventId, t.queue, t.unacked, t.inbox)
    {
      if InFlight(s.unacked, x) {
        var u :| u in s.unacked && s.unacked[u].message == x;
        assert u != tag ==> u in s.unacked - {tag} && (s.unacked - {tag})[u].message == x;
      }
    }
  }

  lemma AckKeepsInv(s: State, w: World, tag: nat)
    requires Sane(w) && Inv(s, w)
    ensures Inv(Ack(s, tag), w)
  {
    if tag in s.unacked && s.unacked[tag].recorded {
      AckReached(s, w, tag);
      CarryReached(s, Ack(s, tag), w);
      hide Consistent, OutboxGood, DirectApart, QueueSourced, InboxSourced, PublishedReached, WorkersReached, WorkersKnow,
           MessageSourced, Understand, StillReached;
    }
  }

  lemma DiscardReached(s: State, w: World, tag: nat)
    ensures StillReached(s, Discard(s, w, tag), w)
  {
    hide Understand;
    var t := Discard(s, w, tag);
    forall x | Understand(x, w).Some? && Reached(x, Understand(x, w).value.eventId, s.queue, s.unacked, s.inbox)
      ensures Reached(x, Understand(x, w).value.eventId, t.queue, t.unacked, t.inbox)
    {
      if InFlight(s.unacked, x) {
        var u :| u in s.unacked && s.unacked[u].message == x;
        assert t.unacked == s.unacked || (u != tag && t.unacked[u].message == x);
      }
    }
  }

  lemma DiscardKeepsInv(s: State, w: World, tag: nat)
    requires Sane(w) && Inv(s, w)
    ensures Inv(Discard(s, w, tag), w)
  {
    if tag in s.unacked && Understand(s.unacked[tag].message, w).None? {
      DiscardReached(s, w, tag);
      CarryReached(s, Discard(s, w, tag), w);
      hide Consistent, OutboxGood, DirectApart, QueueSourced, InboxSourced, PublishedReached, WorkersReached, WorkersKnow,
           MessageSourced, Understand, StillReached;
    }
  }

  lemma RequeueReached(s: State, w: World, tag: nat)
    ensures StillReached(s, Requeue(s, tag), w)
  {
    hide Understand;
    var t := Requeue(s, tag);
    forall x | Understand(x, w).Some? && Reached(x, Understand(x, w).value.eventId, s.queue, s.unacked, s.inbox)
      ensures Reached(x, Understand(x, w).value.eventId, t.queue, t.unacked, t.inbox)
    {
      if InFlight(s.unacked, x) {
        var u :| u in s.unacked && s.unacked[u].message == x;
        assert t.unacked == s.unacked || (u == tag && x in t.queue) || t.unacked[u].message == x;
      }
    }
  }

  lemma RequeueKeepsInv(s: State, w: World, tag: nat)
    requires Sane(w) && Inv(s, w)
    ensures Inv(Requeue(s, tag), w)
  {
    if tag in s.unacked {
      RequeueReached(s, w, tag);
      CarryReached(s, Requeue(s, tag), w);
      hide Consistent, OutboxGood, DirectApart, InboxSourced, PublishedReached, WorkersReached, WorkersKnow, MessageSourced, Understand, StillReached;
    }
  }

  // ----- Runs

  lemma StepKeepsInv(s: State, w: World, a: Action)
    requires Sane(w) && Inv(s, w)
    ensures Inv(Apply(s, w, a), w)
  {
    hide Inv, LedgerStep, WorkerStart, WorkerSend, WorkerMark, WorkerStops, PublishDirect, Garbage, Deliver, Record, Ack, Discard, Requeue;
    match a
    case DoLedger(op) => LedgerStepKeepsInv(s, w, op);
    case DoWorkerStart(batch) => WorkerStartKeepsInv(s, w, batch);
    case DoWorkerSend(k, reached, confirmed) => WorkerSendKeepsInv(s, w, k, reached, confirmed);
    case DoWorkerMark(k) => WorkerMarkKeepsInv(s, w, k);
    case DoWorkerStops(k) => WorkerStopsKeepsInv(s, w, k);
    case DoPublishDirect(e, copies) => PublishDirectKeepsInv(s, w, e, copies);
    case DoGarbage(m) => GarbageKeepsInv(s, w, m);
    case DoDeliver(m) => DeliverKeepsInv(s, w, m);
    case DoRecord(tag) => RecordKeepsInv(s, w, tag);
    case DoAck(tag) => AckKeepsInv(s, w, tag);
    case DoDiscard(tag) => DiscardKeepsInv(s, w, tag);
    case DoRequeue(tag) => RequeueKeepsInv(s, w, tag);
  }

  lemma {:induction false} RunKeepsInv(w: World, acts: seq<Action>)
    requires Sane(w)
    ensures Inv(Exec(w, acts), w)
  {
    if acts != [] {
      hide Inv, Apply;
      RunKeepsInv(w, acts[..|acts| - 1]);
      StepKeepsInv(Exec(w, acts[..|acts| - 1]), w, acts[|acts| - 1]);
    }
  }
}
