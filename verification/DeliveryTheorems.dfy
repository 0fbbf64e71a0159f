/** What holds of every run of the delivery pipeline: nothing invented, nothing doubled, nothing lost. */
module DeliveryTheorems {
  import opened Wrappers
  import opened Catalog
  import opened Ledger
  import opened EventContract
  import opened Delivery
  import opened DeliverySteps

  /**
    The event is the one rejection of this proposal: it carries the id and the date committed with it, and names the
    proposal, its own target and requester, and the owner who rejected it.
  */
  ghost predicate Announces(e: Event, p: Id, l: Ledger, w: World) {
    && p in l.proposals && l.proposals[p].status.Rejected?
    && exists i: nat :: OnlyRowOf(l.outbox, p, i)
                        && e == Event(l.outbox[i].eventId, l.outbox[i].occurredAt,
                                      ProposalRejected(w.names(p), w.names(l.proposals[p].target),
                                                       w.names(l.proposals[p].requester), w.names(l.outbox[i].payload.owner)))
  }

  lemma RowAnnounces(l: Ledger, i: nat, w: World)
    requires Consistent(l) && i < |l.outbox|
    ensures Announces(RowEvent(l.outbox[i], w), l.outbox[i].payload.proposal, l, w)
  {
    assert RowAgrees(l.proposals, l.outbox[i].payload);
    assert OnlyRowOf(l.outbox, l.outbox[i].payload.proposal, i);
  }

  /** An event announces one proposal only, and two events that announce the same proposal are the same event. */
  lemma AnnouncementsMatch(e: Event, f: Event, p: Id, q: Id, l: Ledger, w: World)
    requires Sane(w) && Announces(e, p, l, w) && Announces(f, q, l, w)
    ensures p == q <==> e == f
  {
    assert e.data.proposalId == w.names(p) && f.data.proposalId == w.names(q);
    if p == q {
      var i: nat :| OnlyRowOf(l.outbox, p, i) && e.eventId == l.outbox[i].eventId && e.occurredAt == l.outbox[i].occurredAt
                    && e.data.ownerId == w.names(l.outbox[i].payload.owner);
      var j: nat :| OnlyRowOf(l.outbox, q, j) && f.eventId == l.outbox[j].eventId && f.occurredAt == l.outbox[j].occurredAt
                    && f.data.ownerId == w.names(l.outbox[j].payload.owner);
      assert i == j;
    }
  }

  lemma InboxEventAnnounces(s: State, w: World, id: string)
    requires Inv(s, w) && id in s.inbox && s.inbox[id].data.ProposalRejected?
    ensures exists p :: Announces(s.inbox[id], p, s.ledger, w)
  {
    hide ReachInv, OutboxGood, DirectApart, QueueSourced, UnackedSourced, Consistent, Announces;
    var i :| 0 <= i < |s.ledger.outbox| && RowEvent(s.ledger.outbox[i], w) == s.inbox[id];
    RowAnnounces(s.ledger, i, w);
  }

  /**
    Nothing invented and nothing doubled: the inbox is keyed by event id, each rejection in it announces a
    proposal that really is rejected, and no two of them announce the same one.
  */
  lemma InboxIsTruthful(w: World, acts: seq<Action>)
    requires Sane(w)
    ensures var s := Exec(w, acts);
            && (forall id :: id in s.inbox ==> s.inbox[id].eventId == id)
            && (forall id :: id in s.inbox && s.inbox[id].data.ProposalRejected? ==> exists p :: Announces(s.inbox[id], p, s.ledger, w))
            && (forall a, b, p :: a in s.inbox && b in s.inbox && Announces(s.inbox[a], p, s.ledger, w) && Announces(s.inbox[b], p, s.ledger, w) ==> a == b)
  {
    var s := Exec(w, acts);
    RunKeepsInv(w, acts);
    assert InboxSourced(s.inbox, s.ledger.outbox, s.direct, w);
    forall id | id in s.inbox && s.inbox[id].data.ProposalRejected?
      ensures exists p :: Announces(s.inbox[id], p, s.ledger, w)
    {
      InboxEventAnnounces(s, w, id);
    }
    hide Inv, EventSourced, Announces, Exec, Apply;
    forall a, b, p | a in s.inbox && b in s.inbox && Announces(s.inbox[a], p, s.ledger, w) && Announces(s.inbox[b], p, s.ledger, w)
      ensures a == b
    {
      AnnouncementsMatch(s.inbox[a], s.inbox[b], p, p, s.ledger, w);
    }
  }

  /** Nothing lost: a row marked as published is queued, being delivered, or in the inbox. */
  lemma PublishedIsNeverLost(w: World, acts: seq<Action>, i: nat)
    requires Sane(w) && i < |Exec(w, acts).ledger.outbox| && Exec(w, acts).ledger.outbox[i].published
    ensures var s := Exec(w, acts); Reached(RowMessage(s.ledger.outbox[i], w), s.ledger.outbox[i].eventId, s.queue, s.unacked, s.inbox)
  {
    RunKeepsInv(w, acts);
    hide Exec, Reached, SourceInv, Consistent, RowMessage;
  }

  /** The inbox row found under a rejection's event id is that rejection. */
  lemma InboxHasRow(s: State, w: World, i: nat)
    requires Inv(s, w) && i < |s.ledger.outbox| && s.ledger.outbox[i].eventId in s.inbox
    ensures s.inbox[s.ledger.outbox[i].eventId] == RowEvent(s.ledger.outbox[i], w)
  {
    hide ReachInv, OutboxGood, QueueSourced, UnackedSourced;
    var outbox := s.ledger.outbox;
    var e := s.inbox[outbox[i].eventId];
    assert EventSourced(e, outbox, s.direct, w);
    if e.data.ProposalRejected? {
      var j :| 0 <= j < |outbox| && RowEvent(outbox[j], w) == e;
      assert outbox[j].eventId == outbox[i].eventId;
      assert i == j;
    }
  }

  ghost predicate Drained(s: State) {
    && (forall i :: 0 <= i < |s.ledger.outbox| ==> s.ledger.outbox[i].published)
    && s.queue == multiset{} && s.unacked == map[]
  }

  /** Once outbox and queue are drained, every rejected proposal has exactly one rejection in the inbox, and conversely. */
  lemma DrainedIsOneToOne(w: World, acts: seq<Action>)
    requires Sane(w) && Drained(Exec(w, acts))
    ensures var s := Exec(w, acts);
            && (forall p :: p in s.ledger.proposals && s.ledger.proposals[p].status.Rejected? ==>
                  exists id :: id in s.inbox && Announces(s.inbox[id], p, s.ledger, w))
            && (forall id :: id in s.inbox && s.inbox[id].data.ProposalRejected? ==> exists p :: Announces(s.inbox[id], p, s.ledger, w))
            && (forall a, b, p, q :: a in s.inbox && b in s.inbox && Announces(s.inbox[a], p, s.ledger, w) && Announces(s.inbox[b], q, s.ledger, w) ==>
                  (a == b <==> p == q))
  {
    var s := Exec(w, acts);
    RunKeepsInv(w, acts);
    InboxIsTruthful(w, acts);
    hide Exec, Apply, Announces;
    forall p | p in s.ledger.proposals && s.ledger.proposals[p].status.Rejected?
      ensures exists id :: id in s.inbox && Announces(s.inbox[id], p, s.ledger, w)
    {
      RejectedIsInInbox(s, w, p);
    }
    forall a, b, p, q | a in s.inbox && b in s.inbox && Announces(s.inbox[a], p, s.ledger, w) && Announces(s.inbox[b], q, s.ledger, w)
      ensures a == b <==> p == q
    {
      hide Inv, Drained;
      AnnouncementsMatch(s.inbox[a], s.inbox[b], p, q, s.ledger, w);
    }
  }

  lemma RejectedIsInInbox(s: State, w: World, p: Id)
    requires Inv(s, w) && Drained(s) && p in s.ledger.proposals && s.ledger.proposals[p].status.Rejected?
    ensures exists id :: id in s.inbox && Announces(s.inbox[id], p, s.ledger, w)
  {
    var outbox := s.ledger.outbox;
    assert HasRow(outbox, p);
    var i: nat :| 0 <= i < |outbox| && outbox[i].payload.proposal == p;
    assert Reached(RowMessage(outbox[i], w), outbox[i].eventId, s.queue, s.unacked, s.inbox);
    assert outbox[i].eventId in s.inbox;
    hide SourceInv, ReachInv, Consistent, Announces, RowMessage;
    InboxHasRow(s, w, i);
    RowAnnounces(s.ledger, i, w);
  }

  // ----- Redelivery changes nothing

  lemma StepKeepsInbox(s: State, w: World, a: Action, id: string)
    requires id in s.inbox
    ensures id in Apply(s, w, a).inbox && Apply(s, w, a).inbox[id] == s.inbox[id]
  {
    hide Understand, Enabled, Mints, ApplyOp, IsBatch, MarkOutbox, RowMessage, Build, UsedEventId;
  }

  /** An inbox row is never removed or rewritten, however often its event comes back. */
  lemma {:induction false} InboxIsPermanent(w: World, acts: seq<Action>, i: nat, id: string)
    requires i <= |acts| && id in Exec(w, acts[..i]).inbox
    ensures id in Exec(w, acts).inbox && Exec(w, acts).inbox[id] == Exec(w, acts[..i]).inbox[id]
  {
    if i == |acts| {
      assert acts[..i] == acts;
    } else {
      var last := |acts| - 1;
      var s := Exec(w, acts[..last]);
      assert Exec(w, acts) == Apply(s, w, acts[last]);
      hide Exec, Apply;
      assert acts[..last][..i] == acts[..i];
      InboxIsPermanent(w, acts[..last], i, id);
      StepKeepsInbox(s, w, acts[last], id);
    }
  }

  // ----- Progress is always possible

  lemma ExecStep(w: World, acts: seq<Action>, a: Action)
    ensures Exec(w, acts + [a]) == Apply(Exec(w, acts), w, a)
  {
    assert (acts + [a])[..|acts|] == acts;
  }

  /** A queued message can be recorded. */
  lemma QueuedCanArrive(w: World, acts: seq<Action>, m: Message) returns (more: seq<Action>)
    requires m in Exec(w, acts).queue && Understand(m, w).Some?
    ensures Understand(m, w).value.eventId in Exec(w, acts + more).inbox
  {
    hide Understand;
    var s := Exec(w, acts);
    var a, b := DoDeliver(m), DoRecord(s.next);
    ExecStep(w, acts, a);
    ExecStep(w, acts + [a], b);
    hide Exec;
    assert acts + [a, b] == acts + [a] + [b];
    more := [a, b];
  }

  lemma UnpublishedCanBeSent(w: World, acts: seq<Action>, i: nat) returns (more: seq<Action>)
    requires i < |Exec(w, acts).ledger.outbox| && !Exec(w, acts).ledger.outbox[i].published
    ensures RowMessage(Exec(w, acts).ledger.outbox[i], w) in Exec(w, acts + more).queue
  {
    hide RowMessage;
    var s := Exec(w, acts);
    var row := s.ledger.outbox[i];
    var a, b := DoWorkerStart([row]), DoWorkerSend(s.next, true, true);
    assert IsBatch([row], s.ledger.outbox);
    ExecStep(w, acts, a);
    ExecStep(w, acts + [a], b);
    hide Exec;
    assert acts + [a, b] == acts + [a] + [b];
    more := [a, b];
  }

  lemma RowFacts(w: World, acts: seq<Action>, i: nat)
    requires Sane(w) && i < |Exec(w, acts).ledger.outbox|
    ensures var s := Exec(w, acts);
            var row := s.ledger.outbox[i];
            && Understand(RowMessage(row, w), w) == Some(RowEvent(row, w))
            && (row.published ==> Reached(RowMessage(row, w), row.eventId, s.queue, s.unacked, s.inbox))
  {
    RunKeepsInv(w, acts);
    var s := Exec(w, acts);
    hide Exec, Apply, Understand, RowMessage, RowGood, Reached;
    assert RowGood(s.ledger.outbox[i], w);
    RowMessageUnderstood(s.ledger.outbox[i], w);
  }

  /** At least once: from every reachable state, whatever crashed on the way, every rejection can still reach the inbox. */
  lemma DeliveryStaysPossible(w: World, acts: seq<Action>, i: nat)
    requires Sane(w) && i < |Exec(w, acts).ledger.outbox|
    ensures exists more :: Exec(w, acts).ledger.outbox[i].eventId in Exec(w, acts + more).inbox
  {
    hide Exec, Apply, Understand, RowMessage;
    var s := Exec(w, acts);
    var row := s.ledger.outbox[i];
    RowFacts(w, acts, i);
    var m := RowMessage(row, w);
    if !row.published {
      var sent := UnpublishedCanBeSent(w, acts, i);
      var rest := QueuedCanArrive(w, acts + sent, m);
      assert acts + (sent + rest) == acts + sent + rest;
    } else if row.eventId in s.inbox {
      assert acts + [] == acts;
    } else if m in s.queue {
      var more := QueuedCanArrive(w, acts, m);
    } else {
      assert InFlight(s.unacked, m);
      var tag :| tag in s.unacked && s.unacked[tag].message == m;
      UnackedCanArrive(w, acts, tag);
    }
  }

  lemma UnackedCanArrive(w: World, acts: seq<Action>, tag: nat)
    requires tag in Exec(w, acts).unacked && Understand(Exec(w, acts).unacked[tag].message, w).Some?
    ensures Understand(Exec(w, acts).unacked[tag].message, w).value.eventId in Exec(w, acts + [DoRecord(tag)]).inbox
  {
    hide Understand;
    ExecStep(w, acts, DoRecord(tag));
  }
}
