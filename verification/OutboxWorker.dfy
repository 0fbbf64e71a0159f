/** The sweep over the outbox: the oldest pending rows, in order, until one of them does not get through. */
module OutboxWorker {
  import opened Wrappers
  import opened Ledger
  import opened EventContract
  import opened Delivery
  import opened Publisher

  function Min(a: nat, b: nat): nat {
    if a <= b then a else b
  }

  /** The pending rows, oldest first. */
  function Unpublished(outbox: seq<OutboxRow>): seq<OutboxRow> {
    if outbox == [] then [] else (if outbox[0].published then [] else [outbox[0]]) + Unpublished(outbox[1..])
  }

  /** Each pending row from `i` on is listed once, in the order of the table, and no other row is. */
  lemma {:induction false} PendingInTableOrder(outbox: seq<OutboxRow>, i: nat) returns (indices: seq<nat>)
    requires i <= |outbox|
    ensures |Unpublished(outbox[i..])| == |indices|
    ensures forall k :: 0 <= k < |indices| ==>
              && i <= indices[k] < |outbox| && !outbox[indices[k]].published && Unpublished(outbox[i..])[k] == outbox[indices[k]]
    ensures forall j, k :: 0 <= j < k < |indices| ==> indices[j] < indices[k]
    ensures forall j :: i <= j < |outbox| && !outbox[j].published ==> j in indices
    decreases |outbox| - i
  {
    if i == |outbox| {
      indices := [];
    } else {
      var rest := PendingInTableOrder(outbox, i + 1);
      assert outbox[i..][1..] == outbox[i + 1..];
      indices := (if outbox[i].published then [] else [i]) + rest;
    }
  }

  /** `eventId` is the key of the table. */
  predicate UniqueIds(outbox: seq<OutboxRow>) {
    forall i, j :: 0 <= i < j < |outbox| ==> outbox[i].eventId != outbox[j].eventId
  }

  function MarkFirst(outbox: seq<OutboxRow>, rows: seq<OutboxRow>, k: nat): seq<OutboxRow>
    requires k <= |rows|
  {
    if k == 0 then outbox else MarkOutbox(MarkFirst(outbox, rows, k - 1), rows[k - 1].eventId, true)
  }

  /** The table after a sweep that got `delivered` rows through, and then perhaps one failure counted. */
  function Sweep(outbox: seq<OutboxRow>, delivered: nat, failed: bool): seq<OutboxRow>
    requires delivered <= |Unpublished(outbox)| && (failed ==> delivered < |Unpublished(outbox)|)
  {
    var marked := MarkFirst(outbox, Unpublished(outbox), delivered);
    if failed then MarkOutbox(marked, Unpublished(outbox)[delivered].eventId, false) else marked
  }

  // ----- What marking does to the pending rows

  lemma MarkTail(outbox: seq<OutboxRow>, eventId: string, published: bool)
    requires outbox != []
    ensures MarkOutbox(outbox, eventId, published) == [MarkRow(outbox[0], eventId, published)] + MarkOutbox(outbox[1..], eventId, published)
  {
  }

  lemma MarkMisses(outbox: seq<OutboxRow>, eventId: string, published: bool)
    requires !UsedEventId(outbox, eventId)
    ensures MarkOutbox(outbox, eventId, published) == outbox
  {
  }

  lemma {:induction false} UnpublishedIsPart(outbox: seq<OutboxRow>, k: nat)
    requires k < |Unpublished(outbox)|
    ensures exists i :: 0 <= i < |outbox| && outbox[i] == Unpublished(outbox)[k] && !outbox[i].published
  {
    if outbox[0].published {
      UnpublishedIsPart(outbox[1..], k);
      var i :| 0 <= i < |outbox[1..]| && outbox[1..][i] == Unpublished(outbox)[k] && !outbox[1..][i].published;
      assert outbox[i + 1] == Unpublished(outbox)[k];
    } else if k > 0 {
      UnpublishedIsPart(outbox[1..], k - 1);
      var i :| 0 <= i < |outbox[1..]| && outbox[1..][i] == Unpublished(outbox)[k] && !outbox[1..][i].published;
      assert outbox[i + 1] == Unpublished(outbox)[k];
    }
  }

  /** Marking the oldest pending row takes it, and only it, out of the pending rows, or counts one more attempt on it. */
  lemma {:induction false} MarkHead(outbox: seq<OutboxRow>, published: bool)
    requires UniqueIds(outbox) && Unpublished(outbox) != []
    ensures var row := Unpublished(outbox)[0];
            Unpublished(MarkOutbox(outbox, row.eventId, published))
            == (if published then [] else [row.(attempts := row.attempts + 1)]) + Unpublished(outbox)[1..]
  {
    var row := Unpublished(outbox)[0];
    MarkTail(outbox, row.eventId, published);
    var rest := outbox[1..];
    assert ([MarkRow(outbox[0], row.eventId, published)] + MarkOutbox(rest, row.eventId, published))[1..] == MarkOutbox(rest, row.eventId, published);
    if outbox[0].published {
      MarkHead(rest, published);
    } else {
      assert !UsedEventId(rest, row.eventId);
      MarkMisses(rest, row.eventId, published);
    }
  }

  lemma MarkKeepsUnique(outbox: seq<OutboxRow>, eventId: string, published: bool)
    requires UniqueIds(outbox)
    ensures UniqueIds(MarkOutbox(outbox, eventId, published))
  {
  }

  lemma {:induction false} MarkFirstDrains(outbox: seq<OutboxRow>, k: nat)
    requires UniqueIds(outbox) && k <= |Unpublished(outbox)|
    ensures UniqueIds(MarkFirst(outbox, Unpublished(outbox), k))
    ensures Unpublished(MarkFirst(outbox, Unpublished(outbox), k)) == Unpublished(outbox)[k..]
  {
    hide UniqueIds, Unpublished, MarkOutbox;
    if k > 0 {
      MarkFirstDrains(outbox, k - 1);
      var before := MarkFirst(outbox, Unpublished(outbox), k - 1);
      MarkHead(before, true);
      MarkKeepsUnique(before, Unpublished(before)[0].eventId, true);
    }
  }

  lemma SweepLeaves(outbox: seq<OutboxRow>, k: nat, failed: bool)
    requires UniqueIds(outbox) && k <= |Unpublished(outbox)| && (failed ==> k < |Unpublished(outbox)|)
    ensures UniqueIds(Sweep(outbox, k, failed))
    ensures Unpublished(Sweep(outbox, k, failed)) ==
            if failed then [Unpublished(outbox)[k].(attempts := Unpublished(outbox)[k].attempts + 1)] + Unpublished(outbox)[k + 1..]
            else Unpublished(outbox)[k..]
  {
    hide UniqueIds, Unpublished, MarkOutbox, MarkFirst;
    MarkFirstDrains(outbox, k);
    if failed {
      var marked := MarkFirst(outbox, Unpublished(outbox), k);
      MarkHead(marked, false);
      MarkKeepsUnique(marked, Unpublished(marked)[0].eventId, false);
    }
  }

  // ----- Row by row

  ghost predicate AmongFirst(row: OutboxRow, rows: seq<OutboxRow>, k: nat)
    requires k <= |rows|
  {
    exists j :: 0 <= j < k && rows[j].eventId == row.eventId
  }

  lemma {:induction false} MarkFirstRow(outbox: seq<OutboxRow>, rows: seq<OutboxRow>, k: nat, i: nat)
    requires k <= |rows| && i < |outbox| && UniqueIds(rows) && !outbox[i].published
    ensures |MarkFirst(outbox, rows, k)| == |outbox|
    ensures MarkFirst(outbox, rows, k)[i] ==
            if AmongFirst(outbox[i], rows, k) then outbox[i].(attempts := outbox[i].attempts + 1, published := true) else outbox[i]
  {
    if k > 0 {
      MarkFirstRow(outbox, rows, k - 1, i);
      if AmongFirst(outbox[i], rows, k - 1) {
        assert AmongFirst(outbox[i], rows, k);
      } else if rows[k - 1].eventId == outbox[i].eventId {
        assert AmongFirst(outbox[i], rows, k);
      }
    }
  }

  lemma {:induction false} MarkFirstKeepsPublished(outbox: seq<OutboxRow>, rows: seq<OutboxRow>, k: nat, i: nat)
    requires k <= |rows| && i < |outbox| && outbox[i].published
    ensures |MarkFirst(outbox, rows, k)| == |outbox| && MarkFirst(outbox, rows, k)[i] == outbox[i]
  {
    if k > 0 {
      MarkFirstKeepsPublished(outbox, rows, k - 1, i);
    }
  }

  lemma {:induction false} UnpublishedUnique(outbox: seq<OutboxRow>)
    requires UniqueIds(outbox)
    ensures UniqueIds(Unpublished(outbox))
  {
    if outbox != [] {
      UnpublishedUnique(outbox[1..]);
      forall k | 0 <= k < |Unpublished(outbox[1..])|
        ensures Unpublished(outbox[1..])[k].eventId != outbox[0].eventId
      {
        UnpublishedIsPart(outbox[1..], k);
      }
    }
  }

  /**
    A sweep publishes exactly the first `k` pending rows, counts one attempt on each of them and on the one that
    failed, and changes nothing else: no event id, payload or date, and no published row.
  */
  lemma SweepRowByRow(outbox: seq<OutboxRow>, k: nat, failed: bool, i: nat)
    requires UniqueIds(outbox) && k <= |Unpublished(outbox)| && (failed ==> k < |Unpublished(outbox)|) && i < |outbox|
    ensures |Sweep(outbox, k, failed)| == |outbox|
    ensures var before, after := outbox[i], Sweep(outbox, k, failed)[i];
            var rows := Unpublished(outbox);
            if before.published then after == before
            else if AmongFirst(before, rows, k) then after == before.(attempts := before.attempts + 1, published := true)
            else if failed && rows[k].eventId == before.eventId then after == before.(attempts := before.attempts + 1)
            else after == before
  {
    UnpublishedUnique(outbox);
    if outbox[i].published {
      MarkFirstKeepsPublished(outbox, Unpublished(outbox), k, i);
    } else {
      MarkFirstRow(outbox, Unpublished(outbox), k, i);
    }
  }

  // ----- Sweeps that get through

  function Flushes(outbox: seq<OutboxRow>, m: nat): seq<OutboxRow> {
    if m == 0 then outbox
    else
      var before := Flushes(outbox, m - 1);
      Sweep(before, Min(BATCH, |Unpublished(before)|), false)
  }

  lemma {:induction false} FlushesLeave(outbox: seq<OutboxRow>, m: nat)
    requires UniqueIds(outbox)
    ensures UniqueIds(Flushes(outbox, m))
    ensures Unpublished(Flushes(outbox, m)) == Unpublished(outbox)[Min(BATCH * m, |Unpublished(outbox)|)..]
  {
    hide UniqueIds, Unpublished, Sweep;
    if m > 0 {
      FlushesLeave(outbox, m - 1);
      var before, done := Flushes(outbox, m - 1), Min(BATCH * (m - 1), |Unpublished(outbox)|);
      var k := Min(BATCH, |Unpublished(before)|);
      SweepLeaves(before, k, false);
      assert Unpublished(outbox)[done..][k..] == Unpublished(outbox)[done + k..];
    }
  }

  /** With a broker that confirms, n pending rows are drained after ceil(n / 25) sweeps, and not one sweep earlier. */
  lemma DrainedAfter(outbox: seq<OutboxRow>, m: nat)
    requires UniqueIds(outbox)
    ensures Unpublished(Flushes(outbox, m)) == [] <==> (|Unpublished(outbox)| + 24) / 25 <= m
  {
    FlushesLeave(outbox, m);
  }

  // ----- The worker

  /** One row's turn: whether the process is told to stop before it, how its envelope fares, whether the update throws. */
  datatype Turn = Turn(stop: bool, attempts: (Attempt, Attempt), databaseFails: bool)

  datatype TurnEnd = GoesOn | Stops | Throws

  predicate Smooth(t: Turn) {
    !t.stop && t.attempts.0.transport.Confirmed? && t.attempts.0.meanwhile == [] && !t.databaseFails
  }

  /** The link after `n` turns, each with both its tries or the first alone. */
  function Passed(s: Link, turns: nat -> Turn, n: nat): Link {
    if n == 0 then s else Afterwards(Passed(s, turns, n - 1), turns(n - 1).attempts)
  }

  /** Row `i` is reached, delivered and marked. */
  predicate GetsThrough(s: Link, turns: nat -> Turn, i: nat) {
    !turns(i).stop && !turns(i).databaseFails && Delivers(Passed(s, turns, i), turns(i).attempts)
  }

  /** Of `most` rows exactly the first `k` get through: all before the first whose turn is stopped, undelivered or not marked. */
  predicate Through(s: Link, turns: nat -> Turn, most: nat, k: int) {
    && 0 <= k <= most
    && (forall i: nat :: i < k ==> GetsThrough(s, turns, i))
    && (k < most ==> !GetsThrough(s, turns, k))
  }

  /** The link is up, or comes up while the first try waits for it. */
  predicate ComesUp(s: Link, t: Turn) {
    s.ready || (!s.blocked && |t.attempts.0.waiting| == 1 && t.attempts.0.waiting[0].Recovered?)
  }

  lemma SmoothTurn(s: Link, t: Turn)
    requires ComesUp(s, t) && Smooth(t)
    ensures Delivers(s, t.attempts) && Afterwards(s, t.attempts).ready
  {
    var start, signals := Started(s), t.attempts.0.waiting;
    if !s.ready {
      assert signals[1..] == [] && React(start, signals[0]).ready;
      assert Waited(start, signals) == Waited(React(start, signals[0]), []);
    }
  }

  lemma {:induction false} SmoothGoesThrough(s: Link, turns: nat -> Turn, n: nat)
    requires ComesUp(s, turns(0)) && forall j: nat :: Smooth(turns(j))
    ensures forall i: nat :: i < n ==> GetsThrough(s, turns, i)
    ensures n > 0 ==> Passed(s, turns, n).ready
  {
    if n > 0 {
      SmoothGoesThrough(s, turns, n - 1);
      SmoothTurn(Passed(s, turns, n - 1), turns(n - 1));
    }
  }

  /** The messages handed to the broker: so many copies of each row's envelope, row after row. */
  function Sent(rows: seq<OutboxRow>, copies: seq<nat>, w: World): seq<Message>
    requires |copies| <= |rows|
  {
    if copies == [] then []
    else
      var last := |copies| - 1;
      Sent(rows, copies[..last], w) + Copies(RowMessage(rows[last], w), copies[last])
  }

  /** Each of the first `k` rows was sent once or twice, the next one perhaps, no other. */
  predicate SendsInOrder(copies: seq<nat>, k: nat) {
    k <= |copies| <= k + 1 && forall i :: 0 <= i < |copies| ==> copies[i] <= 2 && (i < k ==> copies[i] >= 1)
  }

  /**
    With k the rows that got through: the table is what a sweep of k rows leaves, and the broker got the envelopes
    of these rows in order, and then perhaps copies of the next one.
  */
  ghost predicate Swept(before: seq<OutboxRow>, after: seq<OutboxRow>, sent: seq<Message>, queue: seq<Message>, w: World) {
    var rows := Unpublished(before);
    var k := |rows| - |Unpublished(after)|;
    && 0 <= k <= Min(BATCH, |rows|)
    && (after == Sweep(before, k, false) || (k < Min(BATCH, |rows|) && after == Sweep(before, k, true)))
    && exists copies :: |copies| <= |rows| && SendsInOrder(copies, k) && queue == sent + Sent(rows, copies, w)
  }

  lemma SweptSoFar(before: seq<OutboxRow>, after: seq<OutboxRow>, k: nat, failed: bool, copies: seq<nat>, sent: seq<Message>, w: World)
    requires UniqueIds(before) && k <= Min(BATCH, |Unpublished(before)|) && (failed ==> k < Min(BATCH, |Unpublished(before)|))
    requires var marked := MarkFirst(before, Unpublished(before), k);
             after == if failed then MarkOutbox(marked, Unpublished(before)[k].eventId, false) else marked
    requires |copies| <= |Unpublished(before)| && SendsInOrder(copies, k)
    ensures after == Sweep(before, k, failed) && UniqueIds(after) && |Unpublished(before)| - |Unpublished(after)| == k
    ensures Swept(before, after, sent, sent + Sent(Unpublished(before), copies, w), w)
  {
    hide Sent, Unpublished, UniqueIds, MarkFirst, MarkOutbox;
    assert after == Sweep(before, k, failed);
    SweepLeaves(before, k, failed);
    hide Sweep;
  }

  lemma UnpublishedTail(outbox: seq<OutboxRow>, i: nat, rows: seq<OutboxRow>)
    requires i < |outbox|
    ensures rows + Unpublished(outbox[i..]) == (if outbox[i].published then rows else rows + [outbox[i]]) + Unpublished(outbox[i + 1..])
    ensures Unpublished(outbox[|outbox|..]) == []
  {
    assert outbox[i..][1..] == outbox[i + 1..];
  }

  lemma SentNothing(rows: seq<OutboxRow>, w: World)
    ensures Sent(rows, [], w) == []
  {
  }

  lemma SentStep(sent: seq<Message>, rows: seq<OutboxRow>, copies: seq<nat>, n: nat, w: World)
    requires |copies| < |rows|
    ensures sent + Sent(rows, copies, w) + Copies(RowMessage(rows[|copies|], w), n) == sent + Sent(rows, copies + [n], w)
  {
    hide RowMessage, Copies;
    assert (copies + [n])[..|copies|] == copies;
  }

  /** A sweep whose turns are all smooth, on a link that is up or comes up, gets the whole batch through. */
  lemma SmoothSweep(before: seq<OutboxRow>, after: seq<OutboxRow>, sent: seq<Message>, queue: seq<Message>, w: World, s: Link, turns: nat -> Turn)
    requires Swept(before, after, sent, queue, w)
    requires Through(s, turns, Min(25, |Unpublished(before)|), |Unpublished(before)| - |Unpublished(after)|)
    requires ComesUp(s, turns(0)) && forall i: nat :: Smooth(turns(i))
    ensures var most := Min(25, |Unpublished(before)|);
            && |Unpublished(before)| - |Unpublished(after)| == most && after == Sweep(before, most, false)
            && (s.ready || Unpublished(before) != [] ==> Passed(s, turns, most).ready)
  {
    hide Unpublished, Sweep, Sent, SendsInOrder, Smooth, ComesUp, Through, Passed;
    SmoothGoesAllTheWay(s, turns, Min(25, |Unpublished(before)|), |Unpublished(before)| - |Unpublished(after)|);
  }

  lemma SmoothGoesAllTheWay(s: Link, turns: nat -> Turn, most: nat, k: int)
    requires Through(s, turns, most, k) && ComesUp(s, turns(0)) && forall i: nat :: Smooth(turns(i))
    ensures k == most && (s.ready || most > 0 ==> Passed(s, turns, most).ready)
  {
    SmoothGoesThrough(s, turns, most);
    assert most == 0 ==> Passed(s, turns, most) == s;
    hide GetsThrough, Smooth, ComesUp, Passed;
  }

  class Worker {
    var outbox: seq<OutboxRow>
    var stopping: bool
    var sweeping: bool
    const publisher: EventPublisher

    constructor (outbox: seq<OutboxRow>, publisher: EventPublisher)
      ensures this.outbox == outbox && this.publisher == publisher && !stopping && !sweeping
    {
      this.outbox := outbox;
      this.publisher := publisher;
      stopping, sweeping := false, false;
    }

    /** The `findMany` of a sweep. */
    method ReadBatch() returns (rows: seq<OutboxRow>)
      ensures rows == Unpublished(outbox)[..Min(25, |Unpublished(outbox)|)]
    {
      assert outbox[0..] == outbox;
      hide Unpublished;
      rows := [];
      var i := 0;
      while i < |outbox| && |rows| < BATCH
        invariant 0 <= i <= |outbox| && |rows| <= BATCH
        invariant Unpublished(outbox) == rows + Unpublished(outbox[i..])
      {
        UnpublishedTail(outbox, i, rows);
        if !outbox[i].published {
          rows := rows + [outbox[i]];
        }
        i := i + 1;
      }
    }

    /** `publishEnvelope` of one row; the event id is the committed one on every attempt. */
    method Send(row: OutboxRow, w: World, attempts: (Attempt, Attempt)) returns (ok: bool, ghost copies: nat)
      requires publisher.Valid()
      modifies publisher, publisher.broker
      ensures publisher.Valid() && copies <= 2 && (ok ==> copies >= 1)
      ensures publisher.broker.queue == old(publisher.broker.queue) + Copies(RowMessage(row, w), copies)
      ensures ok <==> Delivers(old(publisher.View()), attempts)
      ensures publisher.View() == Afterwards(old(publisher.View()), attempts)
    {
      ok := publisher.PublishEnvelope(RowEvent(row, w), attempts);
      copies := |publisher.broker.queue| - |old(publisher.broker.queue)|;
    }

    /** One row; `copies` is None when the worker was told to stop first. */
    method TakeTurn(row: OutboxRow, w: World, turn: Turn) returns (end: TurnEnd, ghost copies: Option<nat>)
      requires publisher.Valid()
      modifies this, publisher, publisher.broker
      ensures publisher.Valid() && stopping == (old(stopping) || turn.stop) && sweeping == old(sweeping)
      ensures stopping ==> end.Stops? && copies.None? && outbox == old(outbox) && publisher.broker.queue == old(publisher.broker.queue)
      ensures !stopping ==>
        && copies.Some? && copies.value <= 2 && (end.GoesOn? ==> copies.value >= 1)
        && publisher.broker.queue == old(publisher.broker.queue) + Copies(RowMessage(row, w), copies.value)
        && outbox == (if turn.databaseFails then old(outbox) else MarkOutbox(old(outbox), row.eventId, end.GoesOn?))
        && (turn.databaseFails <==> end.Throws?)
        && (end.GoesOn? <==> Delivers(old(publisher.View()), turn.attempts) && !turn.databaseFails)
        && publisher.View() == Afterwards(old(publisher.View()), turn.attempts)
    {
      stopping := stopping || turn.stop;
      if stopping {
        return Stops, None;
      }
      var ok, n := Send(row, w, turn.attempts);
      if turn.databaseFails {
        return Throws, Some(n);
      }
      outbox := MarkOutbox(outbox, row.eventId, ok);
      return if ok then GoesOn else Stops, Some(n);
    }

    /**
      The first pending rows, at most 25, in order, until one fails, the update throws or the worker is told to stop;
      how far it gets is settled by what the link makes of each turn.
    */
    method DeliverPending(w: World, turns: nat -> Turn) returns (threw: bool)
      requires UniqueIds(outbox) && publisher.Valid()
      modifies this, publisher, publisher.broker
      ensures publisher.Valid() && UniqueIds(outbox)
      ensures Swept(old(outbox), outbox, old(publisher.broker.queue), publisher.broker.queue, w)
      ensures !old(stopping) ==>
        var link, most, k := old(publisher.View()), Min(25, |Unpublished(old(outbox))|), |Unpublished(old(outbox))| - |Unpublished(outbox)|;
        && Through(link, turns, most, k)
        && (k == most ==> !threw && !stopping && publisher.View() == Passed(link, turns, most))
    {
      hide RowMessage, Copies, Sent, MarkOutbox, UniqueIds, Swept, Sweep, Unpublished, Delivers, Afterwards;
      ghost var link := publisher.View();
      ghost var before := outbox;
      ghost var rows := Unpublished(before);
      ghost var sent := publisher.broker.queue;
      ghost var copies: seq<nat> := [];
      SentNothing(rows, w);
      var batch := ReadBatch();
      for i := 0 to |batch|
        invariant publisher.Valid() && outbox == MarkFirst(before, rows, i)
        invariant |copies| == i && SendsInOrder(copies, i)
        invariant publisher.broker.queue == sent + Sent(rows, copies, w)
        invariant stopping == old(stopping)
        invariant publisher.View() == Passed(link, turns, i) && forall j: nat :: j < i ==> GetsThrough(link, turns, j)
      {
        var end, n := TakeTurn(batch[i], w, turns(i));
        if n.Some? {
          SentStep(sent, rows, copies, n.value, w);
          copies := copies + [n.value];
        }
        if !end.GoesOn? {
          ghost var failed := n.Some? && end.Stops?;
          SweptSoFar(before, outbox, i, failed, copies, sent, w);
          return end.Throws?;
        }
      }
      SweptSoFar(before, outbox, |batch|, false, copies, sent, w);
      return false;
    }

    /**
      A sweep on request: none once stopping, and none beside the one under way, which the caller then shares. A link
      that is up, or comes up during the first wait, gets a whole batch through if every turn is smooth.
    */
    method Flush(w: World, turns: nat -> Turn) returns (threw: bool)
      requires UniqueIds(outbox) && publisher.Valid()
      modifies this, publisher, publisher.broker
      ensures publisher.Valid() && UniqueIds(outbox) && sweeping == old(sweeping)
      ensures old(stopping) || old(sweeping) ==>
        !threw && outbox == old(outbox) && stopping == old(stopping) && publisher.broker.queue == old(publisher.broker.queue)
      ensures !old(stopping) && !old(sweeping) ==>
        && Swept(old(outbox), outbox, old(publisher.broker.queue), publisher.broker.queue, w)
        && Through(old(publisher.View()), turns, Min(25, |Unpublished(old(outbox))|), |Unpublished(old(outbox))| - |Unpublished(outbox)|)
      ensures !old(stopping) && !old(sweeping) && ComesUp(old(publisher.View()), turns(0)) && (forall i: nat :: Smooth(turns(i))) ==>
        && !threw && !stopping && outbox == Sweep(old(outbox), Min(25, |Unpublished(old(outbox))|), false)
        && (old(publisher.ready) || Unpublished(old(outbox)) != [] ==> publisher.ready)
    {
      hide Swept, Sweep, Unpublished, UniqueIds, Through, Passed, Smooth, ComesUp;
      if stopping || sweeping {
        return false;
      }
      sweeping := true;
      ghost var link := publisher.View();
      threw := DeliverPending(w, turns);
      sweeping := false;
      if ComesUp(link, turns(0)) && forall i: nat :: Smooth(turns(i)) {
        SmoothSweep(old(outbox), outbox, old(publisher.broker.queue), publisher.broker.queue, w, link, turns);
      }
    }

    /** The timer: `m` flushes, one after the other. Smooth ones drain n pending rows exactly when m reaches ceil(n / 25). */
    method RunTimer(w: World, m: nat, turns: nat -> nat -> Turn)
      requires UniqueIds(outbox) && publisher.Valid()
      modifies this, publisher, publisher.broker
      ensures publisher.Valid() && UniqueIds(outbox)
      ensures old(publisher.ready) && !old(stopping) && !old(sweeping) && (forall j: nat, i: nat :: Smooth(turns(j)(i))) ==>
        && outbox == Flushes(old(outbox), m)
        && (Unpublished(outbox) == [] <==> (|Unpublished(old(outbox))| + 24) / 25 <= m)
    {
      hide Sweep, UniqueIds, Unpublished, Smooth;
      ghost var before := outbox;
      for j := 0 to m
        invariant publisher.Valid() && UniqueIds(outbox) && sweeping == old(sweeping)
        invariant old(publisher.ready) && !old(stopping) && !old(sweeping) && (forall j: nat, i: nat :: Smooth(turns(j)(i))) ==>
          publisher.ready && !stopping && outbox == Flushes(before, j)
      {
        var _ := Flush(w, turns(j));
      }
      DrainedAfter(before, m);
    }
  }
}
