/** Notification's consumer: parse, persist, and only then settle the delivery. */
module Consumer {
  import opened Wrappers
  import opened EventContract
  import opened Delivery

  datatype StoreError = DatabaseDown

  class NotificationStore {
    var rows: Inbox

    constructor ()
      ensures rows == map[]
    {
      rows := map[];
    }

    /** `createMany` with `skipDuplicates`: the first event under an id stays, later ones change nothing. */
    method Record(e: Event, databaseFails: bool) returns (inserted: Result<bool, StoreError>)
      modifies this
      ensures databaseFails ==> inserted.Err? && rows == old(rows)
      ensures !databaseFails ==> rows == Insert(old(rows), e) && inserted == Ok(e.eventId !in old(rows))
      ensures inserted.Ok? ==> e.eventId in rows
    {
      if databaseFails {
        return Err(DatabaseDown);
      }
      var count := 0;
      if e.eventId !in rows {
        rows := rows[e.eventId := e];
        count := 1;
      }
      return Ok(count == 1);
    }
  }

  datatype Settlement = Acked | Discarded | Requeued

  /** A delivery channel; settling on a closed one throws, and the broker then redelivers. */
  class DeliveryChannel {
    const id: nat
    var open: bool
    var settled: map<nat, Settlement>

    constructor (id: nat)
      ensures this.id == id && open && settled == map[]
    {
      this.id := id;
      open, settled := true, map[];
    }

    method Settle(tag: nat, s: Settlement) returns (ok: bool)
      modifies this`settled
      ensures ok == open
      ensures settled == if open then old(settled)[tag := s] else old(settled)
    {
      if open {
        settled := settled[tag := s];
      }
      return open;
    }

    method Close()
      modifies this`open
      ensures !open
    {
      open := false;
    }
  }

  /** None is the cancel notice the broker sends when it drops a consumer. */
  type Arrival = Option<(nat, Message)>

  class RabbitMqConsumer {
    const store: NotificationStore
    const isDate: string -> bool
    var channel: Option<nat>
    var connected: bool
    var rebuilding: bool
    var ready: bool
    var stopping: bool

    ghost predicate Valid()
      reads this
    {
      ready ==> channel.Some?
    }

    constructor (store: NotificationStore, isDate: string -> bool)
      ensures Valid() && this.store == store && this.isDate == isDate && channel.None? && !ready && !stopping
    {
      this.store := store;
      this.isDate := isDate;
      channel, connected, rebuilding, ready, stopping := None, false, false, false, false;
    }

    method ScheduleChannelRebuild()
      modifies this`rebuilding
      ensures rebuilding == (old(rebuilding) || !(stopping || !connected))
    {
      if stopping || !connected || rebuilding {
        return;
      }
      rebuilding := true;
    }

    /**
      A delivery is acked only once its event is in the inbox, discarded only when it breaks the contract, and
      otherwise left to come back; a database failure never changes whether the consumer is ready.
    */
    method Consume(ch: DeliveryChannel, arrival: Arrival, databaseFails: bool) returns (threw: bool)
      requires Valid()
      modifies this`channel, this`ready, this`rebuilding, store, ch
      ensures Valid()
      ensures arrival.None? ==>
        && !threw && !ch.open && ch.settled == old(ch.settled) && store.rows == old(store.rows)
        && (if old(channel) == Some(ch.id) then channel.None? && !ready else channel == old(channel) && ready == old(ready))
        && rebuilding == (old(rebuilding) || !(stopping || !connected))
      ensures arrival.Some? ==> ch.open == old(ch.open) && channel == old(channel) && ready == old(ready) && rebuilding == old(rebuilding)
      ensures arrival.Some? ==>
        var (tag, message) := arrival.value;
        var e := Read(message, isDate);
        && store.rows == (if e.Some? && !databaseFails then Insert(old(store.rows), e.value) else old(store.rows))
        && ch.settled == (if !ch.open then old(ch.settled)
                          else old(ch.settled)[tag := if e.None? then Discarded else if databaseFails then Requeued else Acked])
        && (ch.open && ch.settled[tag].Acked? ==> e.Some? && e.value.eventId in store.rows)
        && (threw <==> e.None? && !ch.open)
    {
      if arrival.None? {
        if channel == Some(ch.id) {
          channel := None;
          ready := false;
        }
        ch.Close();
        ScheduleChannelRebuild();
        return false;
      }
      var (tag, message) := arrival.value;
      var parsed := match message case None => Err(NotAnObject) case Some(json) => Parse(json, isDate);
      if parsed.Err? {
        var ok := ch.Settle(tag, Discarded);
        return !ok;
      }
      var inserted := store.Record(parsed.value, databaseFails);
      var acked := false;
      if inserted.Ok? {
        acked := ch.Settle(tag, Acked);
      }
      if !acked {
        var _ := ch.Settle(tag, Requeued);
      }
      return false;
    }
  }
}
