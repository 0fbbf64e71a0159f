/**
  The Catalog service as Marketplace sees it: one snapshot row per listing, and the three internal operations
  that move a listing's availability. Only `reserve` is a compare-and-set; `complete` and `release` decide on a
  row they read earlier and then write unconditionally.
*/
module Catalog {
  import opened Wrappers

  /** Identifiers (cuid or uuid text in the databases) are only ever compared; they are interned as numbers. */
  type Id = int

  datatype OperationType = Trade | Donation

  datatype ListingStatus = Pending | Approved | Rejected

  datatype Availability = Available | Reserved | Completed

  /** The columns `getSnapshot` selects; the listing's id is its key in the table. */
  datatype Snapshot = Snapshot(owner: Id, operation: OperationType, status: ListingStatus, availability: Availability)

  type Table = map<Id, Snapshot>

  datatype CatalogError = ListingNotFound | StateConflict

  predicate CanReserve(rows: Table, id: Id) {
    id in rows && rows[id].status.Approved? && rows[id].availability.Available?
  }

  function SetAvailability(rows: Table, id: Id, a: Availability): Table
    requires id in rows
  {
    rows[id := rows[id].(availability := a)]
  }

  /** The conditional `updateMany` of `reserve`: it changes the row it matches, or nothing. */
  function ReserveRow(rows: Table, id: Id): Table {
    if CanReserve(rows, id) then SetAvailability(rows, id, Reserved) else rows
  }

  /** What `complete` or `release` does after its first read. */
  datatype Decision = AnswerOk | AnswerConflict | AnswerMissing | WriteNow

  function CompleteDecision(rows: Table, id: Id): Decision {
    if id !in rows then AnswerMissing
    else match rows[id].availability
      case Completed => AnswerOk
      case Reserved => WriteNow
      case Available => AnswerConflict
  }

  function ReleaseDecision(rows: Table, id: Id): Decision {
    if id !in rows then AnswerMissing
    else match rows[id].availability
      case Available => AnswerOk
      case Reserved => WriteNow
      case Completed => AnswerConflict
  }

  /** A later state of the same table: listings are never deleted and never change hands. */
  predicate Evolves(before: Table, after: Table) {
    forall id :: id in before ==> id in after && after[id].owner == before[id].owner
  }

  class InternalListings {
    var rows: Table

    method GetSnapshot(id: Id) returns (r: Result<Snapshot, CatalogError>)
      ensures r.Ok? <==> id in rows
      ensures r.Ok? ==> r.value == rows[id]
      ensures r.Err? ==> r.error.ListingNotFound?
    {
      if id in rows {
        r := Ok(rows[id]);
      } else {
        r := Err(ListingNotFound);
      }
    }

    /** Succeeds exactly when the listing was approved and available, and then only it changes. */
    method Reserve(id: Id) returns (r: Result<Snapshot, CatalogError>)
      modifies this
      ensures r.Ok? <==> id in old(rows) && old(rows)[id].status.Approved? && old(rows)[id].availability.Available?
      ensures r.Ok? ==> rows == old(rows)[id := old(rows)[id].(availability := Availability.Reserved)] && r.value == rows[id]
      ensures r.Err? ==> rows == old(rows) && r.error == if id in old(rows) then StateConflict else ListingNotFound
    {
      var count := 0;
      if CanReserve(rows, id) {
        rows := SetAvailability(rows, id, Reserved);
        count := 1;
      }
      var snapshot := GetSnapshot(id);
      if count != 1 && snapshot.Ok? {
        return Err(StateConflict);
      }
      return snapshot;
    }

    /**
      `meanwhile` is the table as other requests left it between the read and the write. The write does not look
      at it again: whatever the row says by then, it becomes Completed.
    */
    method Complete(id: Id, meanwhile: Table) returns (r: Result<Snapshot, CatalogError>)
      requires Evolves(rows, meanwhile)
      modifies this
      ensures r.Ok? <==> id in old(rows) && !old(rows)[id].availability.Available?
      ensures r.Ok? ==> id in rows && r.value == rows[id] && r.value.availability.Completed?
      ensures r.Err? ==> r.error == if id in old(rows) then StateConflict else ListingNotFound
      ensures if id in old(rows) && old(rows)[id].availability.Reserved?
              then id in meanwhile && rows == meanwhile[id := meanwhile[id].(availability := Availability.Completed)]
              else rows == old(rows)
    {
      var current := GetSnapshot(id);
      if current.Err? {
        return current;
      }
      if current.value.availability.Completed? {
        return current;
      }
      if !current.value.availability.Reserved? {
        return Err(StateConflict);
      }
      rows := meanwhile;
      rows := SetAvailability(rows, id, Completed);
      r := GetSnapshot(id);
    }

    method Release(id: Id, meanwhile: Table) returns (r: Result<Snapshot, CatalogError>)
      requires Evolves(rows, meanwhile)
      modifies this
      ensures r.Ok? <==> id in old(rows) && !old(rows)[id].availability.Completed?
      ensures r.Ok? ==> id in rows && r.value == rows[id] && r.value.availability.Available?
      ensures r.Err? ==> r.error == if id in old(rows) then StateConflict else ListingNotFound
      ensures if id in old(rows) && old(rows)[id].availability.Reserved?
              then id in meanwhile && rows == meanwhile[id := meanwhile[id].(availability := Availability.Available)]
              else rows == old(rows)
    {
      var current := GetSnapshot(id);
      if current.Err? {
        return current;
      }
      if current.value.availability.Available? {
        return current;
      }
      if !current.value.availability.Reserved? {
        return Err(StateConflict);
      }
      rows := meanwhile;
      rows := SetAvailability(rows, id, Available);
      r := GetSnapshot(id);
    }
  }
}
