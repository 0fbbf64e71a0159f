/** Marketplace's side of the remote calls: what it can learn from a response, and what it cannot. */
module CatalogClient {
  import opened Wrappers
  import opened Catalog

  /** A response as `fetch` yields it; `body` is None when it is not JSON or not a listing snapshot. */
  datatype Http = NoResponse | Response(status: nat, body: Option<Snapshot>)

  datatype ClientError = NotFound | Conflict | BadGateway

  function ReadResponse(h: Http): (r: Result<Snapshot, ClientError>)
    ensures r == Err(NotFound) <==> h.Response? && h.status == 404
    ensures r == Err(Conflict) <==> h.Response? && h.status == 409
    ensures r.Ok? <==> h.Response? && 200 <= h.status <= 299 && h.body.Some?
    ensures r.Ok? ==> h.body == Some(r.value)
  {
    match h
    case NoResponse => Err(BadGateway)
    case Response(status, body) =>
      if status == 404 then Err(NotFound)
      else if status == 409 then Err(Conflict)
      else if !(200 <= status <= 299) then Err(BadGateway)
      else match body
        case None => Err(BadGateway)
        case Some(snapshot) => Ok(snapshot)
  }

  /** What the network does to one call: nothing, lose it on its way, or lose (or garble) its reply. */
  datatype Weather = Clear | RequestLost | ReplyLost

  function Respond(r: Result<Snapshot, CatalogError>): Http {
    match r
    case Ok(snapshot) => Response(200, Some(snapshot))
    case Err(ListingNotFound) => Response(404, None)
    case Err(StateConflict) => Response(409, None)
  }

  class Client {
    const server: InternalListings

    constructor (server: InternalListings)
      ensures this.server == server
    {
      this.server := server;
    }

    method GetListing(id: Id, w: Weather) returns (r: Result<Snapshot, ClientError>)
      ensures r.Ok? <==> w.Clear? && id in server.rows
      ensures r.Ok? ==> r.value == server.rows[id]
      ensures r.Err? ==> r.error == if w.Clear? then NotFound else BadGateway
    {
      var h := NoResponse;
      if !w.RequestLost? {
        var answer := server.GetSnapshot(id);
        h := if w.Clear? then Respond(answer) else NoResponse;
      }
      r := ReadResponse(h);
    }

    /** A clear answer tells exactly whether the reserve was applied; otherwise the caller is in doubt. */
    method ReserveListing(id: Id, w: Weather) returns (r: Result<Snapshot, ClientError>)
      modifies server
      ensures var applied := !w.RequestLost? && id in old(server.rows)
                             && old(server.rows)[id].status.Approved? && old(server.rows)[id].availability.Available?;
              && server.rows == (if applied then old(server.rows)[id := old(server.rows)[id].(availability := Availability.Reserved)]
                                 else old(server.rows))
              && (r.Ok? <==> w.Clear? && applied)
      ensures r.Err? ==> r.error == if !w.Clear? then BadGateway else if id in old(server.rows) then Conflict else NotFound
    {
      var h := NoResponse;
      if !w.RequestLost? {
        var answer := server.Reserve(id);
        h := if w.Clear? then Respond(answer) else NoResponse;
      }
      r := ReadResponse(h);
    }

    /** `meanwhile` is the table as others left it between the server's read and its write. */
    method CompleteListing(id: Id, w: Weather, meanwhile: Table) returns (r: Result<Snapshot, ClientError>)
      requires Evolves(server.rows, meanwhile)
      modifies server
      ensures if !w.RequestLost? && id in old(server.rows) && old(server.rows)[id].availability.Reserved?
              then id in meanwhile && server.rows == meanwhile[id := meanwhile[id].(availability := Availability.Completed)]
              else server.rows == old(server.rows)
      ensures r.Ok? <==> w.Clear? && id in old(server.rows) && !old(server.rows)[id].availability.Available?
      ensures r.Ok? ==> id in server.rows && server.rows[id].availability.Completed?
      ensures r.Err? ==> r.error == if !w.Clear? then BadGateway else if id in old(server.rows) then Conflict else NotFound
    {
      var h := NoResponse;
      if !w.RequestLost? {
        var answer := server.Complete(id, meanwhile);
        h := if w.Clear? then Respond(answer) else NoResponse;
      }
      r := ReadResponse(h);
    }

    method ReleaseListing(id: Id, w: Weather, meanwhile: Table) returns (r: Result<Snapshot, ClientError>)
      requires Evolves(server.rows, meanwhile)
      modifies server
      ensures if !w.RequestLost? && id in old(server.rows) && old(server.rows)[id].availability.Reserved?
              then id in meanwhile && server.rows == meanwhile[id := meanwhile[id].(availability := Availability.Available)]
              else server.rows == old(server.rows)
      ensures r.Ok? <==> w.Clear? && id in old(server.rows) && !old(server.rows)[id].availability.Completed?
      ensures r.Ok? ==> id in server.rows && server.rows[id].availability.Available?
      ensures r.Err? ==> r.error == if !w.Clear? then BadGateway else if id in old(server.rows) then Conflict else NotFound
    {
      var h := NoResponse;
      if !w.RequestLost? {
        var answer := server.Release(id, meanwhile);
        h := if w.Clear? then Respond(answer) else NoResponse;
      }
      r := ReadResponse(h);
    }
  }
}
