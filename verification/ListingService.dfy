/**
  Catalog's listing service as the code runs it, one request at a time. A request reads the row, then the assets,
  and writes later; the tables it finds then are parameters, any that other requests may have left.
*/
module ListingService {
  import opened Wrappers
  import opened Catalog
  import opened PublicationRules
  import opened Listings

  /** The first refusal, or the last resort. */
  function OrSome<T>(o: Option<T>, d: T): Option<T> {
    if o.Some? then o else Some(d)
  }

  class ListingTable {
    var rows: Rows

    constructor ()
      ensures rows == map[]
    {
      rows := map[];
    }
  }

  class ListingsService {
    const table: ListingTable
    const fold: Fold

    constructor (table: ListingTable, fold: Fold)
      ensures this.table == table && this.fold == fold
    {
      this.table := table;
      this.fold := fold;
    }

    method ValidWishes(operation: OperationType, wishes: seq<string>) returns (r: Result<seq<string>, RuleError>)
      ensures r == ValidateTradeWishes(operation, wishes, fold)
    {
      var normalized := NormalizeTradeWishes(wishes, fold);
      if operation.Donation? {
        return if |normalized| > 0 then Err(DonationWithWishes) else Ok([]);
      }
      if |normalized| < MIN_TRADE_WISHES {
        return Err(TooFewWishes);
      }
      if |normalized| > MAX_TRADE_WISHES {
        return Err(TooManyWishes);
      }
      return Ok(normalized);
    }

    /** A new listing is pending, available and has no images; its wishes fit its type. */
    method Create(id: Id, owner: Id, title: Id, description: Id, operation: OperationType, wishes: Option<seq<string>>)
      returns (r: Result<Row, ListingError>)
      requires id !in table.rows
      modifies table
      ensures r.Err? ==> table.rows == old(table.rows)
      ensures var given := if wishes.Some? then wishes.value else [];
              var said := |Meanings(given, fold, |given|)|;
              && (r.Ok? <==> if operation.Donation? then said == 0 else 5 <= said <= 10)
              && (r.Ok? ==>
                    && table.rows == old(table.rows)[id := r.value] && WishesFit(operation, r.value.wishes, fold)
                    && r.value == Row(Head(owner, title, description, operation, ListingStatus.Pending, Available, None, 0), [], Normalized(given, fold)))
    {
      WishesPassIff(operation, OrElse(wishes, []), fold);
      var normalized := ValidWishes(operation, OrElse(wishes, []));
      if normalized.Err? {
        return Err(BrokenRule(normalized.error));
      }
      StoredWishesRevalidate(operation, OrElse(wishes, []), fold);
      var row := NewRow(owner, title, description, operation, normalized.value);
      table.rows := table.rows[id := row];
      return Ok(row);
    }

    /**
      The checks are made on the row and the wishes as read, the write on the row as it is by then, whatever has
      happened to it meanwhile: afterwards it is pending, without a reason, at a new revision, its images untouched.
    */
    method UpdateOwned(id: Id, owner: Id, input: EditInput, assetsRead: Rows, meanwhile: Rows) returns (r: Result<Row, ListingError>)
      requires Follows(table.rows, assetsRead) && Follows(assetsRead, meanwhile)
      modifies table
      ensures r.Err? ==> table.rows == old(table.rows)
      ensures r.Ok? <==>
        && (input.title.Some? || input.description.Some? || input.operation.Some? || input.wishes.Some?)
        && id in old(table.rows) && old(table.rows)[id].head.owner == owner && !old(table.rows)[id].head.status.Approved?
        && (input.operation.Some? || input.wishes.Some? ==>
              var operation := if input.operation.Some? then input.operation.value else old(table.rows)[id].head.operation;
              var inQuestion := if input.wishes.Some? then input.wishes.value
                                else if operation.Donation? || id !in assetsRead then [] else assetsRead[id].wishes;
              var said := |Meanings(inQuestion, fold, |inQuestion|)|;
              if operation.Donation? then said == 0 else 5 <= said <= 10)
      ensures r.Err? ==>
        if id in old(table.rows) then Err(r.error) == PrepareEdit(old(table.rows)[id].head, assetsRead[id].wishes, owner, input, fold)
        else r.error == if IsEmptyEdit(input) then EmptyEdit else NotFound
      ensures r.Ok? ==>
        && id in assetsRead && id in meanwhile && table.rows == meanwhile[id := r.value]
        && r.value.head == Head(owner,
             if input.title.Some? then input.title.value else meanwhile[id].head.title,
             if input.description.Some? then input.description.value else meanwhile[id].head.description,
             if input.operation.Some? then input.operation.value else meanwhile[id].head.operation,
             ListingStatus.Pending, meanwhile[id].head.availability, None, meanwhile[id].head.rev + 1)
        && r.value.images == meanwhile[id].images
        && var operation := if input.operation.Some? then input.operation.value else old(table.rows)[id].head.operation;
           && (input.wishes.None? && input.operation.None? ==> r.value.wishes == meanwhile[id].wishes)
           && (input.wishes.Some? ==> r.value.wishes == Normalized(input.wishes.value, fold))
           && (input.wishes.None? && input.operation.Some? ==>
                 r.value.wishes == if operation.Donation? then [] else Normalized(assetsRead[id].wishes, fold))
           && (input.wishes.Some? || input.operation.Some? ==> WishesFit(operation, r.value.wishes, fold))
    {
      if IsEmptyEdit(input) {
        return Err(EmptyEdit);
      }
      if id !in table.rows {
        return Err(NotFound);
      }
      EditPassesIff(table.rows[id].head, assetsRead[id].wishes, owner, input, fold);
      var head, currentWishes := table.rows[id].head, assetsRead[id].wishes;
      if head.owner != owner {
        return Err(NotOwner);
      }
      if head.status.Approved? {
        return Err(IsApproved);
      }
      var operation := OrElse(input.operation, head.operation);
      var wishes: Option<seq<string>> := None;
      if ReplacesWishes(input) {
        var forValidation := OrElse(input.wishes, if operation.Donation? then [] else currentWishes);
        var normalized := ValidWishes(operation, forValidation);
        if normalized.Err? {
          return Err(BrokenRule(normalized.error));
        }
        StoredWishesRevalidate(operation, forValidation, fold);
        wishes := Some(normalized.value);
      }
      table.rows := meanwhile;
      var row := WriteEdit(table.rows[id], input, wishes);
      table.rows := table.rows[id := row];
      return Ok(row);
    }

    /** The row read is still current, which makes the assets read later, and those approved, its own. */
    lemma StillCurrent(before: Rows, assetsRead: Rows, meanwhile: Rows, id: Id)
      requires Follows(before, assetsRead) && Follows(assetsRead, meanwhile) && id in before
      ensures id in assetsRead && id in meanwhile
      ensures meanwhile[id].head.rev == before[id].head.rev ==> assetsRead[id] == before[id] && meanwhile[id] == before[id]
    {
      assert RowFollows(before[id], assetsRead[id]) && RowFollows(assetsRead[id], meanwhile[id]);
    }

    /**
      An approval goes through exactly when the listing was pending at the revision the moderator named, is still at
      that revision, and is publishable. Nothing but its status changes, so what was reviewed is what is published.
    */
    method Approve(id: Id, reviewed: nat, assetsRead: Rows, meanwhile: Rows) returns (r: Result<Row, ListingError>)
      requires Follows(table.rows, assetsRead) && Follows(assetsRead, meanwhile)
      modifies table
      ensures r.Ok? <==>
        && id in old(table.rows) && id in meanwhile && meanwhile[id].head.rev == reviewed
        && var row := old(table.rows)[id];
           && row.head.status.Pending? && row.head.rev == reviewed
           && 5 <= |row.images| <= 8 && ValidateTradeWishes(row.head.operation, row.wishes, fold).Ok?
      ensures r.Err? ==>
        if id !in old(table.rows) then r.error == NotFound
        else Some(r.error) == OrSome(RefuseApproval(old(table.rows)[id].head, assetsRead[id].images, assetsRead[id].wishes, reviewed, fold), LostRace)
      ensures r.Ok? ==>
        && table.rows == meanwhile[id := r.value] && SameContent(r.value, old(table.rows)[id])
        && r.value == meanwhile[id].(head := meanwhile[id].head.(status := ListingStatus.Approved, reason := None, rev := reviewed + 1))
      ensures r.Err? ==> table.rows == old(table.rows) || table.rows == meanwhile
    {
      if id !in table.rows {
        return Err(NotFound);
      }
      var head, images, wishes := table.rows[id].head, assetsRead[id].images, assetsRead[id].wishes;
      StillCurrent(table.rows, assetsRead, meanwhile, id);
      if !head.status.Pending? {
        return Err(NotPending);
      }
      if head.rev != reviewed {
        return Err(ReviewedAnother);
      }
      if |images| < MIN_LISTING_IMAGES || |images| > MAX_LISTING_IMAGES {
        return Err(BrokenRule(WrongImageCount));
      }
      var valid := ValidWishes(head.operation, wishes);
      if valid.Err? {
        return Err(BrokenRule(valid.error));
      }
      table.rows := meanwhile;
      var claim := ClaimDecision(table.rows[id], head.rev, ListingStatus.Approved, None);
      if claim.None? {
        return Err(LostRace);
      }
      table.rows := table.rows[id := claim.value];
      return Ok(table.rows[id]);
    }

    /** As an approval, without a look at the assets; the reason is kept on the listing. */
    method Reject(id: Id, reviewed: nat, reason: Id, assetsRead: Rows, meanwhile: Rows) returns (r: Result<Row, ListingError>)
      requires Follows(table.rows, assetsRead) && Follows(assetsRead, meanwhile)
      modifies table
      ensures r.Ok? <==>
        && id in old(table.rows) && id in meanwhile && meanwhile[id].head.rev == reviewed
        && old(table.rows)[id].head.status.Pending? && old(table.rows)[id].head.rev == reviewed
      ensures r.Err? ==>
        if id !in old(table.rows) then r.error == NotFound
        else Some(r.error) == OrSome(RefuseReview(old(table.rows)[id].head, reviewed), LostRace)
      ensures r.Ok? ==>
        && table.rows == meanwhile[id := r.value] && SameContent(r.value, old(table.rows)[id])
        && r.value == meanwhile[id].(head := meanwhile[id].head.(status := ListingStatus.Rejected, reason := Some(reason), rev := reviewed + 1))
      ensures r.Err? ==> table.rows == old(table.rows) || table.rows == meanwhile
    {
      if id !in table.rows {
        return Err(NotFound);
      }
      var head := table.rows[id].head;
      StillCurrent(table.rows, assetsRead, meanwhile, id);
      if !head.status.Pending? {
        return Err(NotPending);
      }
      if head.rev != reviewed {
        return Err(ReviewedAnother);
      }
      table.rows := meanwhile;
      var claim := ClaimDecision(table.rows[id], head.rev, ListingStatus.Rejected, Some(reason));
      if claim.None? {
        return Err(LostRace);
      }
      table.rows := table.rows[id := claim.value];
      return Ok(table.rows[id]);
    }
  }
}
