/**
  A listing with its assets, and what each operation of Catalog decides and writes. The decisions are made on what
  was read earlier, the writes are single database transactions on the row as it is by then; a claim that matches
  no row yields None.
*/
module Listings {
  import opened Wrappers
  import opened Catalog
  import opened PublicationRules

  /** An object in storage. */
  type Key = nat

  /** The listing's own columns; `rev` stands for `updatedAt`, which every write increases. Texts are interned. */
  datatype Head = Head(owner: Id, title: Id, description: Id, operation: OperationType, status: ListingStatus,
                       availability: Availability, reason: Option<Id>, rev: nat)

  /** The listing with its image rows, in order of position, and the labels of its wishes. */
  datatype Row = Row(head: Head, images: seq<Key>, wishes: seq<string>)

  datatype EditInput = EditInput(title: Option<Id>, description: Option<Id>, operation: Option<OperationType>, wishes: Option<seq<string>>)

  datatype ListingError =
    | EmptyEdit | NotFound | NotOwner | IsApproved | NotPending | ReviewedAnother | LostRace | BrokenRule(rule: RuleError)
    | BadBatchSize | NotAvailable | InvalidImage | StorageDown | UploadFailed | DatabaseDown

  function NewRow(owner: Id, title: Id, description: Id, operation: OperationType, wishes: seq<string>): Row {
    Row(Head(owner, title, description, operation, ListingStatus.Pending, Available, None, 0), [], wishes)
  }

  /** `reserve`, `complete` and `release`, as this service's row sees them. */
  function WithAvailability(row: Row, a: Availability): Row {
    row.(head := row.head.(availability := a, rev := row.head.rev + 1))
  }

  // ----- updateOwned

  predicate IsEmptyEdit(input: EditInput) {
    input.title.None? && input.description.None? && input.operation.None? && input.wishes.None?
  }

  function OrElse<T>(o: Option<T>, d: T): T {
    if o.Some? then o.value else d
  }

  predicate ReplacesWishes(input: EditInput) {
    input.wishes.Some? || input.operation.Some?
  }

  /** The wishes an edit has validated: those it brings, or else none for a donation and the stored ones for a trade. */
  function WishesInQuestion(operation: OperationType, input: EditInput, stored: seq<string>): seq<string> {
    if input.wishes.Some? then input.wishes.value else if operation.Donation? then [] else stored
  }

  /** The checks on what was read; on success, the wishes to store, or None to leave them alone. */
  function PrepareEdit(head: Head, wishes: seq<string>, owner: Id, input: EditInput, fold: Fold): Result<Option<seq<string>>, ListingError> {
    if IsEmptyEdit(input) then Err(EmptyEdit)
    else if head.owner != owner then Err(NotOwner)
    else if head.status.Approved? then Err(IsApproved)
    else if !ReplacesWishes(input) then Ok(None)
    else
      var operation := OrElse(input.operation, head.operation);
      match ValidateTradeWishes(operation, WishesInQuestion(operation, input, wishes), fold)
      case Ok(w) => Ok(Some(w))
      case Err(e) => Err(BrokenRule(e))
  }

  /**
    The checks let an edit through exactly when it edits something, is the owner's, finds the listing not approved,
    rejected ones included, and, if it touches wishes or type, has wishes that say nothing (donation) or five to ten
    different things (trade).
  */
  lemma EditPassesIff(head: Head, wishes: seq<string>, owner: Id, input: EditInput, fold: Fold)
    ensures PrepareEdit(head, wishes, owner, input, fold).Ok? <==>
            && (input.title.Some? || input.description.Some? || input.operation.Some? || input.wishes.Some?)
            && head.owner == owner && (head.status.Pending? || head.status.Rejected?)
            && (input.operation.Some? || input.wishes.Some? ==>
                  var operation := if input.operation.Some? then input.operation.value else head.operation;
                  var inQuestion := WishesInQuestion(operation, input, wishes);
                  var said := |Meanings(inQuestion, fold, |inQuestion|)|;
                  if operation.Donation? then said == 0 else 5 <= said <= 10)
  {
    var operation := if input.operation.Some? then input.operation.value else head.operation;
    WishesPassIff(operation, WishesInQuestion(operation, input, wishes), fold);
    hide ValidateTradeWishes, Meanings;
  }

  /** The write names the listing only by its id: whatever the row has become, it is edited and pending again. */
  function WriteEdit(row: Row, input: EditInput, wishes: Option<seq<string>>): Row {
    Row(row.head.(title := OrElse(input.title, row.head.title), description := OrElse(input.description, row.head.description),
                  operation := OrElse(input.operation, row.head.operation), status := ListingStatus.Pending, reason := None, rev := row.head.rev + 1),
        row.images, OrElse(wishes, row.wishes))
  }

  // ----- approve and reject

  function RefuseReview(head: Head, reviewed: nat): Option<ListingError> {
    if !head.status.Pending? then Some(NotPending) else if head.rev != reviewed then Some(ReviewedAnother) else None
  }

  function RefuseApproval(head: Head, images: seq<Key>, wishes: seq<string>, reviewed: nat, fold: Fold): Option<ListingError> {
    if RefuseReview(head, reviewed).Some? then RefuseReview(head, reviewed)
    else match ValidatePublicationAssets(head.operation, |images|, wishes, fold)
      case Ok(_) => None
      case Err(e) => Some(BrokenRule(e))
  }

  /** The conditional update: still pending, still the revision that was read. */
  function ClaimDecision(row: Row, rev: nat, status: ListingStatus, reason: Option<Id>): Option<Row> {
    if row.head.status.Pending? && row.head.rev == rev
    then Some(row.(head := row.head.(status := status, reason := reason, rev := rev + 1))) else None
  }

  // ----- images

  function RefuseGalleryChange(head: Head, owner: Id): Option<ListingError> {
    if head.owner != owner then Some(NotOwner)
    else if head.status.Approved? then Some(IsApproved)
    else if !head.availability.Available? then Some(NotAvailable)
    else None
  }

  function WithImages(row: Row, images: seq<Key>): Row {
    Row(row.head.(status := ListingStatus.Pending, reason := None, rev := row.head.rev + 1), images, row.wishes)
  }

  /** The claim of `replaceOwnedImages` looks at the owner and the revision only. */
  function ClaimReplacement(row: Row, owner: Id, rev: nat, images: seq<Key>): Option<Row> {
    if row.head.owner == owner && row.head.rev == rev then Some(WithImages(row, images)) else None
  }

  /** The claim of `deleteOwnedImages` repeats every check. */
  function ClaimDeletion(row: Row, owner: Id, rev: nat): Option<Row> {
    if row.head.owner == owner && !row.head.status.Approved? && row.head.availability.Available? && row.head.rev == rev
    then Some(WithImages(row, [])) else None
  }

  // ----- What publication promises

  predicate IsComplete(row: Row, fold: Fold) {
    MIN_LISTING_IMAGES <= |row.images| <= MAX_LISTING_IMAGES && WishesFit(row.head.operation, row.wishes, fold)
  }

  /** Everything a moderator decides on. */
  predicate SameContent(a: Row, b: Row) {
    && a.head.title == b.head.title && a.head.description == b.head.description && a.head.operation == b.head.operation
    && a.images == b.images && a.wishes == b.wishes
  }

  type Rows = map<Id, Row>

  /**
    A later state of the same table: listings stay and keep their owner, and a revision that is still current is
    still the same row.
  */
  ghost predicate Follows(before: Rows, after: Rows) {
    forall l :: l in before ==> l in after && RowFollows(before[l], after[l])
  }

  predicate RowFollows(before: Row, after: Row) {
    && after.head.owner == before.head.owner
    && before.head.rev <= after.head.rev && (before.head.rev == after.head.rev ==> before == after)
  }
}
