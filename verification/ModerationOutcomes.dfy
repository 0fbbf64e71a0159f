/** When the writes of moderation and of the galleries go through, exactly, and what they make of the row. */
module ModerationOutcomes {
  import opened Wrappers
  import opened Catalog
  import opened PublicationRules
  import opened Listings
  import opened Moderation
  import opened ModerationSteps

  /** This many different things are said. */
  function Said(wishes: seq<string>, fold: Fold): nat {
    |Meanings(wishes, fold, |wishes|)|
  }

  // ----- Edits

  /**
    An edit goes through exactly when the listing was the actor's and not approved as read, and the wishes it touches
    fit. Then the row, whatever it is by now, takes the given texts and type, and waits for review without a reason;
    nothing else changes. Otherwise no row does. In particular a rejected listing can be corrected.
  */
  lemma EditGoesThroughIff(s: State, r: nat, fold: Fold)
    requires Ready(s, r) && s.requests[r].task.Editing?
    ensures var t := Apply(s, OnRequest(DoWrite(r)), fold);
            var q := s.requests[r];
            var l, input, seen := q.view.listing, q.task.input, q.view.head;
            var operation := if input.operation.Some? then input.operation.value else seen.operation;
            var inQuestion := if input.wishes.Some? then input.wishes.value else if operation.Donation? then [] else q.view.wishes.value;
            if && (input.title.Some? || input.description.Some? || input.operation.Some? || input.wishes.Some?)
               && seen.owner == q.task.actor && !seen.status.Approved?
               && (input.operation.Some? || input.wishes.Some? ==>
                     if operation.Donation? then Said(inQuestion, fold) == 0 else 5 <= Said(inQuestion, fold) <= 10)
            then
              && l in t.rows && t.rows == s.rows[l := t.rows[l]]
              && var before, after := s.rows[l], t.rows[l];
                 && after.head == Head(before.head.owner,
                      if input.title.Some? then input.title.value else before.head.title,
                      if input.description.Some? then input.description.value else before.head.description,
                      if input.operation.Some? then input.operation.value else before.head.operation,
                      ListingStatus.Pending, before.head.availability, None, before.head.rev + 1)
                 && after.images == before.images
                 && after.wishes == if input.operation.Some? || input.wishes.Some? then Normalized(inQuestion, fold) else before.wishes
            else t.rows == s.rows
  {
    var q := s.requests[r];
    EditPassesIff(q.view.head, q.view.wishes.value, q.task.actor, q.task.input, fold);
    var operation := if q.task.input.operation.Some? then q.task.input.operation.value else q.view.head.operation;
    ValidWishesAreNormalized(operation, WishesInQuestion(operation, q.task.input, q.view.wishes.value), fold);
    hide ValidateTradeWishes, Normalized, Meanings;
  }

  lemma ValidWishesAreNormalized(operation: OperationType, wishes: seq<string>, fold: Fold)
    ensures ValidateTradeWishes(operation, wishes, fold).Ok? ==> ValidateTradeWishes(operation, wishes, fold).value == Normalized(wishes, fold)
  {
  }

  /**
    A moderator turned the listing down, and its owner corrects it: it is up for review again, the reason gone, exactly
    when the correction edits something and the wishes it touches fit. Otherwise it stays turned down.
  */
  lemma RejectedListingReturnsIff(acts: seq<Action>, r: nat, fold: Fold)
    requires var s := Exec(acts, fold);
             && Ready(s, r) && s.requests[r].task.Editing?
             && var q := s.requests[r];
                q.view.head.status.Rejected? && q.view.head.owner == q.task.actor && s.rows[q.view.listing].head.rev == q.view.head.rev
    ensures var s := Exec(acts, fold);
            var q := s.requests[r];
            var l, input := q.view.listing, q.task.input;
            var before, t := s.rows[l], Apply(s, OnRequest(DoWrite(r)), fold);
            var operation := if input.operation.Some? then input.operation.value else before.head.operation;
            var inQuestion := if input.wishes.Some? then input.wishes.value else if operation.Donation? then [] else before.wishes;
            && before.head.status.Rejected? && before.head.reason.Some? && l in t.rows
            && var after := t.rows[l];
               && (after.head.status.Pending? <==>
                     && (input.title.Some? || input.description.Some? || input.operation.Some? || input.wishes.Some?)
                     && (input.operation.Some? || input.wishes.Some? ==>
                           if operation.Donation? then Said(inQuestion, fold) == 0 else 5 <= Said(inQuestion, fold) <= 10))
               && (after.head.status.Pending? ==> after.head.reason.None? && after.head.rev > before.head.rev && after.images == before.images)
               && (!after.head.status.Pending? ==> after == before)
  {
    var s := Exec(acts, fold);
    var q := s.requests[r];
    RunKeepsInv(acts, fold);
    EditGoesThroughIff(s, r, fold);
    assert ViewAgrees(q.view, s.rows[q.view.listing]) && RowModerated(s.rows[q.view.listing], fold);
    hide Exec, Apply, Inv, Said, Clean, IsComplete, Normalized;
  }

  // ----- Decisions

  lemma RefusalsSpelledOut(q: Request, fold: Fold)
    requires Loaded(q.view) && (q.task.Approving? || q.task.Rejecting?)
    ensures RefuseReview(q.view.head, q.task.reviewed).None? <==> q.view.head.status.Pending? && q.view.head.rev == q.task.reviewed
    ensures RefuseApproval(q.view.head, q.view.images.value, q.view.wishes.value, q.task.reviewed, fold).None? <==>
            && q.view.head.status.Pending? && q.view.head.rev == q.task.reviewed && 5 <= |q.view.images.value| <= 8
            && var n := Said(q.view.wishes.value, fold); if q.view.head.operation.Donation? then n == 0 else 5 <= n <= 10
  {
    PublicationPassesIff(q.view.head.operation, |q.view.images.value|, q.view.wishes.value, fold);
    hide ValidatePublicationAssets, Meanings;
  }

  /**
    A decision goes through exactly when the listing is pending and still at the revision that was read and that the
    moderator named, and, for an approval, has five to eight images and wishes that fit. Nothing of the row changes
    but status, reason and revision.
  */
  lemma DecisionGoesThroughIff(s: State, r: nat, fold: Fold)
    requires Inv(s, fold) && Ready(s, r) && (s.requests[r].task.Approving? || s.requests[r].task.Rejecting?)
    ensures var t := Apply(s, OnRequest(DoWrite(r)), fold);
            var q := s.requests[r];
            var l := q.view.listing;
            var row := s.rows[l];
            var n := Said(row.wishes, fold);
            if && row.head.status.Pending? && row.head.rev == q.view.head.rev == q.task.reviewed
               && (q.task.Approving? ==> 5 <= |row.images| <= 8 && if row.head.operation.Donation? then n == 0 else 5 <= n <= 10)
            then t.rows == s.rows[l := row.(head := row.head.(
                   status := if q.task.Approving? then ListingStatus.Approved else ListingStatus.Rejected,
                   reason := if q.task.Approving? then None else Some(q.task.reason),
                   rev := row.head.rev + 1))]
            else t.rows == s.rows
  {
    var q := s.requests[r];
    assert ViewAgrees(q.view, s.rows[q.view.listing]);
    RefusalsSpelledOut(q, fold);
    hide Inv, RefuseReview, RefuseApproval, Said;
  }

  // ----- Galleries

  /**
    A replacement commits exactly when the owner's listing was neither approved nor out of stock as read, everything
    is uploaded, and the row is still the one that was read.
  */
  lemma ReplacementCommitsIff(s: State, r: nat, databaseFails: bool, fold: Fold)
    requires Inv(s, fold) && Ready(s, r) && s.requests[r].task.Replacing?
    ensures var t := Apply(s, OnGallery(DoReplace(r, databaseFails)), fold);
            var q := s.requests[r];
            var l, row := q.view.listing, s.rows[q.view.listing];
            if && !databaseFails && |q.task.uploaded| == q.task.total && row.head.rev == q.view.head.rev
               && row.head.owner == q.task.actor && !row.head.status.Approved? && row.head.availability.Available?
            then
              && t.rows == s.rows[l := Row(row.head.(status := ListingStatus.Pending, reason := None, rev := row.head.rev + 1),
                                           q.task.uploaded, row.wishes)]
              && t.doomed == s.doomed + KeysOf(row.images) && t.objects == s.objects
            else t.rows == s.rows
  {
    var q := s.requests[r];
    assert ViewAgrees(q.view, s.rows[q.view.listing]);
    hide Inv, RolledBack, Relocate, KeysOf;
  }

  /** A deletion empties the gallery under the same conditions, if there is anything in it. */
  lemma DeletionCommitsIff(s: State, r: nat, fold: Fold)
    requires Inv(s, fold) && Ready(s, r) && s.requests[r].task.Deleting?
    ensures var t := Apply(s, OnGallery(DoDelete(r)), fold);
            var q := s.requests[r];
            var l, row := q.view.listing, s.rows[q.view.listing];
            if && row.images != [] && row.head.rev == q.view.head.rev
               && row.head.owner == q.task.actor && !row.head.status.Approved? && row.head.availability.Available?
            then
              && t.rows == s.rows[l := Row(row.head.(status := ListingStatus.Pending, reason := None, rev := row.head.rev + 1), [], row.wishes)]
              && t.doomed == s.doomed + KeysOf(row.images)
            else t.rows == s.rows
  {
    var q := s.requests[r];
    assert ViewAgrees(q.view, s.rows[q.view.listing]);
    hide Inv, Relocate, KeysOf;
  }

  /**
    Photos chosen in the form make a batch the gallery service takes: whatever the listing shows already, a draft with
    photos, all of them good and with wishes that pass, passes its check exactly when they can be uploaded together.
  */
  lemma ChosenPhotosMakeABatch(value: ListingInput, images: seq<ImageCandidate>, existing: int, actor: Id, fold: Fold)
    requires images != [] && FirstBadImage(images).None?
    requires ValidateTradeWishes(value.operation, NormalizedListingInput(value).tradeWishes, fold).Ok?
    ensures ValidatePublicationDraft(value, images, existing, fold).None? <==> CanStart(Replacing(actor, |images|, []))
    ensures CanStart(Replacing(actor, |images|, [])) <==> 5 <= |images| <= 8
  {
    WebAgreesWithCatalog(value, images, existing, fold);
    ImagesPassIff(images);
    hide FirstBadImage, ValidateTradeWishes, ValidatePublicationDraft, NormalizedListingInput;
  }
}
