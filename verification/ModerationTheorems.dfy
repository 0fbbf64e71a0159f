/** What holds of every run of moderation and gallery replacement. */
module ModerationTheorems {
  import opened Wrappers
  import opened Catalog
  import opened PublicationRules
  import opened Listings
  import opened Moderation
  import opened ModerationSteps

  // ----- Images

  /** Every image row names an object in storage, and no key is shared, neither inside a gallery nor between two. */
  lemma NoBrokenImageReference(acts: seq<Action>, fold: Fold)
    ensures var s := Exec(acts, fold);
            && (forall l, i :: l in s.rows && 0 <= i < |s.rows[l].images| ==> s.rows[l].images[i] in s.objects)
            && (forall l, m, i, j :: l in s.rows && m in s.rows && 0 <= i < |s.rows[l].images| && 0 <= j < |s.rows[m].images| ==>
                  s.rows[l].images[i] == s.rows[m].images[j] ==> l == m && i == j)
  {
    RunKeepsInv(acts, fold);
    hide Exec, RowsModerated, ViewsAgree, UploadsPlaced, DoomedDiscarded, StoragePlaced, Numbered;
    var s := Exec(acts, fold);
    forall l | l in s.rows
      ensures Distinct(s.rows[l].images) && AllAt(s.rows[l].images, s.place, InRow(l)) && AllStored(s.rows[l].images, s.objects)
    {
    }
  }

  /** What accounts for an object in storage. */
  ghost predicate Referenced(s: State, k: Key) {
    exists l :: l in s.rows && k in s.rows[l].images
  }

  ghost predicate BeingUploaded(s: State, k: Key) {
    exists r :: r in s.requests && s.requests[r].task.Replacing? && k in s.requests[r].task.uploaded
  }

  /** The step ends a replacement that has uploaded something, without its rollback: the process died. */
  ghost predicate LosesUploads(s: State, a: Action) {
    && a.OnRequest? && a.request.DoDrop? && a.request.r in s.requests
    && s.requests[a.request.r].task.Replacing? && s.requests[a.request.r].task.uploaded != []
  }

  /** No replacement dies with uploads on its hands; other requests may be refused or die at any point. */
  ghost predicate NoUploadLost(acts: seq<Action>, fold: Fold) {
    forall i :: 0 <= i < |acts| ==> !LosesUploads(Exec(acts[..i], fold), acts[i])
  }

  lemma StepOrphansNothing(s: State, a: Action, fold: Fold)
    requires !LosesUploads(s, a) && forall k :: k in s.place ==> !s.place[k].Orphaned?
    ensures forall k :: k in Apply(s, a, fold).place ==> !Apply(s, a, fold).place[k].Orphaned?
  {
    hide TextualWrite, RefuseGalleryChange, ValidateTradeWishes;
    assert KeysOf([]) == {};
    hide KeysOf;
  }

  lemma {:induction false} NothingLostNoOrphan(acts: seq<Action>, fold: Fold)
    requires NoUploadLost(acts, fold)
    ensures forall k :: k in Exec(acts, fold).place ==> !Exec(acts, fold).place[k].Orphaned?
  {
    if acts != [] {
      var last := |acts| - 1;
      var s := Exec(acts[..last], fold);
      assert Exec(acts, fold) == Apply(s, acts[last], fold);
      hide Exec, Apply, LosesUploads;
      forall i | 0 <= i < last
        ensures !LosesUploads(Exec(acts[..last][..i], fold), acts[..last][i])
      {
        assert acts[..last][..i] == acts[..i];
      }
      NothingLostNoOrphan(acts[..last], fold);
      StepOrphansNothing(s, acts[last], fold);
    }
  }

  /**
    What a gallery shows is never up for deletion. Only unreferenced objects can be left over: unless a replacement
    dies with uploads on its hands, every object is referenced, being uploaded, or due for a deletion that may still
    be tried.
  */
  lemma OnlyUnreferencedObjectsRemain(acts: seq<Action>, k: Key, fold: Fold)
    ensures var s := Exec(acts, fold);
            && (Referenced(s, k) ==> k in s.objects && k !in s.doomed && !BeingUploaded(s, k))
            && (BeingUploaded(s, k) ==> k in s.objects && k !in s.doomed)
            && (NoUploadLost(acts, fold) && k in s.objects ==> Referenced(s, k) || BeingUploaded(s, k) || k in s.doomed)
  {
    RunKeepsInv(acts, fold);
    if NoUploadLost(acts, fold) {
      NothingLostNoOrphan(acts, fold);
    }
    var s := Exec(acts, fold);
    hide Exec, RowsModerated, ViewsAgree, Numbered, NoUploadLost;
    ReferencedPlace(s, k, fold);
    UploadedPlace(s, k, fold);
    if k in s.objects {
      assert PlaceTrue(k, s.place[k], s.rows, s.requests, s.doomed);
    }
    hide RowsPlaced, RowsStored, UploadsPlaced, StoragePlaced;
  }

  lemma ReferencedPlace(s: State, k: Key, fold: Fold)
    requires Inv(s, fold)
    ensures Referenced(s, k) ==> k in s.objects && k in s.place && s.place[k].InRow?
  {
    hide RowsModerated, ViewsAgree, UploadsPlaced, DoomedDiscarded, StoragePlaced, Numbered, Distinct;
    if Referenced(s, k) {
      var l :| l in s.rows && k in s.rows[l].images;
      var i :| 0 <= i < |s.rows[l].images| && s.rows[l].images[i] == k;
      assert AllAt(s.rows[l].images, s.place, InRow(l)) && AllStored(s.rows[l].images, s.objects);
    }
  }

  lemma UploadedPlace(s: State, k: Key, fold: Fold)
    requires Inv(s, fold)
    ensures BeingUploaded(s, k) ==> k in s.objects && k in s.place && s.place[k].Uploading?
  {
    hide RowsPlaced, RowsStored, RowsModerated, ViewsAgree, DoomedDiscarded, StoragePlaced, Numbered, Distinct;
    if BeingUploaded(s, k) {
      var r :| r in s.requests && s.requests[r].task.Replacing? && k in s.requests[r].task.uploaded;
      assert UploadPlaced(r, s.requests[r].task, s.place, s.objects);
      var i :| 0 <= i < |s.requests[r].task.uploaded| && s.requests[r].task.uploaded[i] == k;
    }
  }

  // ----- Approved listings

  /**
    An approved listing has five to eight images and the wishes its type asks for; a moderation reason stands
    exactly on rejected listings; stored wishes are normalised.
  */
  lemma ApprovedMeansComplete(acts: seq<Action>, l: Id, fold: Fold)
    requires l in Exec(acts, fold).rows
    ensures var row := Exec(acts, fold).rows[l];
            && (row.head.status.Approved? ==>
                  && 5 <= |row.images| <= 8
                  && match row.head.operation
                     case Donation => row.wishes == []
                     case Trade => 5 <= |row.wishes| <= 10)
            && (row.head.status.Rejected? <==> row.head.reason.Some?)
            && Clean(row.wishes, fold)
  {
    RunKeepsInv(acts, fold);
    hide Exec, Clean;
    assert RowModerated(Exec(acts, fold).rows[l], fold);
  }

  /** A row that a step changes gets a higher revision; its owner stays. */
  lemma StepAdvances(s: State, a: Action, l: Id, fold: Fold)
    requires Inv(s, fold) && l in s.rows
    ensures l in Apply(s, a, fold).rows
    ensures Apply(s, a, fold).rows[l] == s.rows[l] || Advances(s.rows[l], Apply(s, a, fold).rows[l])
  {
    match a
    case OnRow(x) => hide ValidateTradeWishes;
    case OnRequest(x) =>
      hide Loaded;
      RequestStepAdvances(s, x, l, fold);
      hide ApplyRequest;
    case OnGallery(x) =>
      hide RolledBack, Relocate, KeysOf, RefuseGalleryChange;
  }

  lemma RequestStepAdvances(s: State, a: RequestAction, l: Id, fold: Fold)
    requires Inv(s, fold) && l in s.rows
    ensures l in ApplyRequest(s, a, fold).rows
    ensures ApplyRequest(s, a, fold).rows[l] == s.rows[l] || Advances(s.rows[l], ApplyRequest(s, a, fold).rows[l])
  {
    if a.DoWrite? && Ready(s, a.r) && TextualWrite(s.requests[a.r], s.rows[s.requests[a.r].view.listing], fold).Some? {
      var q := s.requests[a.r];
      assert ViewAgrees(q.view, s.rows[q.view.listing]) && RowModerated(s.rows[q.view.listing], fold);
      TextualWriteFacts(q, s.rows[q.view.listing], fold);
    }
    hide Inv, ViewAgrees, RowModerated, TextualWrite;
  }

  lemma StepFollows(s: State, a: Action, fold: Fold)
    requires Inv(s, fold)
    ensures Follows(s.rows, Apply(s, a, fold).rows)
  {
    hide Inv, Apply;
    forall l | l in s.rows
      ensures l in Apply(s, a, fold).rows && RowFollows(s.rows[l], Apply(s, a, fold).rows[l])
    {
      StepAdvances(s, a, l, fold);
    }
  }

  /** A revision names one state of a listing for good: whoever sees the same revision again sees the same row. */
  lemma {:induction false} RevisionNamesOneRow(acts: seq<Action>, i: nat, fold: Fold)
    requires i <= |acts|
    ensures Follows(Exec(acts[..i], fold).rows, Exec(acts, fold).rows)
  {
    if i == |acts| {
      assert acts[..i] == acts;
    } else {
      var last := |acts| - 1;
      var s := Exec(acts[..last], fold);
      assert Exec(acts, fold) == Apply(s, acts[last], fold);
      hide Inv, Exec, Apply;
      assert acts[..last][..i] == acts[..i];
      RevisionNamesOneRow(acts[..last], i, fold);
      RunKeepsInv(acts[..last], fold);
      StepFollows(s, acts[last], fold);
    }
  }

  /** The edit that this step carries out on this listing, if it is one. */
  ghost predicate EditsNow(s: State, a: Action, l: Id, fold: Fold) {
    && a.OnRequest? && a.request.DoWrite? && Ready(s, a.request.r)
    && var q := s.requests[a.request.r];
       q.view.listing == l && q.task.Editing? && EditedRow(q, s.rows[l], fold).Some?
  }

  lemma GalleryKeepsApproved(s: State, a: GalleryAction, l: Id, fold: Fold)
    requires Inv(s, fold) && l in s.rows && s.rows[l].head.status.Approved?
    ensures l in ApplyGallery(s, a).rows && ApplyGallery(s, a).rows[l] == s.rows[l]
  {
    if (a.DoReplace? || a.DoDelete?) && a.r in s.requests && s.requests[a.r].view.listing == l {
      assert ViewAgrees(s.requests[a.r].view, s.rows[l]);
    }
    hide Inv, ViewAgrees, RolledBack, Relocate, KeysOf;
  }

  lemma RowStepKeepsContent(s: State, a: RowAction, l: Id, fold: Fold)
    requires l in s.rows
    ensures l in ApplyRow(s, a, fold).rows && SameContent(s.rows[l], ApplyRow(s, a, fold).rows[l])
    ensures ApplyRow(s, a, fold).rows[l].head.status == s.rows[l].head.status
  {
    hide ValidateTradeWishes;
  }

  lemma WriteOnApproved(s: State, a: RequestAction, l: Id, fold: Fold)
    requires Inv(s, fold) && l in s.rows && s.rows[l].head.status.Approved?
    ensures l in ApplyRequest(s, a, fold).rows
    ensures if EditsNow(s, OnRequest(a), l, fold) then ApplyRequest(s, a, fold).rows[l].head.status.Pending?
            else ApplyRequest(s, a, fold).rows[l] == s.rows[l]
  {
    hide Inv, PrepareEdit, RefuseApproval;
  }

  /**
    "Approved stays approved" is false, and this is exactly how far: the only step that takes a listing out of
    Approved is the write of an edit that was checked against an older revision. Any other step leaves its content
    alone.
  */
  lemma OnlyAStaleEditUnpublishes(s: State, a: Action, l: Id, fold: Fold)
    requires Inv(s, fold) && l in s.rows && s.rows[l].head.status.Approved?
    ensures l in Apply(s, a, fold).rows
    ensures !Apply(s, a, fold).rows[l].head.status.Approved? <==> EditsNow(s, a, l, fold)
    ensures Apply(s, a, fold).rows[l].head.status.Approved? ==> SameContent(s.rows[l], Apply(s, a, fold).rows[l])
    ensures EditsNow(s, a, l, fold) ==> s.requests[a.request.r].view.head.rev < s.rows[l].head.rev
  {
    match a
    case OnRow(x) => RowStepKeepsContent(s, x, l, fold);
    case OnRequest(x) =>
      WriteOnApproved(s, x, l, fold);
      if EditsNow(s, a, l, fold) {
        assert ViewAgrees(s.requests[x.r].view, s.rows[l]);
      }
    case OnGallery(x) => GalleryKeepsApproved(s, x, l, fold);
    hide Inv, ApplyRow, ApplyRequest, ApplyGallery, PrepareEdit;
  }

  ghost predicate ReservedIsApproved(rows: Rows, l: Id) {
    l in rows && rows[l].head.availability.Reserved? ==> rows[l].head.status.Approved?
  }

  lemma ReservedOnlyOnceApproved(s: State, a: Action, l: Id, fold: Fold)
    requires Inv(s, fold) && l in s.rows && !s.rows[l].head.status.Approved? && !s.rows[l].head.availability.Reserved?
    ensures ReservedIsApproved(Apply(s, a, fold).rows, l)
  {
    match a
    case OnRow(x) => hide ValidateTradeWishes;
    case OnRequest(x) =>
      if x.DoWrite? && Ready(s, x.r) && TextualWrite(s.requests[x.r], s.rows[s.requests[x.r].view.listing], fold).Some? {
        WriteKeepsAvailability(s.requests[x.r], s.rows[s.requests[x.r].view.listing], fold);
      }
      hide Inv, TextualWrite, Relocate, KeysOf;
    case OnGallery(x) => hide Inv, RolledBack, Relocate, KeysOf, RefuseGalleryChange;
  }

  /**
    "A reserved listing is approved" is lost in exactly one way: the write of an edit on a listing that is reserved.
    In particular no listing is ever reserved before it is approved.
  */
  lemma ReservedStaysApprovedExactly(s: State, a: Action, l: Id, fold: Fold)
    requires Inv(s, fold) && ReservedIsApproved(s.rows, l)
    ensures ReservedIsApproved(Apply(s, a, fold).rows, l) <==>
            !(l in s.rows && s.rows[l].head.availability.Reserved? && EditsNow(s, a, l, fold))
  {
    if l !in s.rows {
      AppearsAvailable(s, a, l, fold);
    } else if !s.rows[l].head.status.Approved? {
      ReservedOnlyOnceApproved(s, a, l, fold);
    } else if EditsNow(s, a, l, fold) {
      EditKeepsAvailability(s, a, l, fold);
    } else {
      OnlyAStaleEditUnpublishes(s, a, l, fold);
    }
    hide Inv, Apply, EditsNow;
  }

  lemma EditKeepsAvailability(s: State, a: Action, l: Id, fold: Fold)
    requires Inv(s, fold) && l in s.rows && s.rows[l].head.status.Approved? && EditsNow(s, a, l, fold)
    ensures ReservedIsApproved(Apply(s, a, fold).rows, l) <==> !s.rows[l].head.availability.Reserved?
  {
    OnlyAStaleEditUnpublishes(s, a, l, fold);
    WriteKeepsAvailability(s.requests[a.request.r], s.rows[l], fold);
    hide Inv, PrepareEdit;
  }

  lemma AppearsAvailable(s: State, a: Action, l: Id, fold: Fold)
    requires l !in s.rows
    ensures ReservedIsApproved(Apply(s, a, fold).rows, l)
  {
    hide ValidateTradeWishes, TextualWrite, Relocate, KeysOf, RefuseGalleryChange;
  }

  ghost predicate ApprovedAt(acts: seq<Action>, k: nat, l: Id, fold: Fold)
    requires k <= |acts|
  {
    l in Exec(acts[..k], fold).rows && Exec(acts[..k], fold).rows[l].head.status.Approved?
  }

  /** As long as a listing stays approved, neither its text nor its type nor its wishes nor its images change. */
  lemma {:induction false} ApprovedContentIsFrozen(acts: seq<Action>, i: nat, l: Id, fold: Fold)
    requires i <= |acts| && forall k :: i <= k <= |acts| ==> ApprovedAt(acts, k, l, fold)
    ensures ApprovedAt(acts, i, l, fold) && ApprovedAt(acts, |acts|, l, fold)
    ensures SameContent(Exec(acts[..i], fold).rows[l], Exec(acts[..|acts|], fold).rows[l])
  {
    assert ApprovedAt(acts, i, l, fold) && ApprovedAt(acts, |acts|, l, fold);
    assert acts[..|acts|] == acts;
    if i < |acts| {
      var last := |acts| - 1;
      var s := Exec(acts[..last], fold);
      assert Exec(acts, fold) == Apply(s, acts[last], fold);
      hide Inv, Exec, Apply, SameContent;
      forall k | i <= k <= last
        ensures ApprovedAt(acts[..last], k, l, fold)
      {
        assert acts[..last][..k] == acts[..k] && ApprovedAt(acts, k, l, fold);
      }
      assert acts[..last][..i] == acts[..i] && acts[..last][..last] == acts[..last];
      ApprovedContentIsFrozen(acts[..last], i, l, fold);
      RunKeepsInv(acts[..last], fold);
      OnlyAStaleEditUnpublishes(s, acts[last], l, fold);
      SameContentTransitive(Exec(acts[..i], fold).rows[l], s.rows[l], Exec(acts, fold).rows[l]);
    } else {
      assert i == |acts|;
    }
  }

  lemma SameContentTransitive(a: Row, b: Row, c: Row)
    requires SameContent(a, b) && SameContent(b, c)
    ensures SameContent(a, c)
  {
  }

  // ----- What a decision decides on

  ghost predicate Decides(q: Request) {
    q.task.Approving? || q.task.Rejecting?
  }

  /**
    A decision that goes through falls on the revision the moderator named: the row is that very revision, its
    content is what every reader of that revision saw, however torn the reading, and the decision leaves it alone.
  */
  lemma DecisionBindsToReviewedRevision(acts: seq<Action>, r: nat, fold: Fold)
    requires var s := Exec(acts, fold); Ready(s, r) && Decides(s.requests[r])
    requires var s := Exec(acts, fold); TextualWrite(s.requests[r], s.rows[s.requests[r].view.listing], fold).Some?
    ensures var s := Exec(acts, fold);
            var q := s.requests[r];
            var l := q.view.listing;
            var after := Apply(s, OnRequest(DoWrite(r)), fold).rows[l];
            && s.rows[l].head.status.Pending? && s.rows[l].head.rev == q.task.reviewed
            && SameContent(s.rows[l], after)
            && (if q.task.Approving? then after.head.status.Approved? else after.head.status.Rejected? && after.head.reason == Some(q.task.reason))
            && forall x :: x in s.requests && s.requests[x].view.listing == l && Loaded(s.requests[x].view)
                           && s.requests[x].view.head.rev == q.task.reviewed ==>
                 var v := s.requests[x].view; Row(v.head, v.images.value, v.wishes.value) == s.rows[l]
  {
    RunKeepsInv(acts, fold);
    var s := Exec(acts, fold);
    var q := s.requests[r];
    var row := s.rows[q.view.listing];
    hide Exec;
    assert ViewAgrees(q.view, row) && RowModerated(row, fold);
    forall x | x in s.requests && s.requests[x].view.listing == q.view.listing && Loaded(s.requests[x].view) && s.requests[x].view.head.rev == row.head.rev
      ensures var v := s.requests[x].view; Row(v.head, v.images.value, v.wishes.value) == row
    {
      assert ViewAgrees(s.requests[x].view, row);
    }
    hide Inv, ViewAgrees, RowModerated, ValidatePublicationAssets;
    if q.task.Approving? {
      ApprovedRowFacts(q, row, fold);
    } else {
      RejectedRowFacts(q, row, fold);
    }
  }

  /**
    When a replacement commits, its claim on owner and revision alone implies all that was checked before the
    uploads: still not approved, still available, the images still those it read. The row then shows the uploads.
  */
  lemma ReplacementClaimSuffices(acts: seq<Action>, r: nat, fold: Fold)
    requires var s := Exec(acts, fold); IsReplacing(s, r)
    requires var s := Exec(acts, fold);
             var l := s.requests[r].view.listing;
             Apply(s, OnGallery(DoReplace(r, false)), fold).rows != s.rows
    ensures var s := Exec(acts, fold);
            var q := s.requests[r];
            var row := s.rows[q.view.listing];
            var after := Apply(s, OnGallery(DoReplace(r, false)), fold).rows[q.view.listing];
            && row.head.owner == q.task.actor && !row.head.status.Approved? && row.head.availability.Available?
            && row.images == q.view.images.value
            && after.images == q.task.uploaded && 5 <= |after.images| <= 8
            && after.head.status.Pending? && after.wishes == row.wishes && after.head.rev > row.head.rev
            && (forall k :: k in after.images ==> k !in row.images)
  {
    RunKeepsInv(acts, fold);
    var s := Exec(acts, fold);
    var q := s.requests[r];
    var l := q.view.listing;
    hide Exec;
    assert ViewAgrees(q.view, s.rows[l]) && UploadPlaced(r, q.task, s.place, s.objects);
    assert AllAt(s.rows[l].images, s.place, InRow(l));
    hide Inv, RolledBack, Relocate, KeysOf;
  }

  /** The extra checks in the claim of a deletion are redundant: owner and revision alone decide in the same cases. */
  lemma DeletionClaimIsNoStronger(acts: seq<Action>, r: nat, fold: Fold)
    requires var s := Exec(acts, fold); r in s.requests && s.requests[r].task.Deleting? && MayChangeGallery(s, r, s.requests[r].task.actor)
    ensures var s := Exec(acts, fold);
            var q := s.requests[r];
            var row := s.rows[q.view.listing];
            ClaimDeletion(row, q.task.actor, q.view.head.rev) == ClaimReplacement(row, q.task.actor, q.view.head.rev, [])
  {
    RunKeepsInv(acts, fold);
    var s := Exec(acts, fold);
    var q := s.requests[r];
    hide Exec;
    assert ViewAgrees(q.view, s.rows[q.view.listing]);
    hide Inv, WithImages;
  }

  // ----- What the commit protocol sees of all this

  function Seen(row: Row): Snapshot {
    Snapshot(row.head.owner, row.head.operation, row.head.status, row.head.availability)
  }

  function SeenTable(rows: Rows): Table {
    map l | l in rows :: Seen(rows[l])
  }

  /** One listing got another type or status, or nothing visible happened. */
  ghost predicate OnlyModerated(before: Table, after: Table) {
    || after == before
    || exists l, operation, status :: l in before && after == before[l := before[l].(operation := operation, status := status)]
  }

  lemma RowChangeSeen(rows: Rows, l: Id, after: Row)
    requires l in rows
    ensures SeenTable(rows[l := after]) == SeenTable(rows)[l := Seen(after)]
  {
  }

  lemma ModerationSeen(rows: Rows, l: Id, after: Row)
    requires l in rows && after.head.owner == rows[l].head.owner && after.head.availability == rows[l].head.availability
    ensures OnlyModerated(SeenTable(rows), SeenTable(rows[l := after]))
  {
    RowChangeSeen(rows, l, after);
    var before := SeenTable(rows);
    assert SeenTable(rows[l := after]) == before[l := before[l].(operation := after.head.operation, status := after.head.status)];
  }

  lemma WriteKeepsAvailability(q: Request, row: Row, fold: Fold)
    requires Loaded(q.view) && TextualWrite(q, row, fold).Some?
    ensures TextualWrite(q, row, fold).value.head.owner == row.head.owner
    ensures TextualWrite(q, row, fold).value.head.availability == row.head.availability
  {
    hide ValidateTradeWishes;
  }

  lemma RequestSeen(s: State, a: RequestAction, fold: Fold)
    ensures OnlyModerated(SeenTable(s.rows), SeenTable(ApplyRequest(s, a, fold).rows))
  {
    hide OnlyModerated;
    assert OnlyModerated(SeenTable(s.rows), SeenTable(s.rows)) by {
      NothingSeen(SeenTable(s.rows));
    }
    if a.DoWrite? && Ready(s, a.r) {
      var q := s.requests[a.r];
      var l := q.view.listing;
      var w := TextualWrite(q, s.rows[l], fold);
      if w.Some? {
        WriteKeepsAvailability(q, s.rows[l], fold);
        ModerationSeen(s.rows, l, w.value);
      }
    }
    hide TextualWrite, SeenTable, Relocate, KeysOf;
  }

  lemma NothingSeen(t: Table)
    ensures OnlyModerated(t, t)
  {
  }

  lemma GallerySeen(s: State, a: GalleryAction)
    ensures OnlyModerated(SeenTable(s.rows), SeenTable(ApplyGallery(s, a).rows))
  {
    hide OnlyModerated;
    assert OnlyModerated(SeenTable(s.rows), SeenTable(s.rows)) by {
      NothingSeen(SeenTable(s.rows));
    }
    if (a.DoReplace? || a.DoDelete?) && a.r in s.requests && s.requests[a.r].view.listing in s.rows {
      var l := s.requests[a.r].view.listing;
      forall images: seq<Key>
        ensures OnlyModerated(SeenTable(s.rows), SeenTable(s.rows[l := WithImages(s.rows[l], images)]))
      {
        ModerationSeen(s.rows, l, WithImages(s.rows[l], images));
      }
    }
    hide SeenTable, Relocate, KeysOf, RefuseGalleryChange, WithImages;
  }

  /**
    The two halves of Catalog fit: moderation, edits and galleries change at most the type and the status of a
    listing as the commit protocol sees it, never its owner or its availability; and the protocol's own writes look
    here exactly as they do there.
  */
  lemma CommitProtocolSeesItsOwnWrites(s: State, a: Action, fold: Fold)
    ensures var before, after := SeenTable(s.rows), SeenTable(Apply(s, a, fold).rows);
            match a
            case OnRow(DoCreate(l, owner, _, _, operation, _)) =>
              after == before || (l !in before && after == before[l := Snapshot(owner, operation, ListingStatus.Pending, Available)])
            case OnRow(DoReserve(l)) => after == ReserveRow(before, l)
            case OnRow(DoSettle(l, completed)) =>
              after == if l in before then SetAvailability(before, l, if completed then Availability.Completed else Available) else before
            case _ => OnlyModerated(before, after)
  {
    match a
    case OnRow(x) =>
      hide ValidateTradeWishes;
      if x.l in s.rows {
        RowChangeSeen(s.rows, x.l, WithAvailability(s.rows[x.l], Reserved));
        RowChangeSeen(s.rows, x.l, WithAvailability(s.rows[x.l], Availability.Completed));
        RowChangeSeen(s.rows, x.l, WithAvailability(s.rows[x.l], Available));
      }
    case OnRequest(x) =>
      RequestSeen(s, x, fold);
      hide ApplyRequest, OnlyModerated;
    case OnGallery(x) =>
      GallerySeen(s, x);
      hide ApplyGallery, OnlyModerated;
  }
}
