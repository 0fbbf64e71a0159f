/** Every step of moderation and gallery replacement keeps the invariant. */
module ModerationSteps {
  import opened Wrappers
  import opened Catalog
  import opened PublicationRules
  import opened Listings
  import opened Moderation

  // ----- Writing a row without touching its images

  predicate Advances(row: Row, after: Row) {
    after.head.owner == row.head.owner && after.head.rev > row.head.rev
  }

  /** A view taken before a write is of an older revision after it: whatever was torn can no longer pass for current. */
  lemma WriteAgesViews(requests: Requests, rows: Rows, l: Id, after: Row)
    requires ViewsAgree(requests, rows) && l in rows && Advances(rows[l], after)
    ensures ViewsAgree(requests, rows[l := after])
  {
  }

  lemma WriteKeepsPlaces(objects: set<Key>, place: Places, rows: Rows, requests: Requests, doomed: set<Key>, l: Id, after: Row)
    requires StoragePlaced(objects, place, rows, requests, doomed)
    requires l in rows && after.images == rows[l].images
    ensures StoragePlaced(objects, place, rows[l := after], requests, doomed)
  {
  }

  lemma RowWritten(s: State, l: Id, after: Row, fold: Fold)
    requires Inv(s, fold) && l in s.rows && Advances(s.rows[l], after) && after.images == s.rows[l].images && RowModerated(after, fold)
    ensures Inv(s.(rows := s.rows[l := after]), fold)
  {
    WriteAgesViews(s.requests, s.rows, l, after);
    WriteKeepsPlaces(s.objects, s.place, s.rows, s.requests, s.doomed, l, after);
    hide ViewsAgree, StoragePlaced, UploadsPlaced, DoomedDiscarded, Numbered, RowModerated, Distinct, AllAt, AllStored, Advances;
  }

  lemma CreatedKeepsInv(s: State, l: Id, owner: Id, title: Id, description: Id, operation: OperationType, wishes: seq<string>, fold: Fold)
    requires Inv(s, fold)
    ensures Inv(Created(s, l, owner, title, description, operation, wishes, fold), fold)
  {
    if l !in s.rows && ValidateTradeWishes(operation, wishes, fold).Ok? {
      ValidatedIsClean(operation, wishes, fold);
      hide ValidateTradeWishes, Clean, UploadsPlaced, DoomedDiscarded, Numbered, IsComplete;
    }
  }

  lemma ValidatedIsClean(operation: OperationType, wishes: seq<string>, fold: Fold)
    requires ValidateTradeWishes(operation, wishes, fold).Ok?
    ensures Clean(ValidateTradeWishes(operation, wishes, fold).value, fold)
  {
    StoredWishesRevalidate(operation, wishes, fold);
  }

  lemma AvailabilityKeepsInv(s: State, l: Id, a: Availability, fold: Fold)
    requires Inv(s, fold) && l in s.rows
    ensures Inv(s.(rows := s.rows[l := WithAvailability(s.rows[l], a)]), fold)
  {
    assert RowModerated(s.rows[l], fold);
    RowWritten(s, l, WithAvailability(s.rows[l], a), fold);
  }

  // ----- Reading

  lemma StartedKeepsInv(s: State, l: Id, t: Task, fold: Fold)
    requires Inv(s, fold)
    ensures Inv(Started(s, l, t), fold)
  {
    hide RowsPlaced, RowsStored, RowsModerated, DoomedDiscarded;
  }

  /** Reading more of a listing changes no task. */
  lemma ViewReadKeepsInv(s: State, r: nat, v: View, fold: Fold)
    requires Inv(s, fold) && r in s.requests && v.listing == s.requests[r].view.listing && ViewAgrees(v, s.rows[v.listing])
    ensures Inv(s.(requests := s.requests[r := s.requests[r].(view := v)]), fold)
  {
    hide RowsPlaced, RowsStored, RowsModerated, DoomedDiscarded, ViewAgrees, UploadPlaced;
  }

  lemma ImagesReadKeepsInv(s: State, r: nat, fold: Fold)
    requires Inv(s, fold)
    ensures Inv(ImagesRead(s, r), fold)
  {
    if r in s.requests && s.requests[r].view.images.None? && s.requests[r].view.listing in s.rows {
      var v := s.requests[r].view;
      assert ViewAgrees(v, s.rows[v.listing]);
      ViewReadKeepsInv(s, r, v.(images := Some(s.rows[v.listing].images)), fold);
      hide Inv;
    }
  }

  lemma WishesReadKeepsInv(s: State, r: nat, fold: Fold)
    requires Inv(s, fold)
    ensures Inv(WishesRead(s, r), fold)
  {
    if r in s.requests && s.requests[r].view.wishes.None? && s.requests[r].view.listing in s.rows {
      var v := s.requests[r].view;
      assert ViewAgrees(v, s.rows[v.listing]);
      ViewReadKeepsInv(s, r, v.(wishes := Some(s.rows[v.listing].wishes)), fold);
      hide Inv;
    }
  }

  // ----- Edits and decisions

  lemma EditedRowFacts(q: Request, row: Row, fold: Fold)
    requires q.task.Editing? && Loaded(q.view) && RowModerated(row, fold) && EditedRow(q, row, fold).Some?
    ensures var after := EditedRow(q, row, fold).value;
            Advances(row, after) && after.images == row.images && RowModerated(after, fold) && after.head.status.Pending?
  {
    var operation := OrElse(q.task.input.operation, q.view.head.operation);
    var wishes := OrElse(q.task.input.wishes, if operation.Donation? then [] else q.view.wishes.value);
    if ValidateTradeWishes(operation, wishes, fold).Ok? {
      ValidatedIsClean(operation, wishes, fold);
    }
    hide ValidateTradeWishes, Clean, IsComplete;
  }

  /** Normalised wishes that validate fit as they are stored. */
  lemma CleanWishesFit(operation: OperationType, wishes: seq<string>, fold: Fold)
    requires Clean(wishes, fold) && ValidateTradeWishes(operation, wishes, fold).Ok?
    ensures WishesFit(operation, wishes, fold)
  {
    NormalisationIsAFixpoint(wishes, fold);
    hide Normalized;
  }

  /** The revision claim makes up for the torn read: what was validated is what gets approved. */
  lemma ApprovedRowFacts(q: Request, row: Row, fold: Fold)
    requires q.task.Approving? && Loaded(q.view) && RowModerated(row, fold) && ViewAgrees(q.view, row) && ApprovedRow(q, row, fold).Some?
    ensures var after := ApprovedRow(q, row, fold).value;
            Advances(row, after) && SameContent(row, after) && RowModerated(after, fold) && after.head.status.Approved?
  {
    CleanWishesFit(row.head.operation, row.wishes, fold);
    hide ValidateTradeWishes, Clean, WishesFit;
  }

  lemma RejectedRowFacts(q: Request, row: Row, fold: Fold)
    requires q.task.Rejecting? && RowModerated(row, fold) && RejectedRow(q, row).Some?
    ensures var after := RejectedRow(q, row).value;
            Advances(row, after) && SameContent(row, after) && RowModerated(after, fold) && after.head.status.Rejected?
  {
    hide Clean, IsComplete;
  }

  lemma TextualWriteFacts(q: Request, row: Row, fold: Fold)
    requires Loaded(q.view) && RowModerated(row, fold) && ViewAgrees(q.view, row) && TextualWrite(q, row, fold).Some?
    ensures var after := TextualWrite(q, row, fold).value; Advances(row, after) && after.images == row.images && RowModerated(after, fold)
  {
    hide RowModerated, ViewAgrees, EditedRow, ApprovedRow, RejectedRow;
    match q.task
    case Editing(_, _) => EditedRowFacts(q, row, fold);
    case Approving(_) => ApprovedRowFacts(q, row, fold);
    case Rejecting(_, _) => RejectedRowFacts(q, row, fold);
    case _ =>
  }

  lemma RequestEnds(s: State, r: nat, fold: Fold)
    requires Inv(s, fold) && r in s.requests && !s.requests[r].task.Replacing?
    ensures Inv(s.(requests := s.requests - {r}), fold)
  {
    hide RowsPlaced, RowsStored, RowsModerated, DoomedDiscarded, ViewAgrees, UploadPlaced;
  }

  lemma WrittenKeepsInv(s: State, r: nat, fold: Fold)
    requires Inv(s, fold)
    ensures Inv(Written(s, r, fold), fold)
  {
    if Ready(s, r) && (s.requests[r].task.Editing? || s.requests[r].task.Approving? || s.requests[r].task.Rejecting?) {
      var q := s.requests[r];
      var l := q.view.listing;
      assert ViewAgrees(q.view, s.rows[l]) && RowModerated(s.rows[l], fold);
      hide Inv, ViewAgrees, RowModerated, TextualWrite;
      RequestEnds(s, r, fold);
      var w := TextualWrite(q, s.rows[l], fold);
      if w.Some? {
        TextualWriteFacts(q, s.rows[l], fold);
        RowWritten(s.(requests := s.requests - {r}), l, w.value, fold);
      }
    }
  }

  // ----- Moving keys

  /** The keys are new, or the request's own uploads. */
  ghost predicate OwnKeys(keys: set<Key>, r: nat, place: Places) {
    forall k :: k in keys && k in place ==> place[k] == Uploading(r)
  }

  lemma RelocateKeepsRows(rows: Rows, place: Places, keys: set<Key>, to: Place, r: nat)
    requires RowsPlaced(rows, place) && OwnKeys(keys, r, place)
    ensures RowsPlaced(rows, Relocate(place, keys, to))
  {
    hide Distinct;
    forall l | l in rows
      ensures AllAt(rows[l].images, Relocate(place, keys, to), InRow(l))
    {
      assert AllAt(rows[l].images, place, InRow(l));
    }
  }

  lemma RelocateKeepsUploads(requests: Requests, place: Places, objects: set<Key>, keys: set<Key>, to: Place, r: nat)
    requires UploadsPlaced(requests, place, objects) && OwnKeys(keys, r, place)
    ensures UploadsPlaced(requests - {r}, Relocate(place, keys, to), objects)
  {
    hide Distinct, AllStored;
    forall x | x in requests - {r} && requests[x].task.Replacing?
      ensures UploadPlaced(x, requests[x].task, Relocate(place, keys, to), objects)
    {
      assert UploadPlaced(x, requests[x].task, place, objects);
    }
  }

  lemma UploadsAreOwn(s: State, r: nat, fold: Fold)
    requires Inv(s, fold) && r in s.requests && s.requests[r].task.Replacing?
    ensures OwnKeys(KeysOf(s.requests[r].task.uploaded), r, s.place)
    ensures forall k :: k in s.place && s.place[k] == Uploading(r) ==> k in KeysOf(s.requests[r].task.uploaded)
  {
    assert UploadPlaced(r, s.requests[r].task, s.place, s.objects);
    assert StoragePlaced(s.objects, s.place, s.rows, s.requests, s.doomed);
    hide Inv, Distinct, AllStored;
    forall k | k in s.place && s.place[k] == Uploading(r)
      ensures k in KeysOf(s.requests[r].task.uploaded)
    {
      assert PlaceTrue(k, s.place[k], s.rows, s.requests, s.doomed);
      var i :| 0 <= i < |s.requests[r].task.uploaded| && s.requests[r].task.uploaded[i] == k;
    }
  }

  /** Everything a request generated, its uploads and perhaps one more new key, leaves with it. */
  lemma KeysLeave(s: State, r: nat, keys: set<Key>, to: Place, doomed: set<Key>, fold: Fold)
    requires Inv(s, fold) && r in s.requests && s.requests[r].task.Replacing?
    requires KeysOf(s.requests[r].task.uploaded) <= keys && OwnKeys(keys, r, s.place) && forall k :: k in keys ==> k < s.next
    requires (to.Orphaned? && doomed == s.doomed) || (to.Discarded? && doomed == s.doomed + keys)
    ensures Inv(s.(requests := s.requests - {r}, doomed := doomed, place := Relocate(s.place, keys, to)), fold)
  {
    UploadsAreOwn(s, r, fold);
    RelocateKeepsRows(s.rows, s.place, keys, to, r);
    RelocateKeepsUploads(s.requests, s.place, s.objects, keys, to, r);
    hide RowsPlaced, RowsStored, RowsModerated, UploadsPlaced, UploadPlaced, ViewAgrees, KeysOf;
  }

  lemma MoreRoom(s: State, next: nat, fold: Fold)
    requires Inv(s, fold) && next >= s.next
    ensures Inv(s.(next := next), fold)
  {
    hide RowsPlaced, RowsStored, RowsModerated, UploadsPlaced, ViewsAgree, DoomedDiscarded, StoragePlaced;
  }

  /** An object kept by a put that failed: its key is accounted for, so nothing else needs it or misses it. */
  lemma ObjectAppears(s: State, key: Key, fold: Fold)
    requires Inv(s, fold) && key in s.place
    ensures Inv(s.(objects := s.objects + {key}), fold)
  {
    hide RowsPlaced, RowsModerated, ViewsAgree, DoomedDiscarded, Numbered, Distinct, AllAt;
  }

  lemma RollbackKeepsInv(s: State, r: nat, fold: Fold)
    requires Inv(s, fold) && r in s.requests && s.requests[r].task.Replacing?
    ensures Inv(RolledBack(s, r, KeysOf(s.requests[r].task.uploaded)), fold)
  {
    UploadsAreOwn(s, r, fold);
    assert UploadPlaced(r, s.requests[r].task, s.place, s.objects);
    KeysLeave(s, r, KeysOf(s.requests[r].task.uploaded), Discarded, s.doomed + KeysOf(s.requests[r].task.uploaded), fold);
    hide Inv;
  }

  lemma DroppedKeepsInv(s: State, r: nat, fold: Fold)
    requires Inv(s, fold)
    ensures Inv(Dropped(s, r), fold)
  {
    if r in s.requests {
      if s.requests[r].task.Replacing? {
        UploadsAreOwn(s, r, fold);
        assert UploadPlaced(r, s.requests[r].task, s.place, s.objects);
        KeysLeave(s, r, KeysOf(s.requests[r].task.uploaded), Orphaned, s.doomed, fold);
        hide Inv;
      } else {
        RequestEnds(s, r, fold);
        hide Inv;
      }
    }
  }

  // ----- Uploads

  lemma FailedUploadKeepsInv(s: State, r: nat, kept: bool, fold: Fold)
    requires Inv(s, fold) && IsReplacing(s, r) && |s.requests[r].task.uploaded| < s.requests[r].task.total
    ensures Inv(Uploaded(s, r, Failed(kept)), fold)
  {
    var q := s.requests[r];
    var key := s.next;
    var keys := KeysOf(q.task.uploaded + [key]);
    assert (q.task.uploaded + [key])[|q.task.uploaded|] == key;
    assert forall i :: 0 <= i < |q.task.uploaded| ==> (q.task.uploaded + [key])[i] == q.task.uploaded[i];
    assert keys == KeysOf(q.task.uploaded) + {key};
    UploadsAreOwn(s, r, fold);
    assert key !in s.place && UploadPlaced(r, q.task, s.place, s.objects);
    MoreRoom(s, s.next + 1, fold);
    var s1 := s.(next := s.next + 1);
    KeysLeave(s1, r, keys, Discarded, s.doomed + keys, fold);
    var s2 := s1.(requests := s.requests - {r}, doomed := s.doomed + keys, place := Relocate(s.place, keys, Discarded));
    hide Inv, KeysOf;
    if kept {
      ObjectAppears(s2, key, fold);
    }
  }

  lemma StoredUploadKeepsInv(s: State, r: nat, fold: Fold)
    requires Inv(s, fold) && IsReplacing(s, r) && |s.requests[r].task.uploaded| < s.requests[r].task.total
    ensures Inv(Uploaded(s, r, Stored), fold)
  {
    var q := s.requests[r];
    var key := s.next;
    var t := Uploaded(s, r, Stored);
    assert key !in s.place && UploadPlaced(r, q.task, s.place, s.objects);
    FreshKeyUploads(s.requests, s.place, s.objects, r, key, t);
    FreshKeyRows(s.rows, s.place, s.objects, r, key);
    hide RowsPlaced, RowsStored, RowsModerated, UploadsPlaced, UploadPlaced, ViewAgrees;
  }

  lemma FreshKeyUploads(requests: Requests, place: Places, objects: set<Key>, r: nat, key: Key, t: State)
    requires UploadsPlaced(requests, place, objects) && r in requests && requests[r].task.Replacing? && key !in place
    requires |requests[r].task.uploaded| < requests[r].task.total
    requires t.requests == requests[r := requests[r].(task := requests[r].task.(uploaded := requests[r].task.uploaded + [key]))]
    requires t.place == place[key := Uploading(r)] && t.objects == objects + {key}
    ensures UploadsPlaced(t.requests, t.place, t.objects)
  {
    forall x | x in t.requests && t.requests[x].task.Replacing?
      ensures UploadPlaced(x, t.requests[x].task, t.place, t.objects)
    {
      assert UploadPlaced(x, requests[x].task, place, objects);
    }
  }

  lemma FreshKeyRows(rows: Rows, place: Places, objects: set<Key>, r: nat, key: Key)
    requires RowsPlaced(rows, place) && RowsStored(rows, objects) && key !in place
    ensures RowsPlaced(rows, place[key := Uploading(r)]) && RowsStored(rows, objects + {key})
  {
    hide Distinct;
    forall l | l in rows
      ensures AllAt(rows[l].images, place[key := Uploading(r)], InRow(l)) && AllStored(rows[l].images, objects + {key})
    {
      assert AllAt(rows[l].images, place, InRow(l)) && AllStored(rows[l].images, objects);
    }
  }

  lemma UploadedKeepsInv(s: State, r: nat, put: Put, fold: Fold)
    requires Inv(s, fold)
    ensures Inv(Uploaded(s, r, put), fold)
  {
    if IsReplacing(s, r) && |s.requests[r].task.uploaded| < s.requests[r].task.total {
      match put
      case Stored => StoredUploadKeepsInv(s, r, fold);
      case Failed(kept) => FailedUploadKeepsInv(s, r, kept, fold);
    }
    hide Inv;
  }

  // ----- Commits

  /** The revision claim re-establishes everything that was checked before the uploads. */
  lemma ClaimHoldsWhatWasChecked(s: State, r: nat, fold: Fold)
    requires Inv(s, fold) && r in s.requests
    requires var v := s.requests[r].view; v.images.Some? && v.listing in s.rows && v.head.rev == s.rows[v.listing].head.rev
    ensures var v := s.requests[r].view; s.rows[v.listing].head == v.head && s.rows[v.listing].images == v.images.value
  {
    assert ViewAgrees(s.requests[r].view, s.rows[s.requests[r].view.listing]);
    hide Inv;
  }

  lemma WithImagesModerated(row: Row, images: seq<Key>, fold: Fold)
    requires RowModerated(row, fold)
    ensures RowModerated(WithImages(row, images), fold) && Advances(row, WithImages(row, images))
  {
    hide Clean, IsComplete;
  }

  /** The places of one listing's images and of one request's uploads, after the one replaced the other. */
  function Swapped(place: Places, gone: seq<Key>, came: seq<Key>, l: Id): Places {
    Relocate(Relocate(place, KeysOf(gone), Discarded), KeysOf(came), InRow(l))
  }

  lemma SwappedAt(place: Places, gone: seq<Key>, came: seq<Key>, l: Id, r: nat, k: Key)
    requires AllAt(gone, place, InRow(l)) && AllAt(came, place, Uploading(r))
    ensures k in Swapped(place, gone, came, l) <==> k in place
    ensures k in place ==>
      Swapped(place, gone, came, l)[k] == if k in came then InRow(l) else if k in gone then Discarded else place[k]
    ensures k in came ==> k in place && place[k] == Uploading(r)
    ensures k in gone ==> k in place && place[k] == InRow(l)
  {
    if k in came {
      var i :| 0 <= i < |came| && came[i] == k;
    }
    if k in gone {
      var i :| 0 <= i < |gone| && gone[i] == k;
    }
  }

  lemma SwapKeepsRows(s: State, l: Id, came: seq<Key>, r: nat, after: Row)
    requires RowsPlaced(s.rows, s.place) && RowsStored(s.rows, s.objects) && l in s.rows && after.images == came
    requires Distinct(came) && AllAt(came, s.place, Uploading(r)) && AllStored(came, s.objects)
    ensures RowsPlaced(s.rows[l := after], Swapped(s.place, s.rows[l].images, came, l))
    ensures RowsStored(s.rows[l := after], s.objects)
  {
    hide Distinct, Swapped;
    var gone := s.rows[l].images;
    forall m | m in s.rows && m != l
      ensures AllAt(s.rows[m].images, Swapped(s.place, gone, came, l), InRow(m))
    {
      assert AllAt(s.rows[m].images, s.place, InRow(m));
      forall i | 0 <= i < |s.rows[m].images|
        ensures var k := s.rows[m].images[i]; k in Swapped(s.place, gone, came, l) && Swapped(s.place, gone, came, l)[k] == InRow(m)
      {
        SwappedAt(s.place, gone, came, l, r, s.rows[m].images[i]);
      }
    }
    forall i | 0 <= i < |came|
      ensures came[i] in Swapped(s.place, gone, came, l) && Swapped(s.place, gone, came, l)[came[i]] == InRow(l)
    {
      SwappedAt(s.place, gone, came, l, r, came[i]);
    }
  }

  lemma SwapKeepsUploads(s: State, l: Id, gone: seq<Key>, came: seq<Key>, r: nat)
    requires UploadsPlaced(s.requests, s.place, s.objects)
    requires AllAt(gone, s.place, InRow(l)) && AllAt(came, s.place, Uploading(r))
    ensures UploadsPlaced(s.requests - {r}, Swapped(s.place, gone, came, l), s.objects)
  {
    hide Distinct, Swapped, AllStored;
    forall x | x in s.requests - {r} && s.requests[x].task.Replacing?
      ensures UploadPlaced(x, s.requests[x].task, Swapped(s.place, gone, came, l), s.objects)
    {
      assert UploadPlaced(x, s.requests[x].task, s.place, s.objects);
      var keys := s.requests[x].task.uploaded;
      forall i | 0 <= i < |keys|
        ensures keys[i] in Swapped(s.place, gone, came, l) && Swapped(s.place, gone, came, l)[keys[i]] == Uploading(x)
      {
        SwappedAt(s.place, gone, came, l, r, keys[i]);
      }
    }
  }

  lemma SwapKeepsStorage(s: State, l: Id, came: seq<Key>, r: nat, after: Row)
    requires StoragePlaced(s.objects, s.place, s.rows, s.requests, s.doomed) && DoomedDiscarded(s.doomed, s.place)
    requires l in s.rows && after.images == came && r in s.requests && s.requests[r].task.Replacing? && s.requests[r].task.uploaded == came
    requires AllAt(s.rows[l].images, s.place, InRow(l)) && AllAt(came, s.place, Uploading(r))
    ensures var doomed := s.doomed + KeysOf(s.rows[l].images);
            var place := Swapped(s.place, s.rows[l].images, came, l);
            StoragePlaced(s.objects, place, s.rows[l := after], s.requests - {r}, doomed) && DoomedDiscarded(doomed, place)
  {
    hide Swapped, AllAt;
    var gone := s.rows[l].images;
    var doomed := s.doomed + KeysOf(gone);
    var place := Swapped(s.place, gone, came, l);
    forall k
      ensures k in place <==> k in s.place
      ensures k in place ==> PlaceTrue(k, place[k], s.rows[l := after], s.requests - {r}, doomed)
      ensures k in doomed ==> k in place && place[k].Discarded?
    {
      SwappedAt(s.place, gone, came, l, r, k);
      if k in KeysOf(gone) {
        assert k in gone;
      }
    }
  }

  lemma SwapNumbered(s: State, gone: seq<Key>, came: seq<Key>, l: Id, r: nat)
    requires Numbered(s.requests, s.place, s.next) && AllAt(gone, s.place, InRow(l)) && AllAt(came, s.place, Uploading(r))
    ensures Numbered(s.requests - {r}, Swapped(s.place, gone, came, l), s.next)
  {
    hide Swapped, AllAt;
    forall k
      ensures k in Swapped(s.place, gone, came, l) <==> k in s.place
    {
      SwappedAt(s.place, gone, came, l, r, k);
    }
  }

  lemma CommitKeepsInv(s: State, r: nat, fold: Fold)
    requires Inv(s, fold) && IsReplacing(s, r)
    requires var v := s.requests[r].view; v.head.rev == s.rows[v.listing].head.rev
    ensures var q := s.requests[r];
            var l := q.view.listing;
            Inv(s.(rows := s.rows[l := WithImages(s.rows[l], q.task.uploaded)], requests := s.requests - {r},
                   doomed := s.doomed + KeysOf(q.view.images.value), place := Swapped(s.place, q.view.images.value, q.task.uploaded, l)), fold)
  {
    var q := s.requests[r];
    var l := q.view.listing;
    var after := WithImages(s.rows[l], q.task.uploaded);
    assert UploadPlaced(r, q.task, s.place, s.objects) && RowModerated(s.rows[l], fold);
    ClaimHoldsWhatWasChecked(s, r, fold);
    WithImagesModerated(s.rows[l], q.task.uploaded, fold);
    hide ViewAgrees, RowModerated, UploadPlaced, Distinct, AllAt, AllStored, Swapped, KeysOf;
    assert AllAt(s.rows[l].images, s.place, InRow(l));
    UploadedFacts(r, q.task, s.place, s.objects);
    SwapKeepsRows(s, l, q.task.uploaded, r, after);
    SwapKeepsUploads(s, l, s.rows[l].images, q.task.uploaded, r);
    SwapKeepsStorage(s, l, q.task.uploaded, r, after);
    SwapNumbered(s, s.rows[l].images, q.task.uploaded, l, r);
    WriteAgesViews(s.requests, s.rows, l, after);
    assert RowsModerated(s.rows[l := after], fold);
    assert ViewsAgree(s.requests - {r}, s.rows[l := after]);
    hide RowsPlaced, RowsStored, RowsModerated, ViewsAgree, UploadsPlaced, DoomedDiscarded, StoragePlaced, Numbered;
  }

  lemma UploadedFacts(r: nat, t: Task, place: Places, objects: set<Key>)
    requires t.Replacing? && UploadPlaced(r, t, place, objects)
    ensures Distinct(t.uploaded) && AllAt(t.uploaded, place, Uploading(r)) && AllStored(t.uploaded, objects)
  {
  }

  lemma ReplacedKeepsInv(s: State, r: nat, databaseFails: bool, fold: Fold)
    requires Inv(s, fold)
    ensures Inv(Replaced(s, r, databaseFails), fold)
  {
    if IsReplacing(s, r) && |s.requests[r].task.uploaded| == s.requests[r].task.total {
      var q := s.requests[r];
      var w := ClaimReplacement(s.rows[q.view.listing], q.task.actor, q.view.head.rev, q.task.uploaded);
      if databaseFails || w.None? {
        RollbackKeepsInv(s, r, fold);
      } else {
        CommitKeepsInv(s, r, fold);
      }
      hide Inv, KeysOf, RolledBack, WithImages;
    }
  }

  lemma DeletedKeepsInv(s: State, r: nat, fold: Fold)
    requires Inv(s, fold)
    ensures Inv(Deleted(s, r), fold)
  {
    if r in s.requests && s.requests[r].task.Deleting? && MayChangeGallery(s, r, s.requests[r].task.actor) {
      var q := s.requests[r];
      var l := q.view.listing;
      var w := ClaimDeletion(s.rows[l], q.task.actor, q.view.head.rev);
      if q.view.images.value == [] || w.None? {
        RequestEnds(s, r, fold);
      } else {
        ClearKeepsInv(s, r, fold);
      }
      hide Inv, KeysOf, WithImages, Relocate;
    }
  }

  /** Emptying a gallery is swapping it for nothing. */
  lemma ClearKeepsInv(s: State, r: nat, fold: Fold)
    requires Inv(s, fold) && r in s.requests && !s.requests[r].task.Replacing? && s.requests[r].view.images.Some? && s.requests[r].view.listing in s.rows
    requires var v := s.requests[r].view; v.head.rev == s.rows[v.listing].head.rev
    ensures var v := s.requests[r].view;
            Inv(s.(rows := s.rows[v.listing := WithImages(s.rows[v.listing], [])], requests := s.requests - {r},
                   doomed := s.doomed + KeysOf(v.images.value), place := Relocate(s.place, KeysOf(v.images.value), Discarded)), fold)
  {
    var v := s.requests[r].view;
    var l := v.listing;
    var after := WithImages(s.rows[l], []);
    ClaimHoldsWhatWasChecked(s, r, fold);
    assert RowModerated(s.rows[l], fold);
    WithImagesModerated(s.rows[l], [], fold);
    hide ViewAgrees, RowModerated, UploadPlaced, Distinct, KeysOf, Relocate;
    var place := Relocate(s.place, KeysOf(v.images.value), Discarded);
    assert AllAt(s.rows[l].images, s.place, InRow(l));
    ClearedPlaces(s, l, r, after);
    WriteAgesViews(s.requests, s.rows, l, after);
    assert RowsModerated(s.rows[l := after], fold);
    assert ViewsAgree(s.requests - {r}, s.rows[l := after]);
    hide RowsPlaced, RowsStored, RowsModerated, ViewsAgree, UploadsPlaced, DoomedDiscarded, StoragePlaced, Numbered;
  }

  lemma ClearedAt(place: Places, gone: seq<Key>, l: Id, k: Key)
    requires AllAt(gone, place, InRow(l))
    ensures k in Relocate(place, KeysOf(gone), Discarded) <==> k in place
    ensures k in place ==> Relocate(place, KeysOf(gone), Discarded)[k] == if k in gone then Discarded else place[k]
    ensures k in KeysOf(gone) <==> k in gone
    ensures k in gone ==> k in place && place[k] == InRow(l)
  {
    if k in gone {
      var i :| 0 <= i < |gone| && gone[i] == k;
    }
  }

  lemma ClearedPlaces(s: State, l: Id, r: nat, after: Row)
    requires l in s.rows && r in s.requests && !s.requests[r].task.Replacing? && after.images == []
    requires RowsPlaced(s.rows, s.place) && RowsStored(s.rows, s.objects) && UploadsPlaced(s.requests, s.place, s.objects)
    requires StoragePlaced(s.objects, s.place, s.rows, s.requests, s.doomed) && DoomedDiscarded(s.doomed, s.place) && Numbered(s.requests, s.place, s.next)
    ensures var place := Relocate(s.place, KeysOf(s.rows[l].images), Discarded);
            var doomed := s.doomed + KeysOf(s.rows[l].images);
            && RowsPlaced(s.rows[l := after], place) && RowsStored(s.rows[l := after], s.objects)
            && UploadsPlaced(s.requests - {r}, place, s.objects)
            && StoragePlaced(s.objects, place, s.rows[l := after], s.requests - {r}, doomed) && DoomedDiscarded(doomed, place)
            && Numbered(s.requests - {r}, place, s.next)
  {
    var gone := s.rows[l].images;
    var place := Relocate(s.place, KeysOf(gone), Discarded);
    forall k
      ensures k in place <==> k in s.place
      ensures k in place ==> place[k] == if k in gone then Discarded else s.place[k]
      ensures k in KeysOf(gone) <==> k in gone
      ensures k in gone ==> k in s.place && s.place[k] == InRow(l)
    {
      ClearedAt(s.place, gone, l, k);
    }
    hide Relocate, KeysOf;
    ClearedStorage(s, l, r, after, place);
    forall m | m in s.rows && m != l
      ensures AllAt(s.rows[m].images, place, InRow(m))
    {
      assert AllAt(s.rows[m].images, s.place, InRow(m));
    }
    forall x | x in s.requests - {r} && s.requests[x].task.Replacing?
      ensures UploadPlaced(x, s.requests[x].task, place, s.objects)
    {
      assert UploadPlaced(x, s.requests[x].task, s.place, s.objects);
    }
    hide PlaceTrue, StoragePlaced, DoomedDiscarded;
  }

  lemma ClearedStorage(s: State, l: Id, r: nat, after: Row, place: Places)
    requires l in s.rows && r in s.requests && !s.requests[r].task.Replacing? && after.images == []
    requires StoragePlaced(s.objects, s.place, s.rows, s.requests, s.doomed) && DoomedDiscarded(s.doomed, s.place)
    requires forall k :: k in place <==> k in s.place
    requires forall k :: k in place ==> place[k] == if k in s.rows[l].images then Discarded else s.place[k]
    requires forall k :: k in KeysOf(s.rows[l].images) <==> k in s.rows[l].images
    requires forall k :: k in s.rows[l].images ==> k in s.place
    ensures var doomed := s.doomed + KeysOf(s.rows[l].images);
            StoragePlaced(s.objects, place, s.rows[l := after], s.requests - {r}, doomed) && DoomedDiscarded(doomed, place)
  {
    hide KeysOf;
    var doomed := s.doomed + KeysOf(s.rows[l].images);
    forall k | k in place
      ensures PlaceTrue(k, place[k], s.rows[l := after], s.requests - {r}, doomed)
    {
      assert PlaceTrue(k, s.place[k], s.rows, s.requests, s.doomed);
    }
  }

  // ----- Clean-up

  /** A doomed object is nobody's, so removing it breaks nothing. */
  lemma SweptKeepsInv(s: State, k: Key, fold: Fold)
    requires Inv(s, fold)
    ensures Inv(Swept(s, k), fold)
  {
    if k in s.doomed {
      assert k in s.place && s.place[k].Discarded?;
      forall l | l in s.rows
        ensures AllStored(s.rows[l].images, s.objects - {k})
      {
        assert AllAt(s.rows[l].images, s.place, InRow(l)) && AllStored(s.rows[l].images, s.objects);
      }
      forall r | r in s.requests && s.requests[r].task.Replacing?
        ensures UploadPlaced(r, s.requests[r].task, s.place, s.objects - {k})
      {
        assert UploadPlaced(r, s.requests[r].task, s.place, s.objects);
      }
      hide RowsPlaced, RowsModerated, ViewsAgree, DoomedDiscarded, Numbered, UploadPlaced, AllStored;
    }
  }

  // ----- Runs

  lemma RowStepKeepsInv(s: State, a: RowAction, fold: Fold)
    requires Inv(s, fold)
    ensures Inv(ApplyRow(s, a, fold), fold)
  {
    hide Inv, Created, WithAvailability;
    match a
    case DoCreate(l, owner, title, description, operation, wishes) => CreatedKeepsInv(s, l, owner, title, description, operation, wishes, fold);
    case DoReserve(l) => if l in s.rows { AvailabilityKeepsInv(s, l, Reserved, fold); }
    case DoSettle(l, completed) => if l in s.rows { AvailabilityKeepsInv(s, l, if completed then Availability.Completed else Available, fold); }
  }

  lemma RequestStepKeepsInv(s: State, a: RequestAction, fold: Fold)
    requires Inv(s, fold)
    ensures Inv(ApplyRequest(s, a, fold), fold)
  {
    hide Inv, Started, ImagesRead, WishesRead, Written, Dropped;
    match a
    case DoStart(l, t) => StartedKeepsInv(s, l, t, fold);
    case DoReadImages(r) => ImagesReadKeepsInv(s, r, fold);
    case DoReadWishes(r) => WishesReadKeepsInv(s, r, fold);
    case DoWrite(r) => WrittenKeepsInv(s, r, fold);
    case DoDrop(r) => DroppedKeepsInv(s, r, fold);
  }

  lemma GalleryStepKeepsInv(s: State, a: GalleryAction, fold: Fold)
    requires Inv(s, fold)
    ensures Inv(ApplyGallery(s, a), fold)
  {
    hide Inv, Uploaded, Replaced, Deleted, Swept;
    match a
    case DoUpload(r, put) => UploadedKeepsInv(s, r, put, fold);
    case DoReplace(r, databaseFails) => ReplacedKeepsInv(s, r, databaseFails, fold);
    case DoDelete(r) => DeletedKeepsInv(s, r, fold);
    case DoSweep(k) => SweptKeepsInv(s, k, fold);
  }

  lemma StepKeepsInv(s: State, a: Action, fold: Fold)
    requires Inv(s, fold)
    ensures Inv(Apply(s, a, fold), fold)
  {
    hide Inv, ApplyRow, ApplyRequest, ApplyGallery;
    match a
    case OnRow(x) => RowStepKeepsInv(s, x, fold);
    case OnRequest(x) => RequestStepKeepsInv(s, x, fold);
    case OnGallery(x) => GalleryStepKeepsInv(s, x, fold);
  }

  lemma {:induction false} RunKeepsInv(acts: seq<Action>, fold: Fold)
    ensures Inv(Exec(acts, fold), fold)
  {
    if acts != [] {
      hide Inv, Apply;
      RunKeepsInv(acts[..|acts| - 1], fold);
      StepKeepsInv(Exec(acts[..|acts| - 1], fold), acts[|acts| - 1], fold);
    }
  }
}
