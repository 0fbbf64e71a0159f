/**
  The gallery service as the code runs it: uploads first, then one database transaction, then clean-up, with
  every step able to fail. Tables and deletions that other requests or the storage decide are parameters.
*/
module ListingImages {
  import opened Wrappers
  import opened Catalog
  import opened PublicationRules
  import opened Listings
  import opened ListingService
  import opened Moderation

  /** An uploaded file: the key generated for it, and whether its signature was recognised. */
  datatype File = File(key: Key, valid: bool)

  function FileKeys(files: seq<File>): seq<Key> {
    seq(|files|, i requires 0 <= i < |files| => files[i].key)
  }

  class ObjectStorage {
    var objects: set<Key>

    constructor ()
      ensures objects == {}
    {
      objects := {};
    }

    /** A put that fails may have stored the object all the same. */
    method PutObject(key: Key, fate: Put) returns (ok: bool)
      modifies this
      ensures ok == fate.Stored?
      ensures objects == if ok || fate.kept then old(objects) + {key} else old(objects)
    {
      if fate.Stored? || fate.kept {
        objects := objects + {key};
      }
      return fate.Stored?;
    }

    /** Deletes what it can: `stubborn` objects outlive it, and then it throws. */
    method DeleteObjects(keys: seq<Key>, stubborn: set<Key>) returns (ok: bool)
      modifies this
      ensures objects == old(objects) - (KeysOf(keys) - stubborn)
      ensures ok <==> KeysOf(keys) * stubborn == {}
    {
      objects := objects - (KeysOf(keys) - stubborn);
      return KeysOf(keys) * stubborn == {};
    }
  }

  /** Every image row names a stored object, and each key has one place. */
  ghost predicate GalleriesSound(rows: Rows, objects: set<Key>) {
    && (forall l :: l in rows ==> Distinct(rows[l].images) && AllStored(rows[l].images, objects))
    && (forall l, m, i, j :: l in rows && m in rows && l != m && 0 <= i < |rows[l].images| && 0 <= j < |rows[m].images| ==>
          rows[l].images[i] != rows[m].images[j])
  }

  ghost predicate UnusedKeys(files: seq<File>, rows: Rows, objects: set<Key>) {
    && Distinct(FileKeys(files))
    && (forall i :: 0 <= i < |files| ==> files[i].key !in objects)
    && (forall l, i :: l in rows && 0 <= i < |files| ==> files[i].key !in rows[l].images)
  }

  class ListingImagesService {
    const table: ListingTable
    const storage: ObjectStorage

    constructor (table: ListingTable, storage: ObjectStorage)
      ensures this.table == table && this.storage == storage
    {
      this.table := table;
      this.storage := storage;
    }

    method BestEffortDelete(keys: seq<Key>, stubborn: set<Key>)
      modifies storage
      ensures storage.objects == old(storage.objects) - (KeysOf(keys) - stubborn)
    {
      if |keys| == 0 {
        return;
      }
      var _ := storage.DeleteObjects(keys, stubborn);
    }

    method RequireEditableListing(listing: Id, owner: Id) returns (head: Result<Head, ListingError>)
      ensures head.Ok? <==>
        && listing in table.rows
        && var h := table.rows[listing].head;
           h.owner == owner && !h.status.Approved? && h.availability.Available?
      ensures head.Ok? ==> head.value == table.rows[listing].head
      ensures head.Err? ==> if listing in table.rows then RefuseGalleryChange(table.rows[listing].head, owner) == Some(head.error) else head.error == NotFound
    {
      if listing !in table.rows {
        return Err(NotFound);
      }
      var h := table.rows[listing].head;
      if h.owner != owner {
        return Err(NotOwner);
      }
      if h.status.Approved? {
        return Err(IsApproved);
      }
      if !h.availability.Available? {
        return Err(NotAvailable);
      }
      return Ok(h);
    }

    /**
      The upload loop. It keeps its list of keys ahead of the storage, so that a failure knows every key that may
      have been stored: nothing else changes, and after a failure nothing new remains but what would not go.
    */
    method UploadAll(files: seq<File>, puts: nat -> Put, stubborn: set<Key>) returns (ok: bool, uploaded: seq<Key>)
      requires forall i :: 0 <= i < |files| ==> files[i].key !in storage.objects
      modifies storage
      ensures ok <==> forall i :: 0 <= i < |files| ==> puts(i).Stored?
      ensures ok ==> uploaded == FileKeys(files) && storage.objects == old(storage.objects) + KeysOf(uploaded)
      ensures !ok ==> old(storage.objects) <= storage.objects <= old(storage.objects) + (KeysOf(FileKeys(files)) * stubborn)
    {
      uploaded := [];
      for i := 0 to |files|
        invariant uploaded == FileKeys(files)[..i]
        invariant storage.objects == old(storage.objects) + KeysOf(uploaded)
        invariant forall j :: 0 <= j < i ==> puts(j).Stored?
      {
        ghost var before := KeysOf(uploaded);
        uploaded := uploaded + [files[i].key];
        assert KeysOf(uploaded) == before + {files[i].key} by {
          KeysOfSnoc(FileKeys(files)[..i], files[i].key);
        }
        var stored := storage.PutObject(files[i].key, puts(i));
        if !stored {
          ghost var reached := storage.objects;
          BestEffortDelete(uploaded, stubborn);
          assert uploaded == FileKeys(files)[..i + 1];
          KeysOfPart(files, i + 1);
          RollbackIsClean(old(storage.objects), reached, KeysOf(uploaded), KeysOf(FileKeys(files)), stubborn);
          return false, uploaded;
        }
      }
      assert FileKeys(files)[..|files|] == FileKeys(files);
      ok := true;
    }

    lemma KeysOfSnoc(keys: seq<Key>, k: Key)
      ensures KeysOf(keys + [k]) == KeysOf(keys) + {k}
    {
      assert (keys + [k])[|keys|] == k;
      assert forall i :: 0 <= i < |keys| ==> (keys + [k])[i] == keys[i];
    }

    lemma KeysOfPart(files: seq<File>, n: nat)
      requires n <= |files|
      ensures KeysOf(FileKeys(files)[..n]) <= KeysOf(FileKeys(files))
      ensures forall k :: k in KeysOf(FileKeys(files)) ==> exists i :: 0 <= i < |files| && files[i].key == k
    {
    }

    /**
      On success the row as it still was shows exactly the uploads, pending again, and what it showed before is
      deleted, except for what would not go. On failure no row changes on this request's account and nothing new
      stays in storage, except for what would not go.
    */
    method ReplaceOwnedImages(listing: Id, owner: Id, files: seq<File>, storageReady: bool, puts: nat -> Put,
                              databaseFails: bool, assetsRead: Rows, meanwhile: Rows, stubborn: set<Key>)
      returns (r: Result<seq<Key>, ListingError>)
      requires Follows(table.rows, assetsRead) && Follows(assetsRead, meanwhile)
      requires UnusedKeys(files, meanwhile, storage.objects)
      modifies table, storage
      ensures r.Ok? <==>
        && 5 <= |files| <= 8 && listing in old(table.rows)
        && (var head := old(table.rows)[listing].head;
            head.owner == owner && !head.status.Approved? && head.availability.Available?)
        && (forall i :: 0 <= i < |files| ==> files[i].valid && puts(i).Stored?) && storageReady && !databaseFails
        && listing in meanwhile && meanwhile[listing].head.rev == old(table.rows)[listing].head.rev
      ensures r == Err(BadBatchSize) <==> !(5 <= |files| <= 8)
      ensures r.Ok? ==>
        && meanwhile[listing] == old(table.rows)[listing]
        && r.value == FileKeys(files) && table.rows == meanwhile[listing := meanwhile[listing].(
             images := r.value, head := meanwhile[listing].head.(status := ListingStatus.Pending, reason := None, rev := meanwhile[listing].head.rev + 1))]
        && storage.objects == old(storage.objects) + KeysOf(r.value) - (KeysOf(meanwhile[listing].images) - stubborn)
      ensures r.Err? ==>
        && (table.rows == old(table.rows) || table.rows == meanwhile)
        && old(storage.objects) <= storage.objects <= old(storage.objects) + (KeysOf(FileKeys(files)) * stubborn)
      ensures GalleriesSound(old(table.rows), old(storage.objects)) && GalleriesSound(meanwhile, old(storage.objects)) ==>
        GalleriesSound(table.rows, storage.objects)
    {
      if |files| < MIN_LISTING_IMAGES || |files| > MAX_LISTING_IMAGES {
        return Err(BadBatchSize);
      }
      var head := RequireEditableListing(listing, owner);
      if head.Err? {
        return Err(head.error);
      }
      var seen := assetsRead[listing].images;
      assert RowFollows(table.rows[listing], assetsRead[listing]) && RowFollows(assetsRead[listing], meanwhile[listing]);
      if exists i :: 0 <= i < |files| && !files[i].valid {
        return Err(InvalidImage);
      }
      if !storageReady {
        return Err(StorageDown);
      }
      ghost var objects := storage.objects;
      var ok, uploaded := UploadAll(files, puts, stubborn);
      if !ok {
        MoreObjects(table.rows, objects, storage.objects);
        return Err(UploadFailed);
      }
      table.rows := meanwhile;
      var claim := ClaimReplacement(table.rows[listing], owner, head.value.rev, uploaded);
      if databaseFails || claim.None? {
        ghost var reached := storage.objects;
        BestEffortDelete(uploaded, stubborn);
        KeysOfPart(files, |files|);
        RollbackIsClean(objects, reached, KeysOf(uploaded), KeysOf(uploaded), stubborn);
        MoreObjects(meanwhile, objects, storage.objects);
        return Err(if databaseFails then DatabaseDown else LostRace);
      }
      table.rows := table.rows[listing := claim.value];
      BestEffortDelete(seen, stubborn);
      if GalleriesSound(meanwhile, objects) {
        ReplacementIsSound(meanwhile, objects, listing, files, stubborn);
      }
      return Ok(uploaded);
    }

    lemma MoreObjects(rows: Rows, before: set<Key>, after: set<Key>)
      requires before <= after
      ensures GalleriesSound(rows, before) ==> GalleriesSound(rows, after)
    {
    }

    /** Deleting every key a request generated leaves the storage as it was, but for what would not go. */
    lemma RollbackIsClean(before: set<Key>, reached: set<Key>, keys: set<Key>, all: set<Key>, stubborn: set<Key>)
      requires before <= reached <= before + keys && keys <= all && keys !! before
      ensures before <= reached - (keys - stubborn) <= before + (all * stubborn)
    {
    }

    /** Swapping one gallery for unused keys that are stored, and deleting what it showed, breaks no other gallery. */
    lemma ReplacementIsSound(rows: Rows, objects: set<Key>, listing: Id, files: seq<File>, stubborn: set<Key>)
      requires GalleriesSound(rows, objects) && UnusedKeys(files, rows, objects) && listing in rows
      ensures var keys := FileKeys(files);
              GalleriesSound(rows[listing := WithImages(rows[listing], keys)], objects + KeysOf(keys) - (KeysOf(rows[listing].images) - stubborn))
    {
      var keys := FileKeys(files);
      var after := rows[listing := WithImages(rows[listing], keys)];
      var kept := objects + KeysOf(keys) - (KeysOf(rows[listing].images) - stubborn);
      assert forall i :: 0 <= i < |files| ==> keys[i] == files[i].key;
      forall l | l in after
        ensures Distinct(after[l].images) && AllStored(after[l].images, kept)
      {
        forall i | 0 <= i < |after[l].images|
          ensures after[l].images[i] in kept
        {
          if l == listing {
            assert keys[i] == files[i].key && keys[i] !in rows[listing].images;
          }
        }
      }
    }

    lemma DeletionIsSound(rows: Rows, objects: set<Key>, listing: Id, stubborn: set<Key>)
      requires GalleriesSound(rows, objects) && listing in rows
      ensures GalleriesSound(rows[listing := WithImages(rows[listing], [])], objects - (KeysOf(rows[listing].images) - stubborn))
    {
    }

    /** Deletes the gallery of an editable listing and, with it, the objects it named, except for what would not go. */
    method DeleteOwnedImages(listing: Id, owner: Id, databaseFails: bool, assetsRead: Rows, meanwhile: Rows, stubborn: set<Key>)
      returns (r: Result<nat, ListingError>)
      requires Follows(table.rows, assetsRead) && Follows(assetsRead, meanwhile)
      modifies table, storage
      ensures r.Ok? <==>
        && listing in old(table.rows) && listing in assetsRead
        && (var head := old(table.rows)[listing].head;
            head.owner == owner && !head.status.Approved? && head.availability.Available?)
        && (assetsRead[listing].images == []
            || (!databaseFails && listing in meanwhile && meanwhile[listing].head.rev == old(table.rows)[listing].head.rev))
      ensures r.Ok? && r.value == 0 ==> table.rows == old(table.rows) && storage.objects == old(storage.objects)
      ensures r.Ok? && r.value > 0 ==>
        && meanwhile[listing] == old(table.rows)[listing] && r.value == |meanwhile[listing].images|
        && table.rows == meanwhile[listing := meanwhile[listing].(
             images := [], head := meanwhile[listing].head.(status := ListingStatus.Pending, reason := None, rev := meanwhile[listing].head.rev + 1))]
        && storage.objects == old(storage.objects) - (KeysOf(meanwhile[listing].images) - stubborn)
      ensures r.Err? ==> (table.rows == old(table.rows) || table.rows == meanwhile) && storage.objects == old(storage.objects)
      ensures GalleriesSound(old(table.rows), old(storage.objects)) && GalleriesSound(meanwhile, old(storage.objects)) ==>
        GalleriesSound(table.rows, storage.objects)
    {
      var head := RequireEditableListing(listing, owner);
      if head.Err? {
        return Err(head.error);
      }
      var seen := assetsRead[listing].images;
      assert RowFollows(table.rows[listing], assetsRead[listing]) && RowFollows(assetsRead[listing], meanwhile[listing]);
      if |seen| == 0 {
        return Ok(0);
      }
      table.rows := meanwhile;
      var claim := ClaimDeletion(table.rows[listing], owner, head.value.rev);
      if databaseFails || claim.None? {
        return Err(if databaseFails then DatabaseDown else LostRace);
      }
      table.rows := table.rows[listing := claim.value];
      ghost var objects := storage.objects;
      BestEffortDelete(seen, stubborn);
      if GalleriesSound(meanwhile, objects) {
        DeletionIsSound(meanwhile, objects, listing, stubborn);
      }
      return Ok(|seen|);
    }
  }
}
