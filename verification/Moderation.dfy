/**
  Moderation and galleries as a state machine: any number of edits, reviews, gallery replacements and deletions
  interleave on rows that carry a revision, while images live in an object storage that no transaction covers.
  A listing is read row first and assets later, so what a request saw may be torn. An action that is not enabled
  changes nothing, so a run is any sequence of actions.
*/
module Moderation {
  import opened Wrappers
  import opened Catalog
  import opened PublicationRules
  import opened Listings

  // ----- State

  /** What a request has read so far of a listing: its row, then its images and wishes, each in a query of its own. */
  datatype View = View(listing: Id, head: Head, images: Option<seq<Key>>, wishes: Option<seq<string>>)

  /** `Looking` is anyone who only reads, a moderator about to decide for instance. */
  datatype Task =
    | Looking
    | Editing(actor: Id, input: EditInput)
    | Approving(reviewed: nat)
    | Rejecting(reviewed: nat, reason: Id)
    | Replacing(actor: Id, total: nat, uploaded: seq<Key>)
    | Deleting(actor: Id)

  datatype Request = Request(view: View, task: Task)

  /** History variable, read by no guard: what became of each object key ever generated. */
  datatype Place = InRow(listing: Id) | Uploading(request: nat) | Discarded | Orphaned

  type Requests = map<nat, Request>

  type Places = map<Key, Place>

  /** `doomed` holds the keys some request has set out to delete. */
  datatype State = State(rows: Rows, objects: set<Key>, requests: Requests, doomed: set<Key>, place: Places, next: nat)

  const INIT := State(map[], {}, map[], {}, map[], 0)

  predicate Loaded(v: View) {
    v.images.Some? && v.wishes.Some?
  }

  function Relocate(place: Places, keys: set<Key>, to: Place): Places {
    map k | k in place.Keys + keys :: if k in keys then to else place[k]
  }

  function KeysOf(images: seq<Key>): set<Key> {
    set i | 0 <= i < |images| :: images[i]
  }

  // ----- Rows appear, and the commit protocol moves their availability

  ghost function Created(s: State, l: Id, owner: Id, title: Id, description: Id, operation: OperationType, wishes: seq<string>, fold: Fold): State {
    if l in s.rows || ValidateTradeWishes(operation, wishes, fold).Err? then s
    else s.(rows := s.rows[l := NewRow(owner, title, description, operation, ValidateTradeWishes(operation, wishes, fold).value)])
  }

  ghost function ReservedBySaga(s: State, l: Id): State {
    if !(l in s.rows && s.rows[l].head.status.Approved? && s.rows[l].head.availability.Available?) then s
    else s.(rows := s.rows[l := WithAvailability(s.rows[l], Reserved)])
  }

  /** `complete` and `release` write without looking. */
  ghost function SettledBySaga(s: State, l: Id, completed: bool): State {
    if l !in s.rows then s
    else s.(rows := s.rows[l := WithAvailability(s.rows[l], if completed then Availability.Completed else Available)])
  }

  // ----- Reading

  predicate CanStart(t: Task) {
    match t
    case Editing(_, input) => !IsEmptyEdit(input)
    case Replacing(_, total, uploaded) => MIN_LISTING_IMAGES <= total <= MAX_LISTING_IMAGES && uploaded == []
    case _ => true
  }

  ghost function Started(s: State, l: Id, t: Task): State {
    if l !in s.rows || !CanStart(t) then s
    else s.(requests := s.requests[s.next := Request(View(l, s.rows[l].head, None, None), t)], next := s.next + 1)
  }

  ghost function ImagesRead(s: State, r: nat): State {
    if !(r in s.requests && s.requests[r].view.images.None? && s.requests[r].view.listing in s.rows) then s
    else
      var q := s.requests[r];
      s.(requests := s.requests[r := q.(view := q.view.(images := Some(s.rows[q.view.listing].images)))])
  }

  ghost function WishesRead(s: State, r: nat): State {
    if !(r in s.requests && s.requests[r].view.wishes.None? && s.requests[r].view.listing in s.rows) then s
    else
      var q := s.requests[r];
      s.(requests := s.requests[r := q.(view := q.view.(wishes := Some(s.rows[q.view.listing].wishes)))])
  }

  // ----- Writes

  predicate Ready(s: State, r: nat) {
    r in s.requests && Loaded(s.requests[r].view) && s.requests[r].view.listing in s.rows
  }

  function EditedRow(q: Request, row: Row, fold: Fold): Option<Row>
    requires q.task.Editing? && Loaded(q.view)
  {
    match PrepareEdit(q.view.head, q.view.wishes.value, q.task.actor, q.task.input, fold)
    case Ok(w) => Some(WriteEdit(row, q.task.input, w))
    case Err(_) => None
  }

  function ApprovedRow(q: Request, row: Row, fold: Fold): Option<Row>
    requires q.task.Approving? && Loaded(q.view)
  {
    if RefuseApproval(q.view.head, q.view.images.value, q.view.wishes.value, q.task.reviewed, fold).Some? then None
    else ClaimDecision(row, q.view.head.rev, ListingStatus.Approved, None)
  }

  function RejectedRow(q: Request, row: Row): Option<Row>
    requires q.task.Rejecting?
  {
    if RefuseReview(q.view.head, q.task.reviewed).Some? then None
    else ClaimDecision(row, q.view.head.rev, ListingStatus.Rejected, Some(q.task.reason))
  }

  /** What the request writes to the row as it now is, or None when it throws first. */
  function TextualWrite(q: Request, row: Row, fold: Fold): Option<Row>
    requires Loaded(q.view)
  {
    match q.task
    case Editing(_, _) => EditedRow(q, row, fold)
    case Approving(_) => ApprovedRow(q, row, fold)
    case Rejecting(_, _) => RejectedRow(q, row)
    case _ => None
  }

  /** The one write of an edit, an approval or a rejection; the request ends either way. */
  ghost function Written(s: State, r: nat, fold: Fold): State {
    if !(Ready(s, r) && (s.requests[r].task.Editing? || s.requests[r].task.Approving? || s.requests[r].task.Rejecting?)) then s
    else
      var q := s.requests[r];
      var w := TextualWrite(q, s.rows[q.view.listing], fold);
      s.(rows := if w.Some? then s.rows[q.view.listing := w.value] else s.rows, requests := s.requests - {r})
  }

  // ----- Galleries

  predicate MayChangeGallery(s: State, r: nat, actor: Id) {
    && r in s.requests && s.requests[r].view.images.Some? && s.requests[r].view.listing in s.rows
    && RefuseGalleryChange(s.requests[r].view.head, actor).None?
  }

  predicate IsReplacing(s: State, r: nat) {
    r in s.requests && s.requests[r].task.Replacing? && MayChangeGallery(s, r, s.requests[r].task.actor)
  }

  datatype Put = Stored | Failed(kept: bool)

  /** The best-effort clean-up of a failed replacement: every key it ever generated is to be deleted. */
  ghost function RolledBack(s: State, r: nat, keys: set<Key>): State {
    s.(requests := s.requests - {r}, doomed := s.doomed + keys, place := Relocate(s.place, keys, Discarded))
  }

  /** One upload under a fresh key. A put that fails may have stored the object all the same. */
  ghost function Uploaded(s: State, r: nat, put: Put): State {
    if !(IsReplacing(s, r) && |s.requests[r].task.uploaded| < s.requests[r].task.total) then s
    else
      var q := s.requests[r];
      var key := s.next;
      if put.Stored? then
        s.(requests := s.requests[r := q.(task := q.task.(uploaded := q.task.uploaded + [key]))],
           objects := s.objects + {key}, place := s.place[key := Uploading(r)], next := s.next + 1)
      else
        RolledBack(s, r, KeysOf(q.task.uploaded + [key])).(objects := if put.kept then s.objects + {key} else s.objects, next := s.next + 1)
  }

  /** The database transaction of a replacement, then the clean-up of what it replaced, or its own rollback. */
  ghost function Replaced(s: State, r: nat, databaseFails: bool): State {
    if !(IsReplacing(s, r) && |s.requests[r].task.uploaded| == s.requests[r].task.total) then s
    else
      var q := s.requests[r];
      var w := ClaimReplacement(s.rows[q.view.listing], q.task.actor, q.view.head.rev, q.task.uploaded);
      if databaseFails || w.None? then RolledBack(s, r, KeysOf(q.task.uploaded))
      else
        s.(rows := s.rows[q.view.listing := w.value], requests := s.requests - {r}, doomed := s.doomed + KeysOf(q.view.images.value),
           place := Relocate(Relocate(s.place, KeysOf(q.view.images.value), Discarded), KeysOf(q.task.uploaded), InRow(q.view.listing)))
  }

  ghost function Deleted(s: State, r: nat): State {
    if !(r in s.requests && s.requests[r].task.Deleting? && MayChangeGallery(s, r, s.requests[r].task.actor)) then s
    else
      var q := s.requests[r];
      var w := ClaimDeletion(s.rows[q.view.listing], q.task.actor, q.view.head.rev);
      if q.view.images.value == [] || w.None? then s.(requests := s.requests - {r})
      else
        s.(rows := s.rows[q.view.listing := w.value], requests := s.requests - {r}, doomed := s.doomed + KeysOf(q.view.images.value),
           place := Relocate(s.place, KeysOf(q.view.images.value), Discarded))
  }

  /** A deletion set out earlier reaches the storage, at any later time, or never. */
  ghost function Swept(s: State, k: Key): State {
    if k in s.doomed then s.(objects := s.objects - {k}) else s
  }

  /** Fault: the process dies, or the request is refused; what it uploaded stays behind. */
  ghost function Dropped(s: State, r: nat): State {
    if r !in s.requests then s
    else s.(requests := s.requests - {r},
            place := if s.requests[r].task.Replacing? then Relocate(s.place, KeysOf(s.requests[r].task.uploaded), Orphaned) else s.place)
  }

  // ----- Runs

  datatype RowAction =
    | DoCreate(l: Id, owner: Id, title: Id, description: Id, operation: OperationType, wishes: seq<string>)
    | DoReserve(l: Id) | DoSettle(l: Id, completed: bool)

  datatype RequestAction = DoStart(l: Id, t: Task) | DoReadImages(r: nat) | DoReadWishes(r: nat) | DoWrite(r: nat) | DoDrop(r: nat)

  datatype GalleryAction = DoUpload(r: nat, put: Put) | DoReplace(r: nat, databaseFails: bool) | DoDelete(r: nat) | DoSweep(k: Key)

  datatype Action = OnRow(row: RowAction) | OnRequest(request: RequestAction) | OnGallery(gallery: GalleryAction)

  ghost function ApplyRow(s: State, a: RowAction, fold: Fold): State {
    match a
    case DoCreate(l, owner, title, description, operation, wishes) => Created(s, l, owner, title, description, operation, wishes, fold)
    case DoReserve(l) => ReservedBySaga(s, l)
    case DoSettle(l, completed) => SettledBySaga(s, l, completed)
  }

  ghost function ApplyRequest(s: State, a: RequestAction, fold: Fold): State {
    match a
    case DoStart(l, t) => Started(s, l, t)
    case DoReadImages(r) => ImagesRead(s, r)
    case DoReadWishes(r) => WishesRead(s, r)
    case DoWrite(r) => Written(s, r, fold)
    case DoDrop(r) => Dropped(s, r)
  }

  ghost function ApplyGallery(s: State, a: GalleryAction): State {
    match a
    case DoUpload(r, put) => Uploaded(s, r, put)
    case DoReplace(r, databaseFails) => Replaced(s, r, databaseFails)
    case DoDelete(r) => Deleted(s, r)
    case DoSweep(k) => Swept(s, k)
  }

  ghost function Apply(s: State, a: Action, fold: Fold): State {
    match a
    case OnRow(x) => ApplyRow(s, x, fold)
    case OnRequest(x) => ApplyRequest(s, x, fold)
    case OnGallery(x) => ApplyGallery(s, x)
  }

  ghost function Exec(acts: seq<Action>, fold: Fold): State {
    if acts == [] then INIT else Apply(Exec(acts[..|acts| - 1], fold), acts[|acts| - 1], fold)
  }

  // ----- Invariant

  predicate Distinct(images: seq<Key>) {
    forall i, j :: 0 <= i < j < |images| ==> images[i] != images[j]
  }

  predicate AllAt(images: seq<Key>, place: Places, p: Place) {
    forall i :: 0 <= i < |images| ==> images[i] in place && place[images[i]] == p
  }

  predicate AllStored(images: seq<Key>, objects: set<Key>) {
    forall i :: 0 <= i < |images| ==> images[i] in objects
  }

  /** Each image row belongs to one listing and has its own key. */
  ghost predicate RowsPlaced(rows: Rows, place: Places) {
    forall l :: l in rows ==> Distinct(rows[l].images) && AllAt(rows[l].images, place, InRow(l))
  }

  ghost predicate RowsStored(rows: Rows, objects: set<Key>) {
    forall l :: l in rows ==> AllStored(rows[l].images, objects)
  }

  /** An approved listing is complete; a reason stands exactly on rejected ones; stored wishes are normalised. */
  predicate RowModerated(row: Row, fold: Fold) {
    && (row.head.status.Approved? ==> IsComplete(row, fold))
    && (row.head.status.Rejected? <==> row.head.reason.Some?)
    && Clean(row.wishes, fold)
  }

  ghost predicate RowsModerated(rows: Rows, fold: Fold) {
    forall l :: l in rows ==> RowModerated(rows[l], fold)
  }

  /** A view is of a past revision; while that is still the current one, everything read agrees with the row. */
  predicate ViewAgrees(v: View, row: Row) {
    && v.head.rev <= row.head.rev && v.head.owner == row.head.owner
    && (v.head.rev == row.head.rev ==>
          && v.head == row.head
          && (v.images.Some? ==> v.images.value == row.images)
          && (v.wishes.Some? ==> v.wishes.value == row.wishes))
  }

  ghost predicate ViewsAgree(requests: Requests, rows: Rows) {
    forall r :: r in requests ==> requests[r].view.listing in rows && ViewAgrees(requests[r].view, rows[requests[r].view.listing])
  }

  /** A replacement under way uploads its own keys, and every one of them is stored. */
  ghost predicate UploadsPlaced(requests: Requests, place: Places, objects: set<Key>) {
    forall r :: r in requests && requests[r].task.Replacing? ==> UploadPlaced(r, requests[r].task, place, objects)
  }

  predicate UploadPlaced(r: nat, t: Task, place: Places, objects: set<Key>)
    requires t.Replacing?
  {
    && MIN_LISTING_IMAGES <= t.total <= MAX_LISTING_IMAGES && |t.uploaded| <= t.total
    && Distinct(t.uploaded) && AllAt(t.uploaded, place, Uploading(r)) && AllStored(t.uploaded, objects)
  }

  ghost predicate DoomedDiscarded(doomed: set<Key>, place: Places) {
    forall k :: k in doomed ==> k in place && place[k].Discarded?
  }

  ghost predicate StoragePlaced(objects: set<Key>, place: Places, rows: Rows, requests: Requests, doomed: set<Key>) {
    && (forall k :: k in objects ==> k in place)
    && (forall k :: k in place ==> PlaceTrue(k, place[k], rows, requests, doomed))
  }

  /** The history variable tells the truth. */
  predicate PlaceTrue(k: Key, p: Place, rows: Rows, requests: Requests, doomed: set<Key>) {
    match p
    case InRow(l) => l in rows && k in rows[l].images
    case Uploading(r) => r in requests && requests[r].task.Replacing? && k in requests[r].task.uploaded
    case Discarded => k in doomed
    case Orphaned => true
  }

  ghost predicate Numbered(requests: Requests, place: Places, next: nat) {
    && (forall r :: r in requests ==> r < next)
    && (forall k :: k in place ==> k < next)
  }

  ghost predicate Inv(s: State, fold: Fold) {
    && RowsPlaced(s.rows, s.place)
    && RowsStored(s.rows, s.objects)
    && RowsModerated(s.rows, fold)
    && ViewsAgree(s.requests, s.rows)
    && UploadsPlaced(s.requests, s.place, s.objects)
    && DoomedDiscarded(s.doomed, s.place)
    && StoragePlaced(s.objects, s.place, s.rows, s.requests, s.doomed)
    && Numbered(s.requests, s.place, s.next)
  }
}
