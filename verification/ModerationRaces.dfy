/**
  Two things one might expect of stored listings, and what the unconditional write of an edit does to them: a
  reserved listing that is not approved any more, and wishes that do not fit the listing's type.
*/
module ModerationRaces {
  import opened Wrappers
  import opened Catalog
  import opened PublicationRules
  import opened Listings
  import opened Moderation

  // ----- Wishes and type

  /** The edit rewrites the wishes for the type it read while leaving the type to whatever the row says by then. */
  predicate MixesTypes(head: Head, row: Row, input: EditInput) {
    input.wishes.Some? && input.operation.None? && head.operation != row.head.operation
  }

  /**
    An edit of a listing whose wishes fit its type leaves them fitting exactly unless it sends wishes without a type
    and the type changed after it read the listing.
  */
  lemma EditKeepsFitExactly(head: Head, wishes: seq<string>, row: Row, actor: Id, input: EditInput, fold: Fold)
    requires WishesFit(row.head.operation, row.wishes, fold)
    requires PrepareEdit(head, wishes, actor, input, fold).Ok?
    ensures var after := WriteEdit(row, input, PrepareEdit(head, wishes, actor, input, fold).value);
            WishesFit(after.head.operation, after.wishes, fold) <==> !MixesTypes(head, row, input)
  {
    if ReplacesWishes(input) {
      var operation := OrElse(input.operation, head.operation);
      StoredWishesRevalidate(operation, OrElse(input.wishes, if operation.Donation? then [] else wishes), fold);
    }
    hide ValidateTradeWishes, Clean;
  }

  lemma ExecStep(acts: seq<Action>, a: Action, fold: Fold)
    ensures Exec(acts + [a], fold) == Apply(Exec(acts, fold), a, fold)
  {
    assert (acts + [a])[..|acts|] == acts;
  }

  // ----- Pieces of runs

  /** A request that has just read the whole of listing `l`. */
  ghost predicate HasRead(s: State, r: nat, l: Id, t: Task) {
    l in s.rows && r in s.requests && s.requests[r] == Request(View(l, s.rows[l].head, Some(s.rows[l].images), Some(s.rows[l].wishes)), t)
  }

  lemma Reads(acts: seq<Action>, l: Id, t: Task, fold: Fold) returns (more: seq<Action>)
    requires l in Exec(acts, fold).rows && CanStart(t)
    ensures var s, after := Exec(acts, fold), Exec(acts + more, fold);
            && after.rows == s.rows && HasRead(after, s.next, l, t) && after.next > s.next
            && forall r :: r in s.requests && r != s.next ==> r in after.requests && after.requests[r] == s.requests[r]
  {
    var s := Exec(acts, fold);
    var a, b, c := OnRequest(DoStart(l, t)), OnRequest(DoReadImages(s.next)), OnRequest(DoReadWishes(s.next));
    ExecStep(acts, a, fold);
    ExecStep(acts + [a], b, fold);
    ExecStep(acts + [a] + [b], c, fold);
    hide Exec;
    more := [a, b, c];
    assert acts + more == acts + [a] + [b] + [c];
  }

  /** The write of a request that had read the listing, on the row as it is now. */
  lemma Writes(acts: seq<Action>, r: nat, l: Id, fold: Fold) returns (more: seq<Action>)
    requires var s := Exec(acts, fold); Ready(s, r) && s.requests[r].view.listing == l && (s.requests[r].task.Editing? || s.requests[r].task.Approving?)
    requires var s := Exec(acts, fold); TextualWrite(s.requests[r], s.rows[l], fold).Some?
    ensures var s, after := Exec(acts, fold), Exec(acts + more, fold);
            && after.rows == s.rows[l := TextualWrite(s.requests[r], s.rows[l], fold).value] && after.next == s.next
            && after.requests == s.requests - {r}
  {
    ExecStep(acts, OnRequest(DoWrite(r)), fold);
    hide Exec, TextualWrite;
    more := [OnRequest(DoWrite(r))];
  }

  lemma Creates(l: Id, owner: Id, operation: OperationType, wishes: seq<string>, fold: Fold) returns (acts: seq<Action>)
    requires ValidateTradeWishes(operation, wishes, fold) == Ok(wishes)
    ensures var s := Exec(acts, fold); l in s.rows && s.rows[l] == NewRow(owner, 0, 0, operation, wishes)
  {
    acts := [OnRow(DoCreate(l, owner, 0, 0, operation, wishes))];
    ExecStep([], acts[0], fold);
    hide ValidateTradeWishes;
    assert [] + [acts[0]] == acts;
  }

  lemma TwoRead(acts: seq<Action>, l: Id, t: Task, u: Task, fold: Fold) returns (more: seq<Action>, r: nat, q: nat)
    requires l in Exec(acts, fold).rows && CanStart(t) && CanStart(u)
    ensures var s, after := Exec(acts, fold), Exec(acts + more, fold);
            after.rows == s.rows && r != q && HasRead(after, r, l, t) && HasRead(after, q, l, u)
  {
    hide Exec;
    r := Exec(acts, fold).next;
    var first := Reads(acts, l, t, fold);
    q := Exec(acts + first, fold).next;
    var second := Reads(acts + first, l, u, fold);
    more := first + second;
    assert acts + more == acts + first + second;
  }

  /**
    Such a mix is reachable: two edits read a trade; the first turns it into a donation, the second, which only
    sends wishes, puts trade wishes on the donation.
  */
  lemma DonationWithTradeWishes(l: Id, owner: Id, wishes: seq<string>, fold: Fold)
    requires WishesFit(Trade, wishes, fold)
    ensures exists acts ::
      var s := Exec(acts, fold); l in s.rows && s.rows[l].head.operation.Donation? && s.rows[l].wishes == wishes && s.rows[l].head.status.Pending?
  {
    StoredWishesRevalidate(Trade, wishes, fold);
    StoredWishesRevalidate(Donation, [], fold);
    assert WishesFit(Donation, [], fold);
    hide ValidateTradeWishes, WishesFit, Exec;
    var acts := Creates(l, owner, Trade, wishes, fold);
    var toDonation, newWishes := EditInput(None, None, Some(Donation), None), EditInput(None, None, None, Some(wishes));
    var m1, r, q := TwoRead(acts, l, Editing(owner, toDonation), Editing(owner, newWishes), fold);
    var read := acts + m1;
    var m2 := Writes(read, r, l, fold);
    var m3 := Writes(read + m2, q, l, fold);
  }

  // ----- Reserved without being approved

  /** Uploads, one after the other, while nothing else happens. */
  lemma {:induction false} Uploads(acts: seq<Action>, r: nat, n: nat, fold: Fold) returns (more: seq<Action>)
    requires var s := Exec(acts, fold); IsReplacing(s, r) && |s.requests[r].task.uploaded| + n == s.requests[r].task.total && r < s.next
    ensures var s, after := Exec(acts, fold), Exec(acts + more, fold);
            && after.rows == s.rows && IsReplacing(after, r) && after.requests[r].view == s.requests[r].view
            && after.requests[r].task.actor == s.requests[r].task.actor
            && |after.requests[r].task.uploaded| == after.requests[r].task.total == s.requests[r].task.total
    decreases n
  {
    if n == 0 {
      more := [];
      assert acts + [] == acts;
    } else {
      var a := OnGallery(DoUpload(r, Stored));
      ExecStep(acts, a, fold);
      hide Exec;
      var rest := Uploads(acts + [a], r, n - 1, fold);
      more := [a] + rest;
      assert acts + more == acts + [a] + rest;
    }
  }

  /** A fresh donation with a gallery of five. */
  lemma Illustrated(l: Id, owner: Id, fold: Fold) returns (acts: seq<Action>)
    ensures var s := Exec(acts, fold);
            && l in s.rows && s.rows[l].head.owner == owner && s.rows[l].head.status.Pending? && s.rows[l].head.availability.Available?
            && IsComplete(s.rows[l], fold) && s.rows[l].head.operation.Donation?
  {
    StoredWishesRevalidate(Donation, [], fold);
    var a0 := Creates(l, owner, Donation, [], fold);
    var r := Exec(a0, fold).next;
    var a1 := Reads(a0, l, Replacing(owner, MIN_LISTING_IMAGES, []), fold);
    var a2 := Uploads(a0 + a1, r, MIN_LISTING_IMAGES, fold);
    var a3 := OnGallery(DoReplace(r, false));
    ExecStep(a0 + a1 + a2, a3, fold);
    hide Exec, ValidateTradeWishes, Relocate, KeysOf;
    acts := a0 + a1 + a2 + [a3];
  }

  /**
    "Reserved implies approved" fails: an edit reads a pending listing, the listing is approved and reserved, and
    then the edit is written.
  */
  lemma ReservedButPending(l: Id, owner: Id, fold: Fold)
    ensures exists acts :: var s := Exec(acts, fold); l in s.rows && s.rows[l].head.availability.Reserved? && s.rows[l].head.status.Pending?
  {
    var acts := Illustrated(l, owner, fold);
    var s0 := Exec(acts, fold);
    StoredWishesRevalidate(s0.rows[l].head.operation, s0.rows[l].wishes, fold);
    hide ValidateTradeWishes, WishesFit, Exec;
    var m1, r, q := TwoRead(acts, l, Editing(owner, EditInput(Some(1), None, None, None)), Approving(s0.rows[l].head.rev), fold);
    var read := acts + m1;
    var m2 := Writes(read, q, l, fold);
    var reserve := OnRow(DoReserve(l));
    ExecStep(read + m2, reserve, fold);
    var m3 := Writes(read + m2 + [reserve], r, l, fold);
  }
}
