/** The administrator's counters: Catalog adds up a grouped query, the web refuses counters that do not add up. */
module AdminSummary {
  import opened Wrappers
  import opened Catalog
  import EventContract

  datatype Category = Category(status: ListingStatus, operation: OperationType, availability: Availability)

  /** One row of the grouped query. */
  datatype Group = Group(category: Category, count: nat)

  datatype Counter =
    | Total | PendingOnes | ApprovedOnes | RejectedOnes | Donations | Trades | AvailableOnes | ReservedOnes | CompletedOnes

  datatype Summary = Summary(total: int, pending: int, approved: int, rejected: int, donations: int, trades: int,
                             available: int, reserved: int, completed: int)

  function Value(s: Summary, k: Counter): int {
    match k
    case Total => s.total
    case PendingOnes => s.pending
    case ApprovedOnes => s.approved
    case RejectedOnes => s.rejected
    case Donations => s.donations
    case Trades => s.trades
    case AvailableOnes => s.available
    case ReservedOnes => s.reserved
    case CompletedOnes => s.completed
  }

  // ----- Direct counting

  predicate CountsFor(c: Category, k: Counter) {
    match k
    case Total => true
    case PendingOnes => c.status.Pending?
    case ApprovedOnes => c.status.Approved?
    case RejectedOnes => c.status.Rejected?
    case Donations => c.operation.Donation?
    case Trades => c.operation.Trade?
    case AvailableOnes => c.status.Approved? && c.availability.Available?
    case ReservedOnes => c.status.Approved? && c.availability.Reserved?
    case CompletedOnes => c.status.Approved? && c.availability.Completed?
  }

  /** How many listings the counter is about, one listing at a time. */
  function Direct(listings: seq<Category>, k: Counter): nat {
    if listings == [] then 0 else (if CountsFor(listings[0], k) then 1 else 0) + Direct(listings[1..], k)
  }

  function Occurrences(listings: seq<Category>, c: Category): nat {
    if listings == [] then 0 else (if listings[0] == c then 1 else 0) + Occurrences(listings[1..], c)
  }

  /** What `groupBy` with `_count` returns, in some order: one row for each category present, with its size. */
  ghost predicate GroupsOf(rows: seq<Group>, listings: seq<Category>) {
    && (forall i :: 0 <= i < |rows| ==> rows[i].count == Occurrences(listings, rows[i].category))
    && (forall i, j :: 0 <= i < j < |rows| ==> rows[i].category != rows[j].category)
    && (forall c :: Occurrences(listings, c) > 0 ==> exists i :: 0 <= i < |rows| && rows[i].category == c)
  }

  function Grouped(rows: seq<Group>, n: nat, k: Counter): nat
    requires n <= |rows|
  {
    if n == 0 then 0 else Grouped(rows, n - 1, k) + if CountsFor(rows[n - 1].category, k) then rows[n - 1].count else 0
  }

  function Without(listings: seq<Category>, c: Category): seq<Category> {
    if listings == [] then [] else (if listings[0] == c then [] else [listings[0]]) + Without(listings[1..], c)
  }

  lemma {:induction false} WithoutCounts(listings: seq<Category>, c: Category, k: Counter)
    ensures Direct(listings, k) == Direct(Without(listings, c), k) + (if CountsFor(c, k) then Occurrences(listings, c) else 0)
  {
    if listings != [] {
      WithoutCounts(listings[1..], c, k);
      var rest := Without(listings[1..], c);
      assert ([listings[0]] + rest)[1..] == rest && [] + rest == rest;
    }
  }

  lemma {:induction false} WithoutOccurrences(listings: seq<Category>, c: Category, d: Category)
    ensures Occurrences(Without(listings, c), d) == if c == d then 0 else Occurrences(listings, d)
  {
    if listings != [] {
      WithoutOccurrences(listings[1..], c, d);
      var rest := Without(listings[1..], c);
      assert ([listings[0]] + rest)[1..] == rest && [] + rest == rest;
    }
  }

  lemma GroupsWithoutLast(rows: seq<Group>, listings: seq<Category>)
    requires GroupsOf(rows, listings) && rows != []
    ensures GroupsOf(rows[..|rows| - 1], Without(listings, rows[|rows| - 1].category))
  {
    var last := rows[|rows| - 1].category;
    var rest := rows[..|rows| - 1];
    var others := Without(listings, last);
    forall c
      ensures Occurrences(others, c) == if c == last then 0 else Occurrences(listings, c)
    {
      WithoutOccurrences(listings, last, c);
    }
    forall c | Occurrences(others, c) > 0
      ensures exists i :: 0 <= i < |rest| && rest[i].category == c
    {
      var i :| 0 <= i < |rows| && rows[i].category == c;
      assert rest[i].category == c;
    }
  }

  lemma {:induction false} GroupedPrefix(rows: seq<Group>, n: nat, k: Counter)
    requires n < |rows|
    ensures Grouped(rows[..|rows| - 1], n, k) == Grouped(rows, n, k)
  {
    if n > 0 {
      GroupedPrefix(rows, n - 1, k);
    }
  }

  lemma HeadOccurs(listings: seq<Category>)
    requires listings != []
    ensures exists c :: Occurrences(listings, c) > 0
  {
    assert Occurrences(listings, listings[0]) > 0;
  }

  /** Adding up groups is counting listings. */
  lemma {:induction false} GroupedIsDirect(rows: seq<Group>, listings: seq<Category>, k: Counter)
    requires GroupsOf(rows, listings)
    ensures Grouped(rows, |rows|, k) == Direct(listings, k)
  {
    if rows == [] {
      if listings != [] {
        HeadOccurs(listings);
      }
    } else {
      var last := rows[|rows| - 1];
      GroupsWithoutLast(rows, listings);
      GroupedIsDirect(rows[..|rows| - 1], Without(listings, last.category), k);
      GroupedPrefix(rows, |rows| - 1, k);
      WithoutCounts(listings, last.category, k);
    }
  }

  /** `adminCatalogSummary`: whatever the order of the groups, each counter is the direct count. */
  method AdminCatalogSummary(rows: seq<Group>, ghost listings: seq<Category>) returns (result: Summary)
    requires GroupsOf(rows, listings)
    ensures forall k :: Value(result, k) == Direct(listings, k)
  {
    hide Direct, Occurrences, GroupsOf;
    var total, pending, approved, rejected := 0, 0, 0, 0;
    var donations, trades, available, reserved, completed := 0, 0, 0, 0, 0;
    for i := 0 to |rows|
      invariant total == Grouped(rows, i, Total)
      invariant pending == Grouped(rows, i, PendingOnes) && approved == Grouped(rows, i, ApprovedOnes) && rejected == Grouped(rows, i, RejectedOnes)
      invariant donations == Grouped(rows, i, Donations) && trades == Grouped(rows, i, Trades)
      invariant available == Grouped(rows, i, AvailableOnes) && reserved == Grouped(rows, i, ReservedOnes) && completed == Grouped(rows, i, CompletedOnes)
    {
      var c, count := rows[i].category, rows[i].count;
      total := total + count;
      if c.status.Pending? { pending := pending + count; }
      if c.status.Approved? { approved := approved + count; }
      if c.status.Rejected? { rejected := rejected + count; }
      if c.operation.Donation? {
        donations := donations + count;
      } else {
        trades := trades + count;
      }
      if c.status.Approved? {
        if c.availability.Available? { available := available + count; }
        if c.availability.Reserved? { reserved := reserved + count; }
        if c.availability.Completed? { completed := completed + count; }
      }
    }
    result := Summary(total, pending, approved, rejected, donations, trades, available, reserved, completed);
    forall k
      ensures Value(result, k) == Direct(listings, k)
    {
      GroupedIsDirect(rows, listings, k);
    }
  }

  lemma {:induction false} DirectLast(listings: seq<Category>, k: Counter)
    requires listings != []
    ensures Direct(listings, k) == Direct(listings[..|listings| - 1], k) + if CountsFor(listings[|listings| - 1], k) then 1 else 0
  {
    if |listings| > 1 {
      DirectLast(listings[1..], k);
      assert listings[1..][..|listings| - 2] == listings[..|listings| - 1][1..];
    }
  }

  /** What one more listing adds to each field of a summary that counts directly, from all zeros for none. */
  lemma OneMoreListing(listings: seq<Category>, c: Category, before: Summary, after: Summary)
    requires forall k :: Value(before, k) == Direct(listings, k) && Value(after, k) == Direct(listings + [c], k)
    ensures listings == [] ==> before == Summary(0, 0, 0, 0, 0, 0, 0, 0, 0)
    ensures after == Summary(
              before.total + 1,
              before.pending + (if c.status.Pending? then 1 else 0),
              before.approved + (if c.status.Approved? then 1 else 0),
              before.rejected + (if c.status.Rejected? then 1 else 0),
              before.donations + (if c.operation.Donation? then 1 else 0),
              before.trades + (if c.operation.Trade? then 1 else 0),
              before.available + (if c.status.Approved? && c.availability.Available? then 1 else 0),
              before.reserved + (if c.status.Approved? && c.availability.Reserved? then 1 else 0),
              before.completed + (if c.status.Approved? && c.availability.Completed? then 1 else 0))
  {
    assert (listings + [c])[..|listings|] == listings;
    forall k
      ensures Value(after, k) == Value(before, k) + if CountsFor(c, k) then 1 else 0
      ensures listings == [] ==> Value(before, k) == 0
    {
      DirectLast(listings + [c], k);
    }
    hide Direct;
    assert Value(before, PendingOnes) == before.pending && Value(before, ApprovedOnes) == before.approved;
    assert Value(before, RejectedOnes) == before.rejected && Value(before, Total) == before.total;
    assert Value(before, Donations) == before.donations && Value(before, Trades) == before.trades;
    assert Value(before, AvailableOnes) == before.available && Value(before, ReservedOnes) == before.reserved;
    assert Value(before, CompletedOnes) == before.completed;
  }

  // ----- The web's check

  const MAX_SAFE_INTEGER := 0x1F_FFFF_FFFF_FFFF

  type Json = EventContract.Json

  /** `object?.field`, where None is undefined. */
  function Field(j: Option<Json>, field: string): Option<Json> {
    if j.Some? && j.value.Object? && field in j.value.fields then Some(j.value.fields[field]) else None
  }

  /** A safe, non-negative integer. Sums of up to three of them compare exactly with a fourth in double precision too. */
  predicate IsCount(j: Option<Json>) {
    && j.Some? && j.value.Number?
    && j.value.number == j.value.number.Floor as real && 0.0 <= j.value.number <= MAX_SAFE_INTEGER as real
  }

  function CountOf(j: Option<Json>): int
    requires IsCount(j)
  {
    j.value.number.Floor
  }

  predicate AddsUp(s: Summary) {
    && s.pending + s.approved + s.rejected == s.total
    && s.donations + s.trades == s.total
    && s.available + s.reserved + s.completed == s.approved
  }

  datatype SummaryError = Malformed | Inconsistent

  /** Where the web looks for each counter. */
  function Read(input: Json, k: Counter): Option<Json> {
    var j := Some(input);
    var status, operation, availability := Field(j, "byStatus"), Field(j, "byOperation"), Field(j, "approvedAvailability");
    match k
    case Total => Field(j, "total")
    case PendingOnes => Field(status, "pending")
    case ApprovedOnes => Field(status, "approved")
    case RejectedOnes => Field(status, "rejected")
    case Donations => Field(operation, "donations")
    case Trades => Field(operation, "trades")
    case AvailableOnes => Field(availability, "available")
    case ReservedOnes => Field(availability, "reserved")
    case CompletedOnes => Field(availability, "completed")
  }

  function Count(input: Json, k: Counter): int
    requires IsCount(Read(input, k))
  {
    CountOf(Read(input, k))
  }

  function ParseAdminCatalogSummary(input: Json): Result<Summary, SummaryError> {
    if !input.Object? && !input.Array? then Err(Malformed)
    else if exists k :: !IsCount(Read(input, k)) then Err(Malformed)
    else
      var s := Summary(Count(input, Total), Count(input, PendingOnes), Count(input, ApprovedOnes), Count(input, RejectedOnes),
                       Count(input, Donations), Count(input, Trades),
                       Count(input, AvailableOnes), Count(input, ReservedOnes), Count(input, CompletedOnes));
      if AddsUp(s) then Ok(s) else Err(Inconsistent)
  }

  function Num(n: int): Json {
    EventContract.Number(n as real)
  }

  /** The response body. */
  function Render(s: Summary): Json {
    EventContract.Object(map[
      "total" := Num(s.total),
      "byStatus" := EventContract.Object(map["pending" := Num(s.pending), "approved" := Num(s.approved), "rejected" := Num(s.rejected)]),
      "byOperation" := EventContract.Object(map["donations" := Num(s.donations), "trades" := Num(s.trades)]),
      "approvedAvailability" := EventContract.Object(map[
        "available" := Num(s.available), "reserved" := Num(s.reserved), "completed" := Num(s.completed)])])
  }

  predicate InRange(n: int) {
    0 <= n <= MAX_SAFE_INTEGER
  }

  predicate AllInRange(s: Summary) {
    forall k :: InRange(Value(s, k))
  }

  lemma NumCounts(n: int)
    ensures IsCount(Some(Num(n))) <==> InRange(n)
    ensures InRange(n) ==> CountOf(Some(Num(n))) == n
  {
  }

  lemma CountIs(j: Option<Json>, n: int)
    ensures IsCount(j) && CountOf(j) == n <==> j == Some(Num(n)) && 0 <= n <= 9_007_199_254_740_991
  {
  }

  predicate Holds(j: Option<Json>, field: string, n: int) {
    j.Some? && j.value.Object? && field in j.value.fields && j.value.fields[field] == EventContract.Number(n as real)
  }

  /** The response the web takes for this summary, field by field: safe integers that add up three ways. */
  predicate IsResponse(input: Json, s: Summary) {
    && Holds(Some(input), "total", s.total)
    && Holds(Field(Some(input), "byStatus"), "pending", s.pending)
    && Holds(Field(Some(input), "byStatus"), "approved", s.approved)
    && Holds(Field(Some(input), "byStatus"), "rejected", s.rejected)
    && Holds(Field(Some(input), "byOperation"), "donations", s.donations)
    && Holds(Field(Some(input), "byOperation"), "trades", s.trades)
    && Holds(Field(Some(input), "approvedAvailability"), "available", s.available)
    && Holds(Field(Some(input), "approvedAvailability"), "reserved", s.reserved)
    && Holds(Field(Some(input), "approvedAvailability"), "completed", s.completed)
  }

  lemma ResponseHoldsCounts(input: Json, s: Summary)
    ensures IsResponse(input, s) <==> forall k :: Read(input, k) == Some(Num(Value(s, k)))
  {
    if forall k :: Read(input, k) == Some(Num(Value(s, k))) {
      assert Read(input, Total) == Some(Num(Value(s, Total)));
      assert Read(input, PendingOnes) == Some(Num(Value(s, PendingOnes)));
      assert Read(input, ApprovedOnes) == Some(Num(Value(s, ApprovedOnes)));
      assert Read(input, RejectedOnes) == Some(Num(Value(s, RejectedOnes)));
      assert Read(input, Donations) == Some(Num(Value(s, Donations)));
      assert Read(input, Trades) == Some(Num(Value(s, Trades)));
      assert Read(input, AvailableOnes) == Some(Num(Value(s, AvailableOnes)));
      assert Read(input, ReservedOnes) == Some(Num(Value(s, ReservedOnes)));
      assert Read(input, CompletedOnes) == Some(Num(Value(s, CompletedOnes)));
    }
  }

  /** The check takes a response for a summary exactly when it holds its nine counters, each a safe integer, and they add up. */
  lemma ResponseTakenIff(input: Json, s: Summary)
    ensures ParseAdminCatalogSummary(input) == Ok(s) <==>
            && IsResponse(input, s) && (forall k :: 0 <= Value(s, k) <= 9_007_199_254_740_991)
            && s.pending + s.approved + s.rejected == s.total && s.donations + s.trades == s.total
            && s.available + s.reserved + s.completed == s.approved
  {
    ResponseHoldsCounts(input, s);
    forall k
      ensures IsCount(Read(input, k)) && Count(input, k) == Value(s, k) <==>
              Read(input, k) == Some(Num(Value(s, k))) && 0 <= Value(s, k) <= 9_007_199_254_740_991
    {
      CountIs(Read(input, k), Value(s, k));
    }
    assert IsResponse(input, s) ==> input.Object?;
    TakenIffCounts(input, s);
    hide ParseAdminCatalogSummary, Read, IsCount, Count, IsResponse, Num, Value;
  }

  lemma TakenIffCounts(input: Json, s: Summary)
    ensures ParseAdminCatalogSummary(input) == Ok(s) <==>
            (input.Object? || input.Array?) && (forall k :: IsCount(Read(input, k)) && Count(input, k) == Value(s, k)) && AddsUp(s)
  {
    hide Read, IsCount, Count, AddsUp;
    if forall k :: IsCount(Read(input, k)) {
      assert Value(s, Total) == s.total && Value(s, PendingOnes) == s.pending && Value(s, ApprovedOnes) == s.approved;
      assert Value(s, RejectedOnes) == s.rejected && Value(s, Donations) == s.donations && Value(s, Trades) == s.trades;
      assert Value(s, AvailableOnes) == s.available && Value(s, ReservedOnes) == s.reserved && Value(s, CompletedOnes) == s.completed;
    }
  }

  lemma RenderedWhereRead(s: Summary, k: Counter)
    ensures Read(Render(s), k) == Some(Num(Value(s, k)))
  {
    hide Num;
  }

  /** The web takes a rendered summary, and takes it unchanged, exactly when it adds up and every counter is in range. */
  lemma ParsesIff(s: Summary)
    ensures if AllInRange(s) && AddsUp(s) then ParseAdminCatalogSummary(Render(s)) == Ok(s) else ParseAdminCatalogSummary(Render(s)).Err?
  {
    var input := Render(s);
    assert input.Object?;
    forall k
      ensures IsCount(Read(input, k)) <==> InRange(Value(s, k))
      ensures InRange(Value(s, k)) ==> Count(input, k) == Value(s, k)
    {
      RenderedWhereRead(s, k);
      NumCounts(Value(s, k));
    }
    hide Render, Read, IsCount, Count, CountOf, InRange;
    if AllInRange(s) {
      assert forall k :: IsCount(Read(input, k)) && Count(input, k) == Value(s, k);
      hide AllInRange;
    }
  }

  lemma {:induction false} DirectCountsAddUp(listings: seq<Category>)
    ensures Direct(listings, PendingOnes) + Direct(listings, ApprovedOnes) + Direct(listings, RejectedOnes) == Direct(listings, Total) == |listings|
    ensures Direct(listings, Donations) + Direct(listings, Trades) == Direct(listings, Total)
    ensures Direct(listings, AvailableOnes) + Direct(listings, ReservedOnes) + Direct(listings, CompletedOnes) == Direct(listings, ApprovedOnes)
  {
    if listings != [] {
      DirectCountsAddUp(listings[1..]);
    }
  }

  lemma {:induction false} DirectAtMostAll(listings: seq<Category>, k: Counter)
    ensures Direct(listings, k) <= |listings|
  {
    if listings != [] {
      DirectAtMostAll(listings[1..], k);
    }
  }

  /** For every collection of listings the web accepts what Catalog counts, up to the largest number it can hold. */
  lemma SummaryIsAccepted(listings: seq<Category>, s: Summary)
    requires forall k :: Value(s, k) == Direct(listings, k)
    ensures if |listings| <= 9_007_199_254_740_991 then ParseAdminCatalogSummary(Render(s)) == Ok(s) else ParseAdminCatalogSummary(Render(s)).Err?
  {
    hide ParseAdminCatalogSummary, Render;
    DirectCountsAddUp(listings);
    forall k
      ensures 0 <= Value(s, k) <= |listings|
    {
      DirectAtMostAll(listings, k);
    }
    assert Value(s, Total) == s.total && Value(s, PendingOnes) == s.pending && Value(s, ApprovedOnes) == s.approved;
    assert Value(s, RejectedOnes) == s.rejected && Value(s, Donations) == s.donations && Value(s, Trades) == s.trades;
    assert Value(s, AvailableOnes) == s.available && Value(s, ReservedOnes) == s.reserved && Value(s, CompletedOnes) == s.completed;
    ParsesIff(s);
  }

  /** Fail closed: no summary the web accepts differs from another in a single counter. */
  lemma OneWrongCounterIsRefused(s: Summary, u: Summary, k: Counter)
    requires ParseAdminCatalogSummary(Render(s)).Ok?
    requires Value(u, k) != Value(s, k) && forall j :: j != k ==> Value(u, j) == Value(s, j)
    ensures ParseAdminCatalogSummary(Render(u)).Err?
  {
    hide ParseAdminCatalogSummary, Render;
    ParsesIff(s);
    ParsesIff(u);
    hide AllInRange;
    assert forall j :: j != k ==> Value(u, j) == Value(s, j);
    assert Value(s, Total) == s.total && Value(s, PendingOnes) == s.pending && Value(s, ApprovedOnes) == s.approved;
    assert Value(s, RejectedOnes) == s.rejected && Value(s, Donations) == s.donations && Value(s, Trades) == s.trades;
    assert Value(s, AvailableOnes) == s.available && Value(s, ReservedOnes) == s.reserved && Value(s, CompletedOnes) == s.completed;
    assert Value(u, Total) == u.total && Value(u, PendingOnes) == u.pending && Value(u, ApprovedOnes) == u.approved;
    assert Value(u, RejectedOnes) == u.rejected && Value(u, Donations) == u.donations && Value(u, Trades) == u.trades;
    assert Value(u, AvailableOnes) == u.available && Value(u, ReservedOnes) == u.reserved && Value(u, CompletedOnes) == u.completed;
  }
}
