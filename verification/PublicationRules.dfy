/**
  What a publication must contain, written twice in the system: Catalog's rules, and the check the web form runs
  before it sends anything. `fold` stands for `toLowerCase`; nothing is assumed about it.
*/
module PublicationRules {
  import opened Wrappers
  import opened Catalog
  import opened Text

  const MIN_LISTING_IMAGES := 5
  const MAX_LISTING_IMAGES := 8
  const MIN_TRADE_WISHES := 5
  const MAX_TRADE_WISHES := 10

  type Fold = string -> string

  // ----- Catalog: normalisation

  /** Wish `i` says something that no wish before it says. */
  predicate IsFirst(wishes: seq<string>, fold: Fold, i: nat)
    requires i < |wishes|
  {
    && NonBlank(wishes[i])
    && forall j :: 0 <= j < i && NonBlank(wishes[j]) ==> fold(Trim(wishes[j])) != fold(Trim(wishes[i]))
  }

  /** The trimmed first occurrences among the first `n` wishes, in order. */
  function FirstOccurrences(wishes: seq<string>, fold: Fold, n: nat): seq<string>
    requires n <= |wishes|
  {
    if n == 0 then []
    else FirstOccurrences(wishes, fold, n - 1) + if IsFirst(wishes, fold, n - 1) then [Trim(wishes[n - 1])] else []
  }

  function Normalized(wishes: seq<string>, fold: Fold): seq<string> {
    FirstOccurrences(wishes, fold, |wishes|)
  }

  /** What the first `n` wishes say, whatever their case and outer spaces. */
  function Meanings(wishes: seq<string>, fold: Fold, n: nat): set<string>
    requires n <= |wishes|
  {
    set j | 0 <= j < n && NonBlank(wishes[j]) :: fold(Trim(wishes[j]))
  }

  method NormalizeTradeWishes(wishes: seq<string>, fold: Fold) returns (normalized: seq<string>)
    ensures normalized == Normalized(wishes, fold)
  {
    hide Trim;
    normalized := [];
    var seen: set<string> := {};
    for i := 0 to |wishes|
      invariant seen == Meanings(wishes, fold, i)
      invariant normalized == FirstOccurrences(wishes, fold, i)
    {
      MeaningsGrow(wishes, fold, i);
      var wish := Trim(wishes[i]);
      if wish == "" {
        continue;
      }
      var key := fold(wish);
      if key in seen {
        continue;
      }
      seen := seen + {key};
      normalized := normalized + [wish];
    }
  }

  lemma MeaningsGrow(wishes: seq<string>, fold: Fold, n: nat)
    requires n < |wishes|
    ensures Meanings(wishes, fold, n + 1) == Meanings(wishes, fold, n) + (if NonBlank(wishes[n]) then {fold(Trim(wishes[n]))} else {})
    ensures IsFirst(wishes, fold, n) <==> NonBlank(wishes[n]) && fold(Trim(wishes[n])) !in Meanings(wishes, fold, n)
  {
    hide Trim;
  }

  lemma OccurrencesGrow(wishes: seq<string>, fold: Fold, n: nat)
    requires n < |wishes|
    ensures IsFirst(wishes, fold, n) ==> FirstOccurrences(wishes, fold, n + 1) == FirstOccurrences(wishes, fold, n) + [Trim(wishes[n])]
    ensures !IsFirst(wishes, fold, n) ==> FirstOccurrences(wishes, fold, n + 1) == FirstOccurrences(wishes, fold, n)
  {
    hide Trim, IsFirst;
  }

  /** Trimmed, non-blank and saying different things: nothing left to normalise. */
  predicate Clean(wishes: seq<string>, fold: Fold) {
    && (forall i :: 0 <= i < |wishes| ==> wishes[i] != "" && Trim(wishes[i]) == wishes[i])
    && (forall i, j :: 0 <= i < j < |wishes| ==> fold(wishes[i]) != fold(wishes[j]))
  }

  /** A clean list that says each of these things once, and nothing else. */
  predicate Covers(r: seq<string>, meanings: set<string>, fold: Fold) {
    Clean(r, fold) && |r| == |meanings| && forall k :: 0 <= k < |r| ==> fold(r[k]) in meanings
  }

  lemma OneMoreOccurrence(r: seq<string>, meanings: set<string>, wish: string, fold: Fold)
    requires Covers(r, meanings, fold) && NonBlank(wish) && fold(Trim(wish)) !in meanings
    ensures Covers(r + [Trim(wish)], meanings + {fold(Trim(wish))}, fold)
  {
    TrimIdempotent(wish);
    hide Trim;
  }

  /** Normalising loses no meaning, keeps one wish for each, and leaves nothing to normalise. */
  lemma {:induction false} OccurrencesAreClean(wishes: seq<string>, fold: Fold, n: nat)
    requires n <= |wishes|
    ensures Covers(FirstOccurrences(wishes, fold, n), Meanings(wishes, fold, n), fold)
  {
    hide Trim, IsFirst, FirstOccurrences, Meanings, Covers, NonBlank;
    if n == 0 {
      NothingCovers(wishes, fold);
    } else {
      OccurrencesAreClean(wishes, fold, n - 1);
      MeaningsGrow(wishes, fold, n - 1);
      OccurrencesGrow(wishes, fold, n - 1);
      var before := Meanings(wishes, fold, n - 1);
      if IsFirst(wishes, fold, n - 1) {
        OneMoreOccurrence(FirstOccurrences(wishes, fold, n - 1), before, wishes[n - 1], fold);
      } else {
        assert Meanings(wishes, fold, n) == before;
      }
    }
  }

  /** The wishes kept are the trims of the wishes that say something first, in their order, and all of these. */
  lemma {:induction false} OccurrencesInOrder(wishes: seq<string>, fold: Fold, n: nat) returns (indices: seq<nat>)
    requires n <= |wishes|
    ensures |FirstOccurrences(wishes, fold, n)| == |indices|
    ensures forall k :: 0 <= k < |indices| ==> indices[k] < n && FirstOccurrences(wishes, fold, n)[k] == Trim(wishes[indices[k]])
    ensures forall j, k :: 0 <= j < k < |indices| ==> indices[j] < indices[k]
    ensures forall i :: 0 <= i < n ==> (i in indices <==> IsFirst(wishes, fold, i))
  {
    hide Trim, IsFirst, FirstOccurrences;
    if n == 0 {
      indices := [];
      NothingCovers(wishes, fold);
    } else {
      OccurrencesGrow(wishes, fold, n - 1);
      indices := OccurrencesInOrder(wishes, fold, n - 1);
      if IsFirst(wishes, fold, n - 1) {
        indices := indices + [n - 1];
      }
    }
  }

  lemma NothingCovers(wishes: seq<string>, fold: Fold)
    ensures FirstOccurrences(wishes, fold, 0) == []
    ensures Covers(FirstOccurrences(wishes, fold, 0), Meanings(wishes, fold, 0), fold)
  {
    hide Trim;
    assert Meanings(wishes, fold, 0) == {};
  }

  lemma {:induction false} CleanStays(wishes: seq<string>, fold: Fold, n: nat)
    requires n <= |wishes| && Clean(wishes, fold)
    ensures FirstOccurrences(wishes, fold, n) == wishes[..n]
  {
    hide Trim;
    if n > 0 {
      CleanStays(wishes, fold, n - 1);
      assert IsFirst(wishes, fold, n - 1);
    }
  }

  /** The fixpoints of normalisation are exactly the clean lists, and normalising always reaches one. */
  lemma NormalisationIsAFixpoint(wishes: seq<string>, fold: Fold)
    ensures Normalized(wishes, fold) == wishes <==> Clean(wishes, fold)
    ensures Normalized(Normalized(wishes, fold), fold) == Normalized(wishes, fold)
    ensures |Normalized(wishes, fold)| == |Meanings(wishes, fold, |wishes|)|
  {
    hide Trim;
    var r := Normalized(wishes, fold);
    OccurrencesAreClean(wishes, fold, |wishes|);
    CleanStays(r, fold, |r|);
    if Clean(wishes, fold) {
      CleanStays(wishes, fold, |wishes|);
    }
  }

  // ----- Catalog: validation

  datatype RuleError = DonationWithWishes | TooFewWishes | TooManyWishes | WrongImageCount

  function ValidateTradeWishes(operation: OperationType, wishes: seq<string>, fold: Fold): Result<seq<string>, RuleError> {
    var normalized := Normalized(wishes, fold);
    if operation.Donation? then (if |normalized| > 0 then Err(DonationWithWishes) else Ok([]))
    else if |normalized| < MIN_TRADE_WISHES then Err(TooFewWishes)
    else if |normalized| > MAX_TRADE_WISHES then Err(TooManyWishes)
    else Ok(normalized)
  }

  function ValidatePublicationAssets(operation: OperationType, imageCount: int, wishes: seq<string>, fold: Fold): Result<seq<string>, RuleError> {
    if imageCount < MIN_LISTING_IMAGES || imageCount > MAX_LISTING_IMAGES then Err(WrongImageCount)
    else ValidateTradeWishes(operation, wishes, fold)
  }

  /** The rule for stored wishes: none for a donation, five to ten clean ones for a trade. */
  predicate WishesFit(operation: OperationType, wishes: seq<string>, fold: Fold) {
    match operation
    case Donation => wishes == []
    case Trade => MIN_TRADE_WISHES <= |wishes| <= MAX_TRADE_WISHES && Clean(wishes, fold)
  }

  /** Wishes pass exactly when they say nothing (donation) or five to ten different things (trade). */
  lemma WishesPassIff(operation: OperationType, wishes: seq<string>, fold: Fold)
    ensures var n := |Meanings(wishes, fold, |wishes|)|;
            ValidateTradeWishes(operation, wishes, fold).Ok? <==> if operation.Donation? then n == 0 else 5 <= n <= 10
  {
    NormalisationIsAFixpoint(wishes, fold);
    hide Normalized, Meanings;
  }

  /** What is published has five to eight images, eight included, and wishes that pass. */
  lemma PublicationPassesIff(operation: OperationType, imageCount: int, wishes: seq<string>, fold: Fold)
    ensures var n := |Meanings(wishes, fold, |wishes|)|;
            ValidatePublicationAssets(operation, imageCount, wishes, fold).Ok? <==>
              5 <= imageCount <= 8 && if operation.Donation? then n == 0 else 5 <= n <= 10
  {
    WishesPassIff(operation, wishes, fold);
    hide ValidateTradeWishes, Meanings;
  }

  /** What validation hands over for storage fits, and what fits validates to itself: approval never refuses stored wishes. */
  lemma StoredWishesRevalidate(operation: OperationType, wishes: seq<string>, fold: Fold)
    ensures ValidateTradeWishes(operation, wishes, fold).Ok? ==> WishesFit(operation, ValidateTradeWishes(operation, wishes, fold).value, fold)
    ensures WishesFit(operation, wishes, fold) <==> ValidateTradeWishes(operation, wishes, fold) == Ok(wishes)
  {
    NormalisationIsAFixpoint(wishes, fold);
    NormalisationIsAFixpoint(Normalized(wishes, fold), fold);
    NormalisationIsAFixpoint([], fold);
    hide Normalized, Clean;
  }

  // ----- Web: the draft check

  const MAX_IMAGE_SIZE := 5 * 1024 * 1024
  const IMAGE_TYPES := {"image/jpeg", "image/png", "image/webp"}

  datatype ListingInput = ListingInput(title: string, description: string, operation: OperationType, tradeWishes: seq<string>)

  datatype ImageCandidate = ImageCandidate(name: string, mime: string, size: nat)

  datatype DraftError = DraftImageCount | DraftImageType | DraftImageSize(name: string) | DraftWishes

  /** `.map(trim).filter(Boolean)` */
  function Spoken(wishes: seq<string>): seq<string> {
    if wishes == [] then [] else (if NonBlank(wishes[0]) then [Trim(wishes[0])] else []) + Spoken(wishes[1..])
  }

  function NormalizedListingInput(value: ListingInput): ListingInput {
    ListingInput(Trim(value.title), Trim(value.description), value.operation, if value.operation.Trade? then Spoken(value.tradeWishes) else [])
  }

  function FirstBadImage(images: seq<ImageCandidate>): Option<DraftError> {
    if images == [] then None
    else if images[0].mime !in IMAGE_TYPES then Some(DraftImageType)
    else if images[0].size > MAX_IMAGE_SIZE then Some(DraftImageSize(images[0].name))
    else FirstBadImage(images[1..])
  }

  function EffectiveImageCount(images: seq<ImageCandidate>, existing: int): int {
    if |images| > 0 then |images| else existing
  }

  function ValidatePublicationDraft(value: ListingInput, images: seq<ImageCandidate>, existing: int, fold: Fold): Option<DraftError> {
    var count := EffectiveImageCount(images, existing);
    if count < MIN_LISTING_IMAGES || count > MAX_LISTING_IMAGES then Some(DraftImageCount)
    else if FirstBadImage(images).Some? then FirstBadImage(images)
    else if value.operation.Donation? then None
    else
      var spoken := Spoken(value.tradeWishes);
      var distinct := set i | 0 <= i < |spoken| :: fold(spoken[i]);
      if |distinct| < MIN_TRADE_WISHES || |distinct| > MAX_TRADE_WISHES then Some(DraftWishes) else None
  }

  // ----- The two halves agree

  lemma {:induction false} SpokenIsTrimmed(wishes: seq<string>)
    ensures forall i :: 0 <= i < |Spoken(wishes)| ==> Spoken(wishes)[i] != "" && Trim(Spoken(wishes)[i]) == Spoken(wishes)[i]
  {
    hide Trim;
    if wishes != [] {
      SpokenIsTrimmed(wishes[1..]);
      TrimIdempotent(wishes[0]);
    }
  }

  lemma SpokenMeanings(wishes: seq<string>, fold: Fold)
    ensures var spoken := Spoken(wishes); Meanings(spoken, fold, |spoken|) == (set i | 0 <= i < |spoken| :: fold(spoken[i]))
  {
    hide Trim;
    SpokenIsTrimmed(wishes);
  }

  lemma MeaningsFromFront(wishes: seq<string>, fold: Fold)
    requires wishes != []
    ensures Meanings(wishes, fold, |wishes|) ==
            (if NonBlank(wishes[0]) then {fold(Trim(wishes[0]))} else {}) + Meanings(wishes[1..], fold, |wishes| - 1)
  {
    hide Trim;
    var rest := wishes[1..];
    assert forall j :: 0 <= j < |rest| ==> rest[j] == wishes[j + 1];
    assert forall j :: 0 < j < |wishes| ==> wishes[j] == rest[j - 1];
  }

  /** What is sent says what was typed, no more and no less. */
  lemma {:induction false} SpokenSays(wishes: seq<string>, fold: Fold)
    ensures var spoken := Spoken(wishes); Meanings(spoken, fold, |spoken|) == Meanings(wishes, fold, |wishes|)
  {
    if wishes != [] {
      var spoken, rest := Spoken(wishes), Spoken(wishes[1..]);
      SpokenSays(wishes[1..], fold);
      MeaningsFromFront(wishes, fold);
      if NonBlank(wishes[0]) {
        MeaningsFromFront(spoken, fold);
        TrimIdempotent(wishes[0]);
        assert spoken[0] == Trim(wishes[0]) && spoken[1..] == rest;
      } else {
        assert spoken == rest;
      }
    }
    hide Meanings, Trim;
  }

  lemma {:induction false} ImagesPassIff(images: seq<ImageCandidate>)
    ensures FirstBadImage(images).None? <==>
            forall i :: 0 <= i < |images| ==>
              && (images[i].mime == "image/jpeg" || images[i].mime == "image/png" || images[i].mime == "image/webp")
              && images[i].size <= 5_242_880
  {
    if images != [] {
      ImagesPassIff(images[1..]);
      assert forall i :: 0 < i < |images| ==> images[i] == images[1..][i - 1];
      assert forall i :: 0 <= i < |images[1..]| ==> images[1..][i] == images[i + 1];
    }
  }

  /** The wishes a draft sends pass Catalog's rule exactly when a trade says five to ten different things. */
  lemma SentWishesPassIff(value: ListingInput, fold: Fold)
    ensures ValidateTradeWishes(value.operation, NormalizedListingInput(value).tradeWishes, fold).Ok? <==>
            value.operation.Donation? || 5 <= |Meanings(value.tradeWishes, fold, |value.tradeWishes|)| <= 10
  {
    SpokenSays(value.tradeWishes, fold);
    WishesPassIff(value.operation, NormalizedListingInput(value).tradeWishes, fold);
    assert Meanings([], fold, 0) == {} by {
      NormalisationIsAFixpoint([], fold);
    }
    hide ValidateTradeWishes, Meanings, Spoken, Trim;
  }

  /**
    With photos selected the draft check looks at these alone, however many the listing has: it passes exactly when
    they are five to eight good ones, and Catalog's rules accept the wishes that will be sent. With none selected the
    listing's own have to be five to eight.
  */
  lemma WebAgreesWithCatalog(value: ListingInput, images: seq<ImageCandidate>, existing: int, fold: Fold)
    ensures var wishesPass := ValidateTradeWishes(value.operation, NormalizedListingInput(value).tradeWishes, fold).Ok?;
            ValidatePublicationDraft(value, images, existing, fold).None? <==>
              && wishesPass
              && if images == [] then 5 <= existing <= 8
                 else
                   && 5 <= |images| <= 8
                   && forall i :: 0 <= i < |images| ==>
                        && (images[i].mime == "image/jpeg" || images[i].mime == "image/png" || images[i].mime == "image/webp")
                        && images[i].size <= 5_242_880
  {
    hide Trim, FirstBadImage, Meanings;
    ImagesPassIff(images);
    SpokenMeanings(value.tradeWishes, fold);
    SpokenSays(value.tradeWishes, fold);
    SentWishesPassIff(value, fold);
    hide ValidateTradeWishes;
  }
}
