/**
  The two ways a listing is written in the browser, a wizard for a new one and a form for a correction, against what
  the server then accepts: its request schema and Catalog's rules. The browser measures texts in UTF-16 code units,
  the schema in characters; that, and trimming, is all the difference there is.
*/
module PublicationForm {
  import opened Wrappers
  import opened Catalog
  import opened Text
  import opened PublicationRules

  // ----- The server

  const MIN_TITLE := 3
  const MAX_TITLE := 120
  const MIN_DESCRIPTION := 10
  const MAX_DESCRIPTION := 2000
  const MAX_WISH := 120

  /** How the schema validator measures a text; its library is not part of this model. */
  type Measure = string -> nat

  /** Surrogate pairs and the like count less than their code units, never more; and trimming never adds. */
  ghost predicate Measures(len: Measure) {
    forall s :: len(s) <= Utf16Length(s) && len(Trim(s)) <= len(s)
  }

  predicate SchemaAccepts(input: ListingInput, len: Measure) {
    && MIN_TITLE <= len(input.title) <= MAX_TITLE
    && MIN_DESCRIPTION <= len(input.description) <= MAX_DESCRIPTION
    && |input.tradeWishes| <= MAX_TRADE_WISHES
    && forall i :: 0 <= i < |input.tradeWishes| ==> len(input.tradeWishes[i]) <= MAX_WISH
  }

  predicate ServerAccepts(input: ListingInput, len: Measure, fold: Fold) {
    SchemaAccepts(input, len) && ValidateTradeWishes(input.operation, input.tradeWishes, fold).Ok?
  }

  /** Counting characters is one such measure. */
  lemma CharactersMeasure()
    ensures Measures(s => |s|)
  {
    forall s: string
      ensures |s| <= Utf16Length(s) && |Trim(s)| <= |s|
    {
      CharactersAtMostUnits(s);
      TrimShortens(s);
    }
  }

  // ----- The fields both forms share

  function Repeat(n: nat): seq<string> {
    seq(n, i => "")
  }

  function PadWishes(wishes: seq<string>): seq<string> {
    if |wishes| >= MIN_TRADE_WISHES then (if |wishes| > MAX_TRADE_WISHES then wishes[..MAX_TRADE_WISHES] else wishes)
    else wishes + Repeat(MIN_TRADE_WISHES - |wishes|)
  }

  const BLANK := ListingInput("", "", Trade, Repeat(MIN_TRADE_WISHES))

  datatype FieldAction =
    | ChooseOperation(operation: OperationType) | TypeTitle(text: string) | TypeDescription(text: string)
    | TypeWish(index: nat, text: string) | AddWish | RemoveWish(index: nat)

  /** `maxLength` keeps a typed text from growing any longer. */
  predicate Typable(text: string, max: nat) {
    Utf16Length(text) <= max
  }

  function Fill(value: ListingInput, a: FieldAction): ListingInput {
    match a
    case ChooseOperation(operation) => value.(operation := operation, tradeWishes := if operation.Trade? then PadWishes(value.tradeWishes) else [])
    case TypeTitle(text) => if Typable(text, MAX_TITLE) then value.(title := text) else value
    case TypeDescription(text) => if Typable(text, MAX_DESCRIPTION) then value.(description := text) else value
    case TypeWish(i, text) =>
      if i < |value.tradeWishes| && Typable(text, MAX_WISH) then value.(tradeWishes := value.tradeWishes[i := text]) else value
    case AddWish => if value.operation.Trade? && |value.tradeWishes| < MAX_TRADE_WISHES then value.(tradeWishes := value.tradeWishes + [""]) else value
    case RemoveWish(i) =>
      if i < |value.tradeWishes| && |value.tradeWishes| > MIN_TRADE_WISHES
      then value.(tradeWishes := value.tradeWishes[..i] + value.tradeWishes[i + 1..]) else value
  }

  /** Five to ten slots for a trade, none for a donation. */
  predicate SlotsFit(value: ListingInput) {
    match value.operation
    case Donation => value.tradeWishes == []
    case Trade => MIN_TRADE_WISHES <= |value.tradeWishes| <= MAX_TRADE_WISHES
  }

  lemma FillKeepsSlots(value: ListingInput, a: FieldAction)
    requires SlotsFit(value)
    ensures SlotsFit(Fill(value, a))
    ensures Fill(value, a).operation.Trade? ==> 5 <= |Fill(value, a).tradeWishes| <= 10
  {
  }

  predicate AllShort(wishes: seq<string>, len: Measure) {
    forall i :: 0 <= i < |wishes| ==> len(wishes[i]) <= MAX_WISH
  }

  /** Nothing in the fields is longer than the schema allows. */
  predicate NoneTooLong(value: ListingInput, len: Measure) {
    len(value.title) <= MAX_TITLE && len(value.description) <= MAX_DESCRIPTION && AllShort(value.tradeWishes, len)
  }

  lemma PadKeepsShort(wishes: seq<string>, len: Measure)
    requires AllShort(wishes, len) && len("") <= MAX_WISH
    ensures AllShort(PadWishes(wishes), len) && AllShort(wishes + [""], len)
  {
    assert forall i :: 0 <= i < |wishes| ==> (wishes + [""])[i] == wishes[i];
    var padded := PadWishes(wishes);
    assert forall i :: 0 <= i < |padded| ==> padded[i] == if i < |wishes| then wishes[i] else "";
  }

  lemma RemovalKeepsShort(wishes: seq<string>, i: nat, len: Measure)
    requires AllShort(wishes, len) && i < |wishes|
    ensures AllShort(wishes[..i] + wishes[i + 1..], len)
  {
    var rest := wishes[..i] + wishes[i + 1..];
    assert forall k :: 0 <= k < |rest| ==> rest[k] == wishes[if k < i then k else k + 1];
  }

  lemma FillKeepsShort(value: ListingInput, a: FieldAction, len: Measure)
    requires Measures(len) && NoneTooLong(value, len)
    ensures NoneTooLong(Fill(value, a), len)
  {
    assert len("") <= Utf16Length("") == 0;
    PadKeepsShort(value.tradeWishes, len);
    match a
    case TypeTitle(text) => assert len(text) <= Utf16Length(text);
    case TypeDescription(text) => assert len(text) <= Utf16Length(text);
    case TypeWish(i, text) =>
      assert len(text) <= Utf16Length(text);
      assert i < |value.tradeWishes| && len(text) <= MAX_WISH ==> AllShort(value.tradeWishes[i := text], len);
    case RemoveWish(i) =>
      if i < |value.tradeWishes| {
        RemovalKeepsShort(value.tradeWishes, i, len);
      }
    case _ =>
    hide Measures, Utf16Length, AllShort, PadWishes;
  }

  // ----- What is sent

  /** Every wish that is sent is the trim of a slot. */
  lemma {:induction false} SpokenComesFromSlots(wishes: seq<string>, k: nat)
    requires k < |Spoken(wishes)|
    ensures |Spoken(wishes)| <= |wishes| && exists i :: 0 <= i < |wishes| && Spoken(wishes)[k] == Trim(wishes[i])
  {
    hide Trim;
    var head := NonBlank(wishes[0]);
    if head && k == 0 {
      assert Spoken(wishes)[0] == Trim(wishes[0]);
      SpokenIsShorter(wishes);
    } else {
      var j := if head then k - 1 else k;
      assert Spoken(wishes)[k] == Spoken(wishes[1..])[j];
      SpokenComesFromSlots(wishes[1..], j);
      var i :| 0 <= i < |wishes[1..]| && Spoken(wishes[1..])[j] == Trim(wishes[1..][i]);
      assert Spoken(wishes)[k] == Trim(wishes[i + 1]);
    }
  }

  lemma {:induction false} SpokenIsShorter(wishes: seq<string>)
    ensures |Spoken(wishes)| <= |wishes|
  {
    if wishes != [] {
      SpokenIsShorter(wishes[1..]);
    }
  }

  /** Of a draft within these bounds the schema refuses only what says too little. */
  lemma OnlyTooShort(value: ListingInput, len: Measure)
    requires Measures(len) && SlotsFit(value) && NoneTooLong(value, len)
    ensures SchemaAccepts(NormalizedListingInput(value), len) <==> len(Trim(value.title)) >= 3 && len(Trim(value.description)) >= 10
  {
    hide Trim, Utf16Length;
    var sent := NormalizedListingInput(value);
    assert len(Trim(value.title)) <= len(value.title) && len(Trim(value.description)) <= len(value.description);
    if value.operation.Trade? {
      SpokenIsShorter(value.tradeWishes);
      forall k | 0 <= k < |sent.tradeWishes|
        ensures len(sent.tradeWishes[k]) <= MAX_WISH
      {
        SpokenComesFromSlots(value.tradeWishes, k);
        var i :| 0 <= i < |value.tradeWishes| && Spoken(value.tradeWishes)[k] == Trim(value.tradeWishes[i]);
        assert len(Trim(value.tradeWishes[i])) <= len(value.tradeWishes[i]);
      }
    }
  }

  // ----- The wizard

  datatype StepError = BadTitle | BadDescription | BadWishes | BadPhotoCount | BadPhotoSize | BadDraft(reason: DraftError)

  /** `localFold` stands for `toLocaleLowerCase('fr')`. */
  function ValidateWizardStep(step: nat, value: ListingInput, images: seq<ImageCandidate>, localFold: Fold, fold: Fold): Option<StepError> {
    if step == 1 then
      if !(MIN_TITLE <= Utf16Length(Trim(value.title)) <= MAX_TITLE) then Some(BadTitle)
      else if !(MIN_DESCRIPTION <= Utf16Length(Trim(value.description)) <= MAX_DESCRIPTION) then Some(BadDescription)
      else if value.operation.Trade? && !WishesPrecise(Spoken(value.tradeWishes), localFold) then Some(BadWishes)
      else None
    else if step == 2 then
      if !(MIN_LISTING_IMAGES <= |images| <= MAX_LISTING_IMAGES) then Some(BadPhotoCount)
      else if exists i :: 0 <= i < |images| && (images[i].size > MAX_IMAGE_SIZE || images[i].size == 0) then Some(BadPhotoSize)
      else (match ValidatePublicationDraft(value, images, 0, fold) case Some(e) => Some(BadDraft(e)) case None => None)
    else None
  }

  predicate WishesPrecise(wishes: seq<string>, localFold: Fold) {
    && MIN_TRADE_WISHES <= |wishes| <= MAX_TRADE_WISHES
    && (forall i :: 0 <= i < |wishes| ==> Utf16Length(wishes[i]) <= MAX_WISH)
    && |set i | 0 <= i < |wishes| :: localFold(wishes[i])| == |wishes|
  }

  datatype Wizard = Wizard(step: nat, value: ListingInput, images: seq<ImageCandidate>)

  const FIRST_STEP := Wizard(0, BLANK, [])

  datatype WizardAction = Edit(field: FieldAction) | ChooseImages(files: seq<ImageCandidate>) | Continue | Back | StartOver

  /** Each field is shown at one step only. */
  predicate Shown(step: nat, a: FieldAction) {
    if a.ChooseOperation? then step == 0 else step == 1
  }

  function Advance(w: Wizard, a: WizardAction, localFold: Fold, fold: Fold): Wizard {
    match a
    case Edit(field) => if Shown(w.step, field) then w.(value := Fill(w.value, field)) else w
    case ChooseImages(files) =>
      if w.step == 2 then w.(images := if |files| > MAX_LISTING_IMAGES then files[..MAX_LISTING_IMAGES] else files) else w
    case Continue =>
      if w.step < 3 && ValidateWizardStep(w.step, w.value, w.images, localFold, fold).None? then w.(step := w.step + 1) else w
    case Back => if w.step > 0 then w.(step := w.step - 1) else w
    case StartOver => FIRST_STEP
  }

  function Steps(acts: seq<WizardAction>, localFold: Fold, fold: Fold): Wizard {
    if acts == [] then FIRST_STEP else Advance(Steps(acts[..|acts| - 1], localFold, fold), acts[|acts| - 1], localFold, fold)
  }

  /** Whatever was checked on the way to a step still holds there: going back and forth undoes no check. */
  predicate ChecksHold(w: Wizard, localFold: Fold, fold: Fold) {
    && w.step <= 3
    && (w.step >= 2 ==> ValidateWizardStep(1, w.value, w.images, localFold, fold).None?)
    && (w.step >= 3 ==> ValidateWizardStep(2, w.value, w.images, localFold, fold).None?)
  }

  lemma {:induction false} ChecksAreKept(acts: seq<WizardAction>, localFold: Fold, fold: Fold)
    ensures ChecksHold(Steps(acts, localFold, fold), localFold, fold)
  {
    hide Trim, Utf16Length, ValidatePublicationDraft, Fill, WishesPrecise;
    if acts != [] {
      ChecksAreKept(acts[..|acts| - 1], localFold, fold);
    }
  }

  /** The wizard's own bounds make the upper limits of the schema unreachable. */
  lemma CheckedIsShort(value: ListingInput, images: seq<ImageCandidate>, localFold: Fold, fold: Fold, len: Measure)
    requires Measures(len) && ValidateWizardStep(1, value, images, localFold, fold).None?
    ensures SchemaAccepts(NormalizedListingInput(value), len) <==> len(Trim(value.title)) >= 3 && len(Trim(value.description)) >= 10
  {
    hide Trim, Utf16Length;
    var sent := NormalizedListingInput(value);
    assert len(sent.title) <= Utf16Length(sent.title) && len(sent.description) <= Utf16Length(sent.description);
    forall k | 0 <= k < |sent.tradeWishes|
      ensures len(sent.tradeWishes[k]) <= MAX_WISH
    {
      assert len(sent.tradeWishes[k]) <= Utf16Length(sent.tradeWishes[k]);
    }
  }

  /**
    Whatever the user did in the wizard, at its last step the final check passes, and the server accepts what is
    sent exactly when title and description are still long enough counted its own way.
  */
  lemma WizardSubmitsExactly(acts: seq<WizardAction>, localFold: Fold, fold: Fold, len: Measure)
    requires Measures(len) && Steps(acts, localFold, fold).step == 3
    ensures var w := Steps(acts, localFold, fold);
            && ValidatePublicationDraft(w.value, w.images, 0, fold).None?
            && (ServerAccepts(NormalizedListingInput(w.value), len, fold) <==>
                  len(Trim(w.value.title)) >= 3 && len(Trim(w.value.description)) >= 10)
  {
    var w := Steps(acts, localFold, fold);
    ChecksAreKept(acts, localFold, fold);
    CheckedIsShort(w.value, w.images, localFold, fold, len);
    WebAgreesWithCatalog(w.value, w.images, 0, fold);
    hide Steps, Trim, Utf16Length, SchemaAccepts, WishesPrecise;
  }

  /** If the schema counted code units as the wizard does, the server would accept every submission. */
  lemma SameMeasureNeverRefuses(acts: seq<WizardAction>, localFold: Fold, fold: Fold)
    requires Steps(acts, localFold, fold).step == 3
    ensures ServerAccepts(NormalizedListingInput(Steps(acts, localFold, fold).value), Utf16Length, fold)
  {
    forall s: string
      ensures Utf16Length(Trim(s)) <= Utf16Length(s)
    {
      TrimShortens(s);
    }
    WizardSubmitsExactly(acts, localFold, fold, Utf16Length);
    ChecksAreKept(acts, localFold, fold);
    hide Steps, Trim, Utf16Length;
  }

  lemma AdvanceBy(acts: seq<WizardAction>, a: WizardAction, localFold: Fold, fold: Fold)
    ensures Steps(acts + [a], localFold, fold) == Advance(Steps(acts, localFold, fold), a, localFold, fold)
  {
    hide Advance;
    assert (acts + [a])[..|acts|] == acts;
  }

  const PHOTO := ImageCandidate("p", "image/png", 1)
  const FIVE_PHOTOS := [PHOTO, PHOTO, PHOTO, PHOTO, PHOTO]

  lemma PhotosPass(value: ListingInput, localFold: Fold, fold: Fold)
    requires value.operation.Donation?
    ensures ValidateWizardStep(2, value, FIVE_PHOTOS, localFold, fold).None?
  {
    ImagesPassIff(FIVE_PHOTOS);
    assert forall i :: 0 <= i < |FIVE_PHOTOS| ==> FIVE_PHOTOS[i] == PHOTO;
    assert PHOTO.mime in IMAGE_TYPES;
    hide FirstBadImage, IMAGE_TYPES, Spoken;
  }

  /** A donation described by these texts gets to the last step. */
  lemma DonationGetsThrough(title: string, description: string, localFold: Fold, fold: Fold) returns (acts: seq<WizardAction>)
    requires Utf16Length(title) <= MAX_TITLE && Utf16Length(description) <= MAX_DESCRIPTION
    requires Utf16Length(Trim(title)) >= MIN_TITLE && Utf16Length(Trim(description)) >= MIN_DESCRIPTION
    ensures Steps(acts, localFold, fold) == Wizard(3, ListingInput(title, description, Donation, []), FIVE_PHOTOS)
  {
    TrimShortens(title);
    TrimShortens(description);
    var value := ListingInput(title, description, Donation, []);
    PhotosPass(value, localFold, fold);
    assert ValidateWizardStep(1, value, [], localFold, fold).None?;
    var typed := FillIn(title, description, localFold, fold);
    hide Trim, Utf16Length, ValidateWizardStep, Steps;
    AdvanceBy(typed, Continue, localFold, fold);
    AdvanceBy(typed + [Continue], ChooseImages(FIVE_PHOTOS), localFold, fold);
    AdvanceBy(typed + [Continue] + [ChooseImages(FIVE_PHOTOS)], Continue, localFold, fold);
    acts := typed + [Continue] + [ChooseImages(FIVE_PHOTOS)] + [Continue];
  }

  lemma FillIn(title: string, description: string, localFold: Fold, fold: Fold) returns (acts: seq<WizardAction>)
    requires Utf16Length(title) <= MAX_TITLE && Utf16Length(description) <= MAX_DESCRIPTION
    ensures Steps(acts, localFold, fold) == Wizard(1, ListingInput(title, description, Donation, []), [])
  {
    var choice := Edit(ChooseOperation(Donation));
    AdvanceBy([], choice, localFold, fold);
    assert ValidateWizardStep(0, BLANK.(operation := Donation, tradeWishes := []), [], localFold, fold).None?;
    assert Steps([], localFold, fold) == FIRST_STEP && [] + [choice] == [choice];
    hide Trim, Utf16Length, ValidateWizardStep, Steps;
    AdvanceBy([choice], Continue, localFold, fold);
    AdvanceBy([choice] + [Continue], Edit(TypeTitle(title)), localFold, fold);
    AdvanceBy([choice] + [Continue] + [Edit(TypeTitle(title))], Edit(TypeDescription(description)), localFold, fold);
    acts := [choice] + [Continue] + [Edit(TypeTitle(title))] + [Edit(TypeDescription(description))];
  }

  /** Two sneakers, U+1F45F each. */
  const TWO_SHOES := "\U{1F45F}\U{1F45F}"

  lemma ShoesMeasure()
    ensures Trim(TWO_SHOES) == TWO_SHOES && Utf16Length(TWO_SHOES) == 4 && |TWO_SHOES| == 2
  {
    assert TWO_SHOES[1..] == "\U{1F45F}" && TWO_SHOES[1..][1..] == "";
    TrimOfTight(TWO_SHOES);
  }

  function Plain(n: nat): string {
    seq(n, i => 'x')
  }

  lemma PlainMeasure(n: nat)
    ensures Trim(Plain(n)) == Plain(n) && Utf16Length(Plain(n)) == n
  {
    var s := Plain(n);
    TrimOfTight(s);
    PlainUnits(s);
  }

  /** Where the schema draws its lines, in texts of so many plain characters and `wishes` wishes of `each`. */
  lemma SchemaEdges(title: nat, description: nat, wishes: nat, each: nat)
    ensures SchemaAccepts(ListingInput(Plain(title), Plain(description), Trade, seq(wishes, i => Plain(each))), s => |s|) <==>
            3 <= title <= 120 && 10 <= description <= 2000 && wishes <= 10 && (wishes == 0 || each <= 120)
  {
    var list := seq(wishes, i => Plain(each));
    assert forall i :: 0 <= i < wishes ==> |list[i]| == each;
    assert wishes > 0 ==> list[0] == Plain(each);
  }

  /** Where the wizard draws them, and that its photo step asks for what Catalog asks for. */
  lemma WizardEdges(title: nat, description: nat, value: ListingInput, images: seq<ImageCandidate>, localFold: Fold, fold: Fold)
    ensures ValidateWizardStep(1, ListingInput(Plain(title), Plain(description), Donation, []), images, localFold, fold).None? <==>
            3 <= title <= 120 && 10 <= description <= 2000
    ensures ValidateWizardStep(2, value, images, localFold, fold).None? <==>
            && 5 <= |images| <= 8
            && (forall i :: 0 <= i < |images| ==>
                  && (images[i].mime == "image/jpeg" || images[i].mime == "image/png" || images[i].mime == "image/webp")
                  && 0 < images[i].size <= 5_242_880)
            && (value.operation.Donation? || 5 <= |Meanings(value.tradeWishes, fold, |value.tradeWishes|)| <= 10)
  {
    PlainMeasure(title);
    PlainMeasure(description);
    WebAgreesWithCatalog(value, images, 0, fold);
    SentWishesPassIff(value, fold);
    hide Trim, Utf16Length, ValidatePublicationDraft, ValidateTradeWishes, Meanings;
  }

  /** "What the wizard submits, the server accepts" fails: two characters beyond the basic plane make four code units. */
  lemma WizardTitleRefused(localFold: Fold, fold: Fold)
    ensures exists acts ::
      Steps(acts, localFold, fold).step == 3 && !ServerAccepts(NormalizedListingInput(Steps(acts, localFold, fold).value), s => |s|, fold)
  {
    ShoesMeasure();
    PlainMeasure(MIN_DESCRIPTION);
    CharactersMeasure();
    hide Trim, Utf16Length, Steps, TWO_SHOES, Measures, ServerAccepts, ValidatePublicationDraft, NormalizedListingInput;
    var acts := DonationGetsThrough(TWO_SHOES, Plain(MIN_DESCRIPTION), localFold, fold);
    WizardSubmitsExactly(acts, localFold, fold, s => |s|);
  }

  lemma {:induction false} PlainUnits(s: string)
    requires forall i :: 0 <= i < |s| ==> s[i] == 'x'
    ensures Utf16Length(s) == |s|
  {
    if s != "" {
      PlainUnits(s[1..]);
    }
  }

  // ----- The correction form

  /** The form opens on the listing as stored. */
  function Opened(stored: ListingInput): ListingInput {
    stored.(tradeWishes := if stored.operation.Trade? then PadWishes(stored.tradeWishes) else [])
  }

  function Corrected(stored: ListingInput, acts: seq<FieldAction>): ListingInput {
    if acts == [] then Opened(stored) else Fill(Corrected(stored, acts[..|acts| - 1]), acts[|acts| - 1])
  }

  lemma {:induction false} CorrectionsStayInBounds(stored: ListingInput, acts: seq<FieldAction>, len: Measure)
    requires Measures(len) && SchemaAccepts(stored, len)
    ensures SlotsFit(Corrected(stored, acts)) && NoneTooLong(Corrected(stored, acts), len)
  {
    hide Trim, Utf16Length, Fill;
    if acts == [] {
      assert len("") <= Utf16Length("") == 0 by {
        EmptyIsShort();
      }
    } else {
      CorrectionsStayInBounds(stored, acts[..|acts| - 1], len);
      FillKeepsSlots(Corrected(stored, acts[..|acts| - 1]), acts[|acts| - 1]);
      FillKeepsShort(Corrected(stored, acts[..|acts| - 1]), acts[|acts| - 1], len);
    }
  }

  lemma EmptyIsShort()
    ensures Utf16Length("") == 0
  {
  }

  /**
    Whatever the user did in the form, a correction that passes its check is refused exactly when the trimmed title or
    description has become too short: the wishes and the upper bounds cannot be at fault.
  */
  lemma CorrectionAcceptedExactly(stored: ListingInput, acts: seq<FieldAction>, images: seq<ImageCandidate>, existing: int, len: Measure, fold: Fold)
    requires Measures(len) && SchemaAccepts(stored, len)
    requires ValidatePublicationDraft(Corrected(stored, acts), images, existing, fold).None?
    ensures var value := Corrected(stored, acts);
            ServerAccepts(NormalizedListingInput(value), len, fold) <==> len(Trim(value.title)) >= 3 && len(Trim(value.description)) >= 10
  {
    var value := Corrected(stored, acts);
    CorrectionsStayInBounds(stored, acts, len);
    OnlyTooShort(value, len);
    WebAgreesWithCatalog(value, images, existing, fold);
    hide Corrected, Trim, SchemaAccepts, ValidateTradeWishes, ValidatePublicationDraft, NormalizedListingInput;
  }

  /** `required`, `minLength` and `maxLength`, which the browser checks on the texts as they stand. */
  predicate BrowserAllows(value: ListingInput) {
    && MIN_TITLE <= Utf16Length(value.title) <= MAX_TITLE
    && MIN_DESCRIPTION <= Utf16Length(value.description) <= MAX_DESCRIPTION
    && forall i :: 0 <= i < |value.tradeWishes| ==> value.tradeWishes[i] != "" && Utf16Length(value.tradeWishes[i]) <= MAX_WISH
  }

  const SPACED := "a  "

  lemma SpacedMeasure()
    ensures Trim(SPACED) == "a" && Utf16Length(SPACED) == 3 && Utf16Length("a") == 1
  {
    assert SPACED[1..] == "  " && SPACED[1..][1..] == " " && SPACED[1..][1..][1..] == "";
    assert SPACED[..2] == "a " && "a "[..1] == "a";
    assert TrimEnd(SPACED) == TrimEnd("a ") == TrimEnd("a");
  }

  /** Such corrections can be made: a letter and two spaces in the title of any listing pass every check of the form. */
  lemma SpacedTitleRefused(stored: ListingInput, images: seq<ImageCandidate>, existing: int, len: Measure, fold: Fold)
    requires Measures(len) && SchemaAccepts(stored, len)
    requires BrowserAllows(Opened(stored)) && ValidatePublicationDraft(Opened(stored), images, existing, fold).None?
    ensures var value := Corrected(stored, [TypeTitle(SPACED)]);
            && BrowserAllows(value) && ValidatePublicationDraft(value, images, existing, fold).None?
            && !ServerAccepts(NormalizedListingInput(value), len, fold)
  {
    SpacedMeasure();
    assert len(Trim(SPACED)) <= Utf16Length(Trim(SPACED));
    assert [TypeTitle(SPACED)][..0] == [];
    assert Corrected(stored, [TypeTitle(SPACED)]) == Fill(Corrected(stored, []), TypeTitle(SPACED));
    assert Corrected(stored, []) == Opened(stored);
    hide Trim, Utf16Length, SPACED, Corrected, Opened;
  }
}
