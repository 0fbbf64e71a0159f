/**
  The v1 event contract, written twice in the system: Marketplace builds envelopes, Notification parses whatever
  arrives. `Date.parse` stays a parameter: `isDate` says which strings it understands.
*/
module EventContract {
  import opened Wrappers
  import opened Text

  // ----- JSON

  datatype Json =
    | Null | Bool(flag: bool) | Number(number: real) | String(text: string)
    | Array(items: seq<Json>) | Object(fields: map<string, Json>)

  /** `data[field]`, where None is `undefined`. */
  function Get(o: map<string, Json>, field: string): Option<Json> {
    if field in o then Some(o[field]) else None
  }

  // ----- The typed event

  datatype ProposalType = DONATION_REQUEST | TRADE_OFFER

  datatype EventData =
    | ProposalCreated(proposalId: string, targetListingId: string, requesterId: string, proposalType: ProposalType, offeredListingId: Option<string>)
    | ProposalRejected(proposalId: string, targetListingId: string, requesterId: string, ownerId: string)
    | ProposalAccepted(proposalId: string, transactionId: string, targetListingId: string, offeredListingId: Option<string>,
                       ownerId: string, requesterId: string)
    | TransactionCompleted(transactionId: string, proposalId: string, targetListingId: string, offeredListingId: Option<string>,
                           ownerId: string, requesterId: string)

  datatype Event = Event(eventId: string, occurredAt: string, data: EventData)

  function TypeName(d: EventData): string {
    match d
    case ProposalCreated(_, _, _, _, _) => "proposal.created"
    case ProposalRejected(_, _, _, _) => "proposal.rejected"
    case ProposalAccepted(_, _, _, _, _, _) => "proposal.accepted"
    case TransactionCompleted(_, _, _, _, _, _) => "transaction.completed"
  }

  function KindName(k: ProposalType): string {
    match k
    case DONATION_REQUEST => "DONATION_REQUEST"
    case TRADE_OFFER => "TRADE_OFFER"
  }

  // ----- Notification: parsing

  datatype ParseError =
    | NotAnObject | UnsupportedType | MissingEventId | EventIdTooLong | UnsupportedVersion | BadDate | BadSource | BadData
    | BadField(field: string) | BadProposalType

  function RequiredString(data: map<string, Json>, field: string): Result<string, ParseError> {
    match Get(data, field)
    case Some(String(value)) => if NonBlank(value) then Ok(value) else Err(BadField(field))
    case _ => Err(BadField(field))
  }

  function NullableString(data: map<string, Json>, field: string): Result<Option<string>, ParseError> {
    match Get(data, field)
    case Some(Null) => Ok(None)
    case Some(String(value)) => if NonBlank(value) then Ok(Some(value)) else Err(BadField(field))
    case _ => Err(BadField(field))
  }

  datatype Base = Base(eventId: string, occurredAt: string, data: map<string, Json>)

  function CommonEnvelope(value: map<string, Json>, isDate: string -> bool): Result<Base, ParseError> {
    match Get(value, "eventId")
    case Some(String(eventId)) =>
      if !NonBlank(eventId) then Err(MissingEventId)
      else if Utf16Length(eventId) > 128 then Err(EventIdTooLong)
      else if Get(value, "version") != Some(Number(1.0)) then Err(UnsupportedVersion)
      else (match Get(value, "occurredAt")
            case Some(String(at)) =>
              if !isDate(at) then Err(BadDate)
              else if Get(value, "source") != Some(String("marketplace-service")) then Err(BadSource)
              else (match Get(value, "data")
                    case Some(Object(data)) => Ok(Base(eventId, at, data))
                    case _ => Err(BadData))
            case _ => Err(BadDate))
    case _ => Err(MissingEventId)
  }

  function ParseCreated(data: map<string, Json>): Result<EventData, ParseError> {
    match RequiredString(data, "proposalType")
    case Err(e) => Err(e)
    case Ok(kind) =>
      if kind != "DONATION_REQUEST" && kind != "TRADE_OFFER" then Err(BadProposalType)
      else match (RequiredString(data, "proposalId"), RequiredString(data, "targetListingId"), RequiredString(data, "requesterId"),
                  NullableString(data, "offeredListingId"))
        case (Ok(p), Ok(t), Ok(r), Ok(o)) => Ok(ProposalCreated(p, t, r, if kind == "TRADE_OFFER" then TRADE_OFFER else DONATION_REQUEST, o))
        case (Err(e), _, _, _) => Err(e)
        case (_, Err(e), _, _) => Err(e)
        case (_, _, Err(e), _) => Err(e)
        case (_, _, _, Err(e)) => Err(e)
  }

  function ParseRejected(data: map<string, Json>): Result<EventData, ParseError> {
    match (RequiredString(data, "proposalId"), RequiredString(data, "targetListingId"), RequiredString(data, "requesterId"),
           RequiredString(data, "ownerId"))
    case (Ok(p), Ok(t), Ok(r), Ok(o)) => Ok(ProposalRejected(p, t, r, o))
    case (Err(e), _, _, _) => Err(e)
    case (_, Err(e), _, _) => Err(e)
    case (_, _, Err(e), _) => Err(e)
    case (_, _, _, Err(e)) => Err(e)
  }

  datatype Settled = Settled(transactionId: string, proposalId: string, targetListingId: string, offeredListingId: Option<string>,
                             ownerId: string, requesterId: string)

  /** The six fields of an acceptance; `transaction.completed` reads the same six in another order. */
  function ParseSettled(data: map<string, Json>, proposalFirst: bool): Result<Settled, ParseError> {
    var first := if proposalFirst then "proposalId" else "transactionId";
    var second := if proposalFirst then "transactionId" else "proposalId";
    match (RequiredString(data, first), RequiredString(data, second), RequiredString(data, "targetListingId"),
           NullableString(data, "offeredListingId"), RequiredString(data, "ownerId"), RequiredString(data, "requesterId"))
    case (Ok(a), Ok(b), Ok(t), Ok(o), Ok(w), Ok(r)) => Ok(if proposalFirst then Settled(b, a, t, o, w, r) else Settled(a, b, t, o, w, r))
    case (Err(e), _, _, _, _, _) => Err(e)
    case (_, Err(e), _, _, _, _) => Err(e)
    case (_, _, Err(e), _, _, _) => Err(e)
    case (_, _, _, Err(e), _, _) => Err(e)
    case (_, _, _, _, Err(e), _) => Err(e)
    case (_, _, _, _, _, Err(e)) => Err(e)
  }

  function ParseData(name: string, data: map<string, Json>): Result<EventData, ParseError> {
    if name == "proposal.created" then ParseCreated(data)
    else if name == "proposal.rejected" then ParseRejected(data)
    else if name == "proposal.accepted" then
      (match ParseSettled(data, true)
       case Ok(s) => Ok(ProposalAccepted(s.proposalId, s.transactionId, s.targetListingId, s.offeredListingId, s.ownerId, s.requesterId))
       case Err(e) => Err(e))
    else
      (match ParseSettled(data, false)
       case Ok(s) => Ok(TransactionCompleted(s.transactionId, s.proposalId, s.targetListingId, s.offeredListingId, s.ownerId, s.requesterId))
       case Err(e) => Err(e))
  }

  predicate KnownType(name: string) {
    name == "proposal.created" || name == "proposal.accepted" || name == "proposal.rejected" || name == "transaction.completed"
  }

  function Parse(value: Json, isDate: string -> bool): Result<Event, ParseError> {
    if !value.Object? then Err(NotAnObject)
    else match Get(value.fields, "type")
      case Some(String(name)) =>
        if !KnownType(name) then Err(UnsupportedType)
        else (match CommonEnvelope(value.fields, isDate)
              case Err(e) => Err(e)
              case Ok(base) =>
                (match ParseData(name, base.data)
                 case Err(e) => Err(e)
                 case Ok(data) => Ok(Event(base.eventId, base.occurredAt, data))))
      case _ => Err(UnsupportedType)
  }

  // ----- Marketplace: building

  /** `publish` wraps the data of the four call sites; the outbox worker wraps a stored payload the same way. */
  function Envelope(eventId: string, name: string, occurredAt: string, data: map<string, Json>): Json {
    Object(map["eventId" := String(eventId), "type" := String(name), "version" := Number(1.0),
               "occurredAt" := String(occurredAt), "source" := String("marketplace-service"), "data" := Object(data)])
  }

  function OrNull(s: Option<string>): Json {
    match s case Some(v) => String(v) case None => Null
  }

  function CreatedRecord(proposalId: string, targetListingId: string, requesterId: string, kind: ProposalType,
                         offered: Option<string>): map<string, Json> {
    map["proposalId" := String(proposalId), "targetListingId" := String(targetListingId), "requesterId" := String(requesterId),
        "proposalType" := String(KindName(kind)), "offeredListingId" := OrNull(offered)]
  }

  function RejectedRecord(proposalId: string, targetListingId: string, requesterId: string, ownerId: string): map<string, Json> {
    map["proposalId" := String(proposalId), "targetListingId" := String(targetListingId), "requesterId" := String(requesterId),
        "ownerId" := String(ownerId)]
  }

  function SettledRecord(s: Settled): map<string, Json> {
    map["proposalId" := String(s.proposalId), "transactionId" := String(s.transactionId), "targetListingId" := String(s.targetListingId),
        "offeredListingId" := OrNull(s.offeredListingId), "ownerId" := String(s.ownerId), "requesterId" := String(s.requesterId)]
  }

  function DataRecord(d: EventData): map<string, Json> {
    match d
    case ProposalCreated(p, t, r, k, o) => CreatedRecord(p, t, r, k, o)
    case ProposalRejected(p, t, r, o) => RejectedRecord(p, t, r, o)
    case ProposalAccepted(p, x, t, o, w, r) => SettledRecord(Settled(x, p, t, o, w, r))
    case TransactionCompleted(x, p, t, o, w, r) => SettledRecord(Settled(x, p, t, o, w, r))
  }

  function Build(e: Event): Json {
    Envelope(e.eventId, TypeName(e.data), e.occurredAt, DataRecord(e.data))
  }

  // ----- Agreement

  predicate NonBlankOrNone(s: Option<string>) {
    s.Some? ==> NonBlank(s.value)
  }

  predicate GoodData(d: EventData) {
    match d
    case ProposalCreated(p, t, r, k, o) => NonBlank(p) && NonBlank(t) && NonBlank(r) && NonBlankOrNone(o)
    case ProposalRejected(p, t, r, o) => NonBlank(p) && NonBlank(t) && NonBlank(r) && NonBlank(o)
    case ProposalAccepted(p, x, t, o, w, r) => NonBlank(p) && NonBlank(x) && NonBlank(t) && NonBlankOrNone(o) && NonBlank(w) && NonBlank(r)
    case TransactionCompleted(x, p, t, o, w, r) => NonBlank(p) && NonBlank(x) && NonBlank(t) && NonBlankOrNone(o) && NonBlank(w) && NonBlank(r)
  }

  predicate GoodEvent(e: Event, isDate: string -> bool) {
    NonBlank(e.eventId) && Utf16Length(e.eventId) <= 128 && isDate(e.occurredAt) && GoodData(e.data)
  }

  /** `o` has every field of `record`, with the same value; it may have more. */
  predicate Carries(o: map<string, Json>, record: map<string, Json>) {
    forall f :: f in record ==> f in o && o[f] == record[f]
  }

  lemma RequiredReads(data: map<string, Json>, record: map<string, Json>, field: string)
    requires Carries(data, record) && field in record && record[field].String?
    ensures RequiredString(data, field) == if NonBlank(record[field].text) then Ok(record[field].text) else Err(BadField(field))
  {
  }

  lemma NullableReads(data: map<string, Json>, record: map<string, Json>, field: string, o: Option<string>)
    requires Carries(data, record) && field in record && record[field] == OrNull(o)
    ensures NullableString(data, field) == if NonBlankOrNone(o) then Ok(o) else Err(BadField(field))
  {
  }

  lemma CreatedAgrees(p: string, t: string, r: string, k: ProposalType, o: Option<string>, data: map<string, Json>)
    requires Carries(data, CreatedRecord(p, t, r, k, o))
    ensures var d := ProposalCreated(p, t, r, k, o);
            if GoodData(d) then ParseCreated(data) == Ok(d) else ParseCreated(data).Err?
  {
    hide NonBlank, RequiredString, NullableString, Carries;
    var record := CreatedRecord(p, t, r, k, o);
    RequiredReads(data, record, "proposalType");
    RequiredReads(data, record, "proposalId");
    RequiredReads(data, record, "targetListingId");
    RequiredReads(data, record, "requesterId");
    NullableReads(data, record, "offeredListingId", o);
    KindIsNonBlank(k);
    hide CreatedRecord;
  }

  lemma KindIsNonBlank(k: ProposalType)
    ensures NonBlank(KindName(k))
  {
    TrimOfTight(KindName(k));
  }

  lemma RejectedAgrees(p: string, t: string, r: string, o: string, data: map<string, Json>)
    requires Carries(data, RejectedRecord(p, t, r, o))
    ensures var d := ProposalRejected(p, t, r, o);
            if GoodData(d) then ParseRejected(data) == Ok(d) else ParseRejected(data).Err?
  {
    hide NonBlank, RequiredString, Carries;
    var record := RejectedRecord(p, t, r, o);
    RequiredReads(data, record, "proposalId");
    RequiredReads(data, record, "targetListingId");
    RequiredReads(data, record, "requesterId");
    RequiredReads(data, record, "ownerId");
    hide RejectedRecord;
  }

  lemma SettledAgrees(s: Settled, proposalFirst: bool, data: map<string, Json>)
    requires Carries(data, SettledRecord(s))
    ensures var good := NonBlank(s.proposalId) && NonBlank(s.transactionId) && NonBlank(s.targetListingId)
                        && NonBlankOrNone(s.offeredListingId) && NonBlank(s.ownerId) && NonBlank(s.requesterId);
            if good then ParseSettled(data, proposalFirst) == Ok(s) else ParseSettled(data, proposalFirst).Err?
  {
    hide NonBlank, RequiredString, NullableString, Carries;
    var record := SettledRecord(s);
    RequiredReads(data, record, "proposalId");
    RequiredReads(data, record, "transactionId");
    RequiredReads(data, record, "targetListingId");
    NullableReads(data, record, "offeredListingId", s.offeredListingId);
    RequiredReads(data, record, "ownerId");
    RequiredReads(data, record, "requesterId");
    hide SettledRecord;
  }

  lemma DataAgrees(d: EventData, data: map<string, Json>)
    requires Carries(data, DataRecord(d))
    ensures KnownType(TypeName(d))
    ensures if GoodData(d) then ParseData(TypeName(d), data) == Ok(d) else ParseData(TypeName(d), data).Err?
  {
    hide Trim, ParseCreated, ParseRejected, ParseSettled, Carries;
    match d
    case ProposalCreated(p, t, r, k, o) => CreatedAgrees(p, t, r, k, o, data);
    case ProposalRejected(p, t, r, o) => RejectedAgrees(p, t, r, o, data);
    case ProposalAccepted(p, x, t, o, w, r) => SettledAgrees(Settled(x, p, t, o, w, r), true, data);
    case TransactionCompleted(x, p, t, o, w, r) => SettledAgrees(Settled(x, p, t, o, w, r), false, data);
  }

  lemma CreatedCarried(data: map<string, Json>)
    requires ParseCreated(data).Ok?
    ensures var d := ParseCreated(data).value; d.ProposalCreated? && GoodData(d) && Carries(data, DataRecord(d))
  {
    hide Trim;
  }

  lemma RejectedCarried(data: map<string, Json>)
    requires ParseRejected(data).Ok?
    ensures var d := ParseRejected(data).value; d.ProposalRejected? && GoodData(d) && Carries(data, DataRecord(d))
  {
    hide Trim;
  }

  lemma SettledCarried(data: map<string, Json>, proposalFirst: bool)
    requires ParseSettled(data, proposalFirst).Ok?
    ensures var s := ParseSettled(data, proposalFirst).value;
            && Carries(data, SettledRecord(s))
            && NonBlank(s.proposalId) && NonBlank(s.transactionId) && NonBlank(s.targetListingId)
            && NonBlankOrNone(s.offeredListingId) && NonBlank(s.ownerId) && NonBlank(s.requesterId)
  {
    hide Trim;
  }

  /** What the parser took from the data is there. */
  lemma ParsedIsCarried(name: string, data: map<string, Json>)
    requires ParseData(name, data).Ok? && KnownType(name)
    ensures var d := ParseData(name, data).value; GoodData(d) && TypeName(d) == name && Carries(data, DataRecord(d))
  {
    hide Trim, ParseCreated, ParseRejected, ParseSettled, Carries, NonBlank, NonBlankOrNone, CreatedRecord, RejectedRecord, SettledRecord;
    if name == "proposal.created" {
      CreatedCarried(data);
    } else if name == "proposal.rejected" {
      RejectedCarried(data);
    } else {
      SettledCarried(data, name == "proposal.accepted");
    }
  }

  /** The JSON value is the envelope of this event, up to fields nobody reads. */
  predicate Conveys(j: Json, e: Event) {
    && j.Object?
    && Get(j.fields, "eventId") == Some(String(e.eventId)) && Get(j.fields, "type") == Some(String(TypeName(e.data)))
    && Get(j.fields, "version") == Some(Number(1.0)) && Get(j.fields, "occurredAt") == Some(String(e.occurredAt))
    && Get(j.fields, "source") == Some(String("marketplace-service"))
    && Get(j.fields, "data").Some? && Get(j.fields, "data").value.Object?
    && Carries(Get(j.fields, "data").value.fields, DataRecord(e.data))
  }

  lemma ConveyedEnvelope(j: Json, e: Event, isDate: string -> bool)
    requires GoodEvent(e, isDate) && Conveys(j, e)
    ensures CommonEnvelope(j.fields, isDate) == Ok(Base(e.eventId, e.occurredAt, Get(j.fields, "data").value.fields))
  {
    hide Trim, Utf16Length, DataRecord, TypeName, Carries, GoodData;
  }

  lemma ConveyedIsParsed(j: Json, e: Event, isDate: string -> bool)
    requires GoodEvent(e, isDate) && Conveys(j, e)
    ensures Parse(j, isDate) == Ok(e)
  {
    ConveyedEnvelope(j, e, isDate);
    DataAgrees(e.data, Get(j.fields, "data").value.fields);
    hide CommonEnvelope, NonBlank, Utf16Length, ParseData, DataRecord, TypeName, KnownType, Carries, GoodData;
  }

  lemma ParsedIsConveyed(j: Json, isDate: string -> bool)
    requires Parse(j, isDate).Ok?
    ensures var e := Parse(j, isDate).value; GoodEvent(e, isDate) && Conveys(j, e)
  {
    var name, data := Get(j.fields, "type").value.text, Get(j.fields, "data").value.fields;
    ParsedIsCarried(name, data);
    hide Trim, Utf16Length, ParseData, DataRecord, TypeName, KnownType, Carries, GoodData;
  }

  /**
    The parser, exactly: it yields an event if and only if the event is good and the JSON value conveys it. Whatever
    lacks a field, has another type, version or source, or a blank identifier is refused; extra fields are ignored.
  */
  lemma ParserReadsExactly(j: Json, e: Event, isDate: string -> bool)
    ensures Parse(j, isDate) == Ok(e) <==> GoodEvent(e, isDate) && Conveys(j, e)
  {
    if Parse(j, isDate) == Ok(e) {
      ParsedIsConveyed(j, isDate);
    }
    if GoodEvent(e, isDate) && Conveys(j, e) {
      ConveyedIsParsed(j, e, isDate);
    }
    hide Parse, GoodEvent, Conveys;
  }

  predicate Names(data: map<string, Json>, field: string, text: string) {
    Get(data, field) == Some(String(text)) && NonBlank(text)
  }

  /** An absent field is not a null one. */
  predicate NamesOrNull(data: map<string, Json>, field: string, text: Option<string>) {
    if text.Some? then Names(data, field, text.value) else Get(data, field) == Some(Null)
  }

  lemma CreatedSpelledOut(data: map<string, Json>, p: string, t: string, r: string, k: ProposalType, o: Option<string>)
    ensures Carries(data, CreatedRecord(p, t, r, k, o)) <==>
            && Get(data, "proposalId") == Some(String(p)) && Get(data, "targetListingId") == Some(String(t))
            && Get(data, "requesterId") == Some(String(r))
            && Get(data, "proposalType") == Some(String(if k.TRADE_OFFER? then "TRADE_OFFER" else "DONATION_REQUEST"))
            && Get(data, "offeredListingId") == Some(if o.Some? then String(o.value) else Null)
  {
    var record := CreatedRecord(p, t, r, k, o);
    assert record.Keys == {"proposalId", "targetListingId", "requesterId", "proposalType", "offeredListingId"};
  }

  lemma RejectedSpelledOut(data: map<string, Json>, p: string, t: string, r: string, o: string)
    ensures Carries(data, RejectedRecord(p, t, r, o)) <==>
            && Get(data, "proposalId") == Some(String(p)) && Get(data, "targetListingId") == Some(String(t))
            && Get(data, "requesterId") == Some(String(r)) && Get(data, "ownerId") == Some(String(o))
  {
    var record := RejectedRecord(p, t, r, o);
    assert record.Keys == {"proposalId", "targetListingId", "requesterId", "ownerId"};
  }

  lemma SettledSpelledOut(data: map<string, Json>, s: Settled)
    ensures Carries(data, SettledRecord(s)) <==>
            && Get(data, "proposalId") == Some(String(s.proposalId)) && Get(data, "transactionId") == Some(String(s.transactionId))
            && Get(data, "targetListingId") == Some(String(s.targetListingId))
            && Get(data, "offeredListingId") == Some(if s.offeredListingId.Some? then String(s.offeredListingId.value) else Null)
            && Get(data, "ownerId") == Some(String(s.ownerId)) && Get(data, "requesterId") == Some(String(s.requesterId))
  {
    var record := SettledRecord(s);
    assert record.Keys == {"proposalId", "transactionId", "targetListingId", "offeredListingId", "ownerId", "requesterId"};
  }

  lemma CarriesSpelledOut(data: map<string, Json>, d: EventData)
    ensures GoodData(d) && Carries(data, DataRecord(d)) <==>
            match d
            case ProposalCreated(p, t, r, k, o) =>
              && Names(data, "proposalId", p) && Names(data, "targetListingId", t) && Names(data, "requesterId", r)
              && Get(data, "proposalType") == Some(String(if k.TRADE_OFFER? then "TRADE_OFFER" else "DONATION_REQUEST"))
              && NamesOrNull(data, "offeredListingId", o)
            case ProposalRejected(p, t, r, o) =>
              Names(data, "proposalId", p) && Names(data, "targetListingId", t) && Names(data, "requesterId", r) && Names(data, "ownerId", o)
            case ProposalAccepted(p, x, t, o, w, r) =>
              && Names(data, "proposalId", p) && Names(data, "transactionId", x) && Names(data, "targetListingId", t)
              && NamesOrNull(data, "offeredListingId", o) && Names(data, "ownerId", w) && Names(data, "requesterId", r)
            case TransactionCompleted(x, p, t, o, w, r) =>
              && Names(data, "transactionId", x) && Names(data, "proposalId", p) && Names(data, "targetListingId", t)
              && NamesOrNull(data, "offeredListingId", o) && Names(data, "ownerId", w) && Names(data, "requesterId", r)
  {
    match d
    case ProposalCreated(p, t, r, k, o) => CreatedSpelledOut(data, p, t, r, k, o);
    case ProposalRejected(p, t, r, o) => RejectedSpelledOut(data, p, t, r, o);
    case ProposalAccepted(p, x, t, o, w, r) => SettledSpelledOut(data, Settled(x, p, t, o, w, r));
    case TransactionCompleted(x, p, t, o, w, r) => SettledSpelledOut(data, Settled(x, p, t, o, w, r));
    hide NonBlank, Carries, CreatedRecord, RejectedRecord, SettledRecord, Get;
  }

  /** The contract field by field, as the two sides have to spell it. */
  lemma ParserReadsFields(j: Json, e: Event, isDate: string -> bool)
    ensures Parse(j, isDate) == Ok(e) <==>
            && j.Object?
            && Names(j.fields, "eventId", e.eventId) && Utf16Length(e.eventId) <= 128
            && Get(j.fields, "type") == Some(String(
                 match e.data
                 case ProposalCreated(_, _, _, _, _) => "proposal.created"
                 case ProposalRejected(_, _, _, _) => "proposal.rejected"
                 case ProposalAccepted(_, _, _, _, _, _) => "proposal.accepted"
                 case TransactionCompleted(_, _, _, _, _, _) => "transaction.completed"))
            && Get(j.fields, "version") == Some(Number(1.0))
            && Get(j.fields, "occurredAt") == Some(String(e.occurredAt)) && isDate(e.occurredAt)
            && Get(j.fields, "source") == Some(String("marketplace-service"))
            && Get(j.fields, "data").Some? && Get(j.fields, "data").value.Object?
            && var data := Get(j.fields, "data").value.fields;
               match e.data
               case ProposalCreated(p, t, r, k, o) =>
                 && Names(data, "proposalId", p) && Names(data, "targetListingId", t) && Names(data, "requesterId", r)
                 && Get(data, "proposalType") == Some(String(if k.TRADE_OFFER? then "TRADE_OFFER" else "DONATION_REQUEST"))
                 && NamesOrNull(data, "offeredListingId", o)
               case ProposalRejected(p, t, r, o) =>
                 Names(data, "proposalId", p) && Names(data, "targetListingId", t) && Names(data, "requesterId", r) && Names(data, "ownerId", o)
               case ProposalAccepted(p, x, t, o, w, r) =>
                 && Names(data, "proposalId", p) && Names(data, "transactionId", x) && Names(data, "targetListingId", t)
                 && NamesOrNull(data, "offeredListingId", o) && Names(data, "ownerId", w) && Names(data, "requesterId", r)
               case TransactionCompleted(x, p, t, o, w, r) =>
                 && Names(data, "transactionId", x) && Names(data, "proposalId", p) && Names(data, "targetListingId", t)
                 && NamesOrNull(data, "offeredListingId", o) && Names(data, "ownerId", w) && Names(data, "requesterId", r)
  {
    ParserReadsExactly(j, e, isDate);
    if j.Object? && Get(j.fields, "data").Some? && Get(j.fields, "data").value.Object? {
      CarriesSpelledOut(Get(j.fields, "data").value.fields, e.data);
    }
    hide Parse, NonBlank, Utf16Length, DataRecord, Carries, GoodData, NamesOrNull;
  }

  lemma BuiltConveys(e: Event)
    ensures Conveys(Build(e), e)
  {
    hide DataRecord, TypeName;
    var o := Build(e).fields;
    assert Get(o, "eventId") == Some(String(e.eventId));
    assert Get(o, "type") == Some(String(TypeName(e.data)));
    assert Get(o, "version") == Some(Number(1.0));
    assert Get(o, "occurredAt") == Some(String(e.occurredAt));
    assert Get(o, "source") == Some(String("marketplace-service"));
    assert Get(o, "data") == Some(Object(DataRecord(e.data)));
  }

  lemma CarriedIsOne(d: EventData, e: EventData, data: map<string, Json>)
    requires TypeName(d) == TypeName(e) && Carries(data, DataRecord(d)) && Carries(data, DataRecord(e)) && GoodData(e)
    ensures d == e
  {
    DataAgrees(d, data);
    DataAgrees(e, data);
    hide TypeName, DataRecord, GoodData, ParseData, Carries;
  }

  /**
    The two halves agree: what Marketplace builds, Notification reads back with every field unchanged, exactly when
    its identifiers are non-blank, its event id fits the column and its date parses; anything else is refused.
  */
  lemma ProducersAgreeWithParser(e: Event, isDate: string -> bool)
    ensures if GoodEvent(e, isDate) then Parse(Build(e), isDate) == Ok(e) else Parse(Build(e), isDate).Err?
  {
    BuiltConveys(e);
    ParserReadsExactly(Build(e), e, isDate);
    if Parse(Build(e), isDate).Ok? {
      var f := Parse(Build(e), isDate).value;
      ParserReadsExactly(Build(e), f, isDate);
      CarriedIsOne(e.data, f.data, Get(Build(e).fields, "data").value.fields);
    }
    hide Trim, Utf16Length, Parse, Build, DataRecord, TypeName, Carries, GoodData;
  }

  /** Whatever the parser lets through, however it was built, is good; so parsing it again gives it back. */
  lemma ParsingIsStable(j: Json, isDate: string -> bool)
    requires Parse(j, isDate).Ok?
    ensures GoodEvent(Parse(j, isDate).value, isDate)
    ensures Parse(Build(Parse(j, isDate).value), isDate) == Parse(j, isDate)
  {
    var e := Parse(j, isDate).value;
    ParserReadsExactly(j, e, isDate);
    ProducersAgreeWithParser(e, isDate);
  }
}
