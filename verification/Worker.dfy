/**
  The way of a message from the outbox table to a worker handler: the row, the JSON that the
  dequeuer publishes in one of two wire forms, the decoding of the push request, the routing, and
  the handlers' payload parsing. Base64 and JSON text are abstracted to "decodes to this value".
 */
module Worker {
  import opened Wrappers
  import opened Text
  import opened Json
  import opened Uuids
  import OK = ObjectKey
  import opened Messaging

  const DOCUMENT_SCAN_REQUESTED := "document.scan_requested"
  const DOCUMENT_FINALIZATION_REQUESTED := "document.finalization_requested"
  const SEND_WORKSPACE_INVITATION_TYPE := "SendWorkspaceInvitation"

  // ---------- the outbox row and its wire forms ----------

  datatype Row = Row(
    id: int, eventType: string, aggregateType: string, aggregateId: string, payload: Json, requestId: Option<Uuid>,
    kind: Kind, messageType: string, version: int, messageId: Uuid, subject: string, correlationId: Option<Uuid>,
    causationId: Option<Uuid>)

  function EventType(m: Message): string {
    match m
    case ScanDocument(_, _) => DOCUMENT_SCAN_REQUESTED
    case FinalizeDocument(_, _) => DOCUMENT_FINALIZATION_REQUESTED
    case SendWorkspaceInvitation(_, _) => SEND_WORKSPACE_INVITATION_TYPE
  }

  /** The row that appending `m` to the outbox inserts. */
  function RowFor(id: int, m: Message): Row {
    Row(id, EventType(m), AggregateType(m.payload), m.metadata.subject, PayloadJson(m.payload),
        m.metadata.correlationId,
        Command, MessageType(m), CURRENT_MESSAGE_VERSION, m.metadata.messageId, m.metadata.subject,
          m.metadata.correlationId,
        m.metadata.causationId)
  }

  function LegacyFields(id: Json, eventType: Json, aggregateType: Json, aggregateId: Json, requestId: Json,
        payload: Json): map<string, Json> {
    map["outbox_message_id" := id, "event_type" := eventType, "aggregate_type" := aggregateType,
        "aggregate_id" := aggregateId, "request_id" := requestId, "payload" := payload]
  }

  /** Rows of version 0 are published in the legacy form, all others as a typed envelope. */
  function Outbound(row: Row): Json {
    if row.version == 0 then
      Obj(LegacyFields(Str(Decimal(row.id)), Str(row.eventType), Str(row.aggregateType), Str(row.aggregateId),
                       OptionalUuid(row.requestId), row.payload))
    else
      EnvelopeJson(row.kind, row.messageType, row.version,
                   Metadata(row.messageId, row.subject, row.correlationId, row.causationId), row.payload)
  }

  // ---------- the push request ----------

  datatype Data = NotBase64 | NotJson | Decoded(value: Json)
  datatype PushMessage = PushMessage(messageId: string, data: Data)
  datatype Push = NotAnEnvelope | Envelope(message: Option<PushMessage>, deliveryAttempt: Option<nat>)

  datatype WorkerMessage = WorkerMessage(
    messageId: string, eventType: string, aggregateType: string, aggregateId: string, requestId: Option<Uuid>,
    payload: Json, deliveryAttempt: Option<nat>)

  datatype ValidationError = MissingField(name: string) | InvalidRequestId

  datatype WorkerDecodeError =
    | EnvelopeError
    | MissingMessage
    | InvalidBase64
    | PayloadError
    | TypedMessage(error: DecodeError)
    | DataValidation(errors: seq<ValidationError>)

  const TYPED_FIELDS := ["message_id", "kind", "type", "version", "subject", "correlation_id", "causation_id"]

  predicate IsTypedEnvelope(data: Json) {
    data.Obj? && exists k :: k in TYPED_FIELDS && k in data.fields
  }

  function DecodeTyped(data: Json, attempt: Option<nat>): Result<WorkerMessage, WorkerDecodeError> {
    match FromEnvelope(data)
    case Err(error) => Err(TypedMessage(error))
    case Ok(m) =>
      Ok(WorkerMessage(Format(m.metadata.messageId), EventType(m), AggregateType(m.payload), m.metadata.subject,
                       m.metadata.correlationId, PayloadJson(m.payload), attempt))
  }

  function RequiredErrors(name: string, value: Option<string>): seq<ValidationError> {
    match value
    case Some(v) => if IsBlank(v) then [MissingField(name)] else []
    case None => [MissingField(name)]
  }

  /** An absent request id is allowed; one that is not a UUID is an error. */
  function RequestIdErrors(value: Option<string>): seq<ValidationError> {
    match value
    case Some(v) => if Uuids.Parse(v).None? then [InvalidRequestId] else []
    case None => []
  }

  const LEGACY_FIELDS := ["event_type", "aggregate_type", "aggregate_id", "request_id", "payload"]

  function DecodeLegacy(data: Json, pushId: string, attempt: Option<nat>): Result<WorkerMessage, WorkerDecodeError> {
    match StructFields(data, LEGACY_FIELDS, false)
    case None => Err(PayloadError)
    case Some(f) =>
      match (AsOptionalString(Lookup(f, "event_type")), AsOptionalString(Lookup(f, "aggregate_type")),
             AsOptionalString(Lookup(f, "aggregate_id")), AsOptionalString(Lookup(f, "request_id")))
      case (Some(eventType), Some(aggregateType), Some(aggregateId), Some(requestId)) =>
        ValidateLegacy(eventType, aggregateType, aggregateId, requestId, Lookup(f, "payload"), pushId, attempt)
      case _ => Err(PayloadError)
  }

  function ValidateLegacy(
      eventType: Option<string>, aggregateType: Option<string>, aggregateId: Option<string>, requestId: Option<string>,
      payload: Json, pushId: string, attempt: Option<nat>): Result<WorkerMessage, WorkerDecodeError> {
    var errors :=
      RequiredErrors("event_type", eventType) + RequiredErrors("aggregate_type", aggregateType)
      + RequiredErrors("aggregate_id", aggregateId) + RequestIdErrors(requestId)
      + if payload.Null? then [MissingField("payload")] else [];
    if errors != [] || eventType.None? || aggregateType.None? || aggregateId.None? then Err(DataValidation(errors))
    else Ok(WorkerMessage(pushId, eventType.value, aggregateType.value, aggregateId.value,
                          if requestId.Some? then Uuids.Parse(requestId.value) else None, payload, attempt))
  }

  function DecodeWorkerMessage(push: Push): Result<WorkerMessage, WorkerDecodeError> {
    match push
    case NotAnEnvelope => Err(EnvelopeError)
    case Envelope(None, _) => Err(MissingMessage)
    case Envelope(Some(message), attempt) =>
      match message.data
      case NotBase64 => Err(InvalidBase64)
      case NotJson => Err(PayloadError)
      case Decoded(data) =>
        if IsTypedEnvelope(data) then DecodeTyped(data, attempt) else DecodeLegacy(data, message.messageId, attempt)
  }

  // ---------- routing and handler payloads ----------

  datatype Handler = ScanHandler | FinalizationHandler | InvitationHandler | NoHandler

  function Dispatch(eventType: string): Handler {
    if eventType == DOCUMENT_SCAN_REQUESTED then ScanHandler
    else if eventType == DOCUMENT_FINALIZATION_REQUESTED then FinalizationHandler
    else if eventType == SEND_WORKSPACE_INVITATION_TYPE then InvitationHandler
    else NoHandler
  }

  datatype HandlerPayload = HandlerPayload(identity: OK.DocumentIdentity, objectKey: string)

  datatype ScanMessageError = BadAggregateType | BadPayload | BadOwnerId | BadAggregateId | BadKey

  function PayloadString(payload: Json, name: string): Option<string> {
    if payload.Obj? && name in payload.fields then AsString(payload.fields[name]) else None
  }

  function PayloadUuid(payload: Json, name: string): Option<Uuid> {
    match PayloadString(payload, name)
    case Some(s) => Uuids.Parse(s)
    case None => None
  }

  function ScanPayload(m: WorkerMessage): Result<HandlerPayload, ScanMessageError> {
    match Uuids.Parse(m.aggregateId)
    case None => Err(BadAggregateId)
    case Some(documentId) =>
      match PayloadString(m.payload, "object_key")
      case None => Err(BadPayload)
      case Some(key) =>
        if OK.Parse(key).None? then Err(BadKey)
        else if m.aggregateType == "evidence_document" then
          match PayloadUuid(m.payload, "evidence_submission_id")
          case None => Err(BadOwnerId)
          case Some(owner) => Ok(HandlerPayload(OK.DocumentIdentity(OK.EvidenceSubmission(owner), documentId), key))
        else if m.aggregateType == "policy_document" then
          match PayloadUuid(m.payload, "policy_id")
          case None => Err(BadOwnerId)
          case Some(owner) => Ok(HandlerPayload(OK.DocumentIdentity(OK.Policy(owner), documentId), key))
        else Err(BadAggregateType)
  }

  function FinalizationPayload(m: WorkerMessage): Option<HandlerPayload> {
    match (Uuids.Parse(m.aggregateId), PayloadString(m.payload, "object_key"))
    case (Some(documentId), Some(key)) =>
      if OK.Parse(key).None? then None
      else if m.aggregateType == "evidence_document" then
        match PayloadUuid(m.payload, "evidence_submission_id")
        case None => None
        case Some(owner) => Some(HandlerPayload(OK.DocumentIdentity(OK.EvidenceSubmission(owner), documentId), key))
      else if m.aggregateType == "policy_document" then
        match PayloadUuid(m.payload, "policy_id")
        case None => None
        case Some(owner) => Some(HandlerPayload(OK.DocumentIdentity(OK.Policy(owner), documentId), key))
      else None
    case _ => None
  }

  // ---------- which decoder a row meets ----------

  lemma TypedNamesNotLegacy()
    ensures forall k :: k in TYPED_FIELDS ==>
      k != "outbox_message_id" && k != "event_type" && k != "aggregate_type" && k != "aggregate_id" && k != "request_id"
        && k != "payload"
  {
    var n := TYPED_FIELDS;
    assert |n[0]| == 10 && |n[1]| == 4 && |n[2]| == 4 && |n[3]| == 7 && |n[4]| == 7 && |n[5]| == 14 && |n[6]| == 12;
    assert n[0][0] == 'm' && "event_type"[0] == 'e' && "request_id"[0] == 'r' && n[3][0] == 'v' && n[4][0] == 's'
      && "payload"[0] == 'p';
    assert n[5][0] == 'c' && "aggregate_type"[0] == 'a' && n[6][0] == 'c' && "aggregate_id"[0] == 'a';
  }

  /** A row's version alone decides the decoder, so a typed row can never be read as a legacy one. */
  lemma VersionChoosesDecoder(row: Row)
    ensures IsTypedEnvelope(Outbound(row)) <==> row.version != 0
  {
    if row.version == 0 {
      TypedNamesNotLegacy();
    } else {
      assert TYPED_FIELDS[1] == "kind" && "kind" in TYPED_FIELDS;
      assert "kind" in Outbound(row).fields;
    }
  }

  function PushOf(row: Row, pushId: string, attempt: Option<nat>): Push {
    Envelope(Some(PushMessage(pushId, Decoded(Outbound(row)))), attempt)
  }

  /** What a handler is given for `m`, up to the message id. */
  function Delivered(m: Message, messageId: string, attempt: Option<nat>): WorkerMessage {
    WorkerMessage(messageId, EventType(m), AggregateType(m.payload), m.metadata.subject, m.metadata.correlationId,
                  PayloadJson(m.payload), attempt)
  }

  lemma TypedDelivery(id: int, m: Message, pushId: string, attempt: Option<nat>)
    requires WellTyped(m)
    ensures DecodeWorkerMessage(PushOf(RowFor(id, m), pushId, attempt))
      == Ok(Delivered(m, Format(m.metadata.messageId), attempt))
  {
    VersionChoosesDecoder(RowFor(id, m));
    OutboundIsEnvelope(id, m);
    EnvelopeRoundTrip(m);
  }

  lemma OutboundIsEnvelope(id: int, m: Message)
    ensures Outbound(RowFor(id, m)) == ToEnvelope(m)
  {}

  lemma LegacyFieldsReadBack(a: Json, b: Json, c: Json, d: Json, e: Json, p: Json)
    ensures var f := LegacyFields(a, b, c, d, e, p);
      && Lookup(f, "event_type") == b && Lookup(f, "aggregate_type") == c && Lookup(f, "aggregate_id") == d
      && Lookup(f, "request_id") == e && Lookup(f, "payload") == p
  {
    assert |"event_type"| == 10 && |"aggregate_type"| == 14 && |"aggregate_id"| == 12 && |"request_id"| == 10
      && |"payload"| == 7;
    assert "event_type"[0] == 'e' && "request_id"[0] == 'r';
  }

  lemma NamesNotBlank(m: Message)
    ensures !IsBlank(EventType(m)) && !IsBlank(AggregateType(m.payload))
  {
    assert !IsWhitespace(EventType(m)[0]) && !IsWhitespace(AggregateType(m.payload)[0]);
  }

  /** Reading the legacy form back yields the row's columns. */
  lemma LegacyColumns(row: Row, pushId: string, attempt: Option<nat>)
    requires row.version == 0
    ensures DecodeWorkerMessage(PushOf(row, pushId, attempt))
         == ValidateLegacy(Some(row.eventType), Some(row.aggregateType), Some(row.aggregateId),
                           if row.requestId.Some? then Some(Format(row.requestId.value)) else None,
                           row.payload, pushId, attempt)
  {
    VersionChoosesDecoder(row);
    LegacyFieldsReadBack(Str(Decimal(row.id)), Str(row.eventType), Str(row.aggregateType), Str(row.aggregateId),
                         OptionalUuid(row.requestId), row.payload);
  }

  lemma ValidateColumns(
      eventType: string, aggregateType: string, aggregateId: string, requestId: Option<Uuid>, payload: Json,
      pushId: string, attempt: Option<nat>)
    requires !IsBlank(eventType) && !IsBlank(aggregateType) && !payload.Null?
    ensures ValidateLegacy(Some(eventType), Some(aggregateType), Some(aggregateId),
                           if requestId.Some? then Some(Format(requestId.value)) else None, payload, pushId, attempt)
         == if IsBlank(aggregateId) then Err(DataValidation([MissingField("aggregate_id")]))
            else Ok(WorkerMessage(pushId, eventType, aggregateType, aggregateId, requestId, payload, attempt))
  {
    if requestId.Some? {
      ParseFormat(requestId.value);
    }
    var requestText := if requestId.Some? then Some(Format(requestId.value)) else None;
    var errors :=
      RequiredErrors("event_type", Some(eventType)) + RequiredErrors("aggregate_type", Some(aggregateType))
      + RequiredErrors("aggregate_id", Some(aggregateId)) + RequestIdErrors(requestText)
      + if payload.Null? then [MissingField("payload")] else [];
    assert errors == if IsBlank(aggregateId) then [MissingField("aggregate_id")] else [];
  }

  /** The legacy form of the same row decodes to the same message exactly when its subject is not blank. */
  lemma LegacyDelivery(id: int, m: Message, pushId: string, attempt: Option<nat>)
    ensures !IsBlank(m.metadata.subject) ==>
      DecodeWorkerMessage(PushOf(RowFor(id, m).(version := 0), pushId, attempt)) == Ok(Delivered(m, pushId, attempt))
    ensures IsBlank(m.metadata.subject) ==>
      DecodeWorkerMessage(PushOf(RowFor(id, m).(version := 0), pushId, attempt))
        == Err(DataValidation([MissingField("aggregate_id")]))
  {
    var row := RowFor(id, m).(version := 0);
    LegacyColumns(row, pushId, attempt);
    NamesNotBlank(m);
    ValidateColumns(row.eventType, row.aggregateType, row.aggregateId, row.requestId, row.payload, pushId, attempt);
  }

  lemma SubjectNotBlank(u: Uuid)
    ensures !IsBlank(Format(u))
  {
    FormatChars(u);
    assert IsUuidChar(Format(u)[0]);
  }

  /** Both wire forms of one message reach the same handler with the same content, except for the message id. */
  lemma WireFormsAgree(id: int, m: Message, pushId: string, attempt: Option<nat>)
    requires WellTyped(m) && !IsBlank(m.metadata.subject)
    ensures var typed := DecodeWorkerMessage(PushOf(RowFor(id, m), pushId, attempt));
            var legacy := DecodeWorkerMessage(PushOf(RowFor(id, m).(version := 0), pushId, attempt));
      && typed.Ok? && legacy.Ok?
      && legacy.value == typed.value.(messageId := pushId)
      && Dispatch(legacy.value.eventType) == Dispatch(typed.value.eventType)
      && ScanPayload(legacy.value) == ScanPayload(typed.value)
      && FinalizationPayload(legacy.value) == FinalizationPayload(typed.value)
  {
    TypedDelivery(id, m, pushId, attempt);
    LegacyDelivery(id, m, pushId, attempt);
  }

  /** The two handlers' parsers accept the same messages and read the same payload. */
  lemma PayloadParsersAgree(m: WorkerMessage)
    ensures FinalizationPayload(m) == match ScanPayload(m) case Ok(p) => Some(p) case Err(_) => None
  {}

  /** The owner field and folder for each aggregate type. */
  ghost predicate ReadsOwner(m: WorkerMessage, owner: OK.Owner) {
    || (m.aggregateType == "evidence_document" && owner.EvidenceSubmission?
        && PayloadUuid(m.payload, "evidence_submission_id") == Some(owner.id))
    || (m.aggregateType == "policy_document" && owner.Policy? && PayloadUuid(m.payload, "policy_id") == Some(owner.id))
  }

  /** Which messages the document handlers accept, and as what. */
  lemma AcceptsExactly(m: WorkerMessage, p: HandlerPayload)
    ensures ScanPayload(m) == Ok(p) <==>
      && Uuids.Parse(m.aggregateId) == Some(p.identity.documentId)
      && PayloadString(m.payload, "object_key") == Some(p.objectKey) && OK.Parse(p.objectKey).Some?
      && ReadsOwner(m, p.identity.owner)
  {
    assert "evidence_document"[0] == 'e' && "policy_document"[0] == 'p';
  }

  /** Every other event type is nobody's business. */
  lemma RoutesExactly(eventType: string)
    ensures Dispatch(eventType) == NoHandler <==>
      eventType !in ["document.scan_requested", "document.finalization_requested", "SendWorkspaceInvitation"]
  {}

  /** A legacy message is accepted exactly when it has all of its parts and its request id, if any, is a UUID. */
  lemma LegacyAcceptsExactly(fields: map<string, Json>, pushId: string, attempt: Option<nat>, m: WorkerMessage)
    requires forall k :: k in TYPED_FIELDS ==> k !in fields
    ensures DecodeWorkerMessage(Envelope(Some(PushMessage(pushId, Decoded(Obj(fields)))), attempt)) == Ok(m) <==>
      && Lookup(fields, "event_type") == Str(m.eventType) && !IsBlank(m.eventType)
      && Lookup(fields, "aggregate_type") == Str(m.aggregateType) && !IsBlank(m.aggregateType)
      && Lookup(fields, "aggregate_id") == Str(m.aggregateId) && !IsBlank(m.aggregateId)
      && Lookup(fields, "payload") == m.payload && m.payload != Null
      && ((Lookup(fields, "request_id") == Null && m.requestId.None?)
          || (Lookup(fields, "request_id").Str? && m.requestId.Some?
              && Uuids.Parse(Lookup(fields, "request_id").s) == m.requestId))
      && m.messageId == pushId && m.deliveryAttempt == attempt
  {}

  // ---------- the whole trip ----------

  datatype WorkKind = ScanWork | FinalizationWork

  function MessageFor(kind: WorkKind, identity: OK.DocumentIdentity, objectKey: string, messageId: Uuid,
                      correlation: Option<Uuid>, causation: Option<Uuid>): Message {
    if kind.ScanWork? then ScanDocumentMessage(identity, objectKey, messageId, correlation, causation)
    else FinalizeDocumentMessage(identity, objectKey, messageId, correlation, causation)
  }

  lemma PayloadFieldsReadBack(identity: OK.DocumentIdentity, objectKey: string)
    ensures var p := PayloadJson(DocumentPayload(WorkFor(identity, objectKey)));
      && PayloadString(p, "object_key") == Some(objectKey)
      && PayloadUuid(p, if identity.owner.EvidenceSubmission? then "evidence_submission_id" else "policy_id")
        == Some(identity.owner.id)
  {
    FieldNamesDiffer();
    ParseFormat(identity.owner.id);
  }

  /**
    A document identity and a valid object key arrive in the handler exactly as they left the
    aggregate, in either wire form, at the handler meant for them.
   */
  lemma WorkArrivesUnchanged(
      kind: WorkKind, identity: OK.DocumentIdentity, objectKey: string, messageId: Uuid, correlation: Option<Uuid>,
      causation: Option<Uuid>, id: int, legacy: bool, pushId: string, attempt: Option<nat>)
    ensures var m := MessageFor(kind, identity, objectKey, messageId, correlation, causation);
            var row := if legacy then RowFor(id, m).(version := 0) else RowFor(id, m);
            var decoded := DecodeWorkerMessage(PushOf(row, pushId, attempt));
      && decoded.Ok?
      && Dispatch(decoded.value.eventType) == (if kind.ScanWork? then ScanHandler else FinalizationHandler)
      && decoded.value.deliveryAttempt == attempt && decoded.value.requestId == correlation
      && ScanPayload(decoded.value) == (if OK.Parse(objectKey).Some? then Ok(HandlerPayload(identity, objectKey))
                                        else Err(BadKey))
  {
    var m := MessageFor(kind, identity, objectKey, messageId, correlation, causation);
    WorkMessage(kind, identity, objectKey, messageId, correlation, causation);
    SubjectNotBlank(identity.documentId);
    if legacy {
      LegacyDelivery(id, m, pushId, attempt);
    } else {
      TypedDelivery(id, m, pushId, attempt);
    }
    DeliveredPayload(m, identity, objectKey, if legacy then pushId else Format(messageId), attempt);
  }

  /** What the messages for document work carry. */
  lemma WorkMessage(kind: WorkKind, identity: OK.DocumentIdentity, objectKey: string, messageId: Uuid,
                    correlation: Option<Uuid>, causation: Option<Uuid>)
    ensures var m := MessageFor(kind, identity, objectKey, messageId, correlation, causation);
      && WellTyped(m) && m.metadata == DocumentMetadata(identity, messageId, correlation, causation)
      && m.payload == DocumentPayload(WorkFor(identity, objectKey))
      && Dispatch(EventType(m)) == (if kind.ScanWork? then ScanHandler else FinalizationHandler)
  {
    RoutesDiffer();
  }

  lemma RoutesDiffer()
    ensures Dispatch(DOCUMENT_SCAN_REQUESTED) == ScanHandler
    ensures Dispatch(DOCUMENT_FINALIZATION_REQUESTED) == FinalizationHandler
    ensures Dispatch(SEND_WORKSPACE_INVITATION_TYPE) == InvitationHandler
  {
    assert |DOCUMENT_SCAN_REQUESTED| == 23 && |DOCUMENT_FINALIZATION_REQUESTED| == 31
      && |SEND_WORKSPACE_INVITATION_TYPE| == 23;
    assert DOCUMENT_SCAN_REQUESTED[0] == 'd' && SEND_WORKSPACE_INVITATION_TYPE[0] == 'S';
  }

  lemma DeliveredPayload(m: Message, identity: OK.DocumentIdentity, objectKey: string, messageId: string,
        attempt: Option<nat>)
    requires m.payload == DocumentPayload(WorkFor(identity, objectKey))
    requires m.metadata.subject == Format(identity.documentId)
    ensures ScanPayload(Delivered(m, messageId, attempt))
         == if OK.Parse(objectKey).Some? then Ok(HandlerPayload(identity, objectKey)) else Err(BadKey)
  {
    ParseFormat(identity.documentId);
    PayloadFieldsReadBack(identity, objectKey);
    assert "evidence_document"[0] == 'e' && "policy_document"[0] == 'p';
  }
}
