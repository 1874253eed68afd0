/** Integration messages and their versioned JSON envelope. */
module Messaging {
  import opened Numbers
  import opened Wrappers
  import opened Json
  import opened Uuids
  import opened ObjectKey

  const I32_MIN := -0x8000_0000
  const I32_MAX := 0x7FFF_FFFF
  const CURRENT_MESSAGE_VERSION := 1

  datatype Kind = Command | Event

  datatype Metadata =
    Metadata(messageId: Uuid, subject: string, correlationId: Option<Uuid>, causationId: Option<Uuid>)

  datatype DocumentWork =
    | EvidenceWork(evidenceSubmissionId: Uuid, objectKey: string)
    | PolicyWork(policyId: Uuid, objectKey: string)

  datatype Payload = DocumentPayload(work: DocumentWork) | InvitationPayload(invitationId: Uuid, generation: int)

  datatype Message =
    | ScanDocument(metadata: Metadata, payload: Payload)
    | FinalizeDocument(metadata: Metadata, payload: Payload)
    | SendWorkspaceInvitation(metadata: Metadata, payload: Payload)

  datatype DecodeError =
    | MalformedEnvelope
    | UnknownKind(kind: Kind)
    | UnknownType(messageType: string)
    | UnsupportedVersion(messageType: string, version: int)
    | MalformedPayload

  // ---------- constructors ----------

  function WorkFor(identity: DocumentIdentity, objectKey: string): DocumentWork {
    match identity.owner
    case EvidenceSubmission(id) => EvidenceWork(id, objectKey)
    case Policy(id) => PolicyWork(id, objectKey)
  }

  function DocumentMetadata(identity: DocumentIdentity, messageId: Uuid, correlation: Option<Uuid>,
        causation: Option<Uuid>): Metadata {
    Metadata(messageId, Format(identity.documentId), correlation, causation)
  }

  function ScanDocumentMessage(
      identity: DocumentIdentity, objectKey: string, messageId: Uuid, correlation: Option<Uuid>,
        causation: Option<Uuid>): Message {
    ScanDocument(DocumentMetadata(identity, messageId, correlation, causation),
                 DocumentPayload(WorkFor(identity, objectKey)))
  }

  function FinalizeDocumentMessage(
      identity: DocumentIdentity, objectKey: string, messageId: Uuid, correlation: Option<Uuid>,
        causation: Option<Uuid>): Message {
    FinalizeDocument(DocumentMetadata(identity, messageId, correlation, causation),
                     DocumentPayload(WorkFor(identity, objectKey)))
  }

  function SendWorkspaceInvitationMessage(
      invitationId: Uuid, generation: int, messageId: Uuid, correlation: Option<Uuid>,
        causation: Option<Uuid>): Message {
    SendWorkspaceInvitation(
      Metadata(messageId, Format(invitationId), correlation, causation), InvitationPayload(invitationId, generation))
  }

  /** The pairing of message type and payload that the constructors guarantee. */
  predicate WellTyped(m: Message) {
    match m
    case SendWorkspaceInvitation(_, p) => p.InvitationPayload? && I64_MIN <= p.generation <= I64_MAX
    case _ => m.payload.DocumentPayload?
  }

  function MessageType(m: Message): string {
    match m
    case ScanDocument(_, _) => "ScanDocument"
    case FinalizeDocument(_, _) => "FinalizeDocument"
    case SendWorkspaceInvitation(_, _) => "SendWorkspaceInvitation"
  }

  function AggregateType(p: Payload): string {
    match p
    case DocumentPayload(EvidenceWork(_, _)) => "evidence_document"
    case DocumentPayload(PolicyWork(_, _)) => "policy_document"
    case InvitationPayload(_, _) => "workspace_invitation"
  }

  // ---------- JSON forms ----------

  function PayloadJson(p: Payload): Json {
    match p
    case DocumentPayload(EvidenceWork(id, key)) =>
      Obj(map["evidence_submission_id" := Str(Format(id)), "object_key" := Str(key)])
    case DocumentPayload(PolicyWork(id, key)) =>
      Obj(map["policy_id" := Str(Format(id)), "object_key" := Str(key)])
    case InvitationPayload(id, generation) =>
      Obj(map["invitation_id" := Str(Format(id)), "generation" := Num(generation)])
  }

  function KindText(kind: Kind): string {
    if kind.Command? then "command" else "event"
  }

  function EnvelopeFields(
      messageId: Json, kind: Json, messageType: Json, version: Json, subject: Json, correlationId: Json,
      causationId: Json, payload: Json): map<string, Json> {
    map["message_id" := messageId, "kind" := kind, "type" := messageType, "version" := version, "subject" := subject,
        "correlation_id" := correlationId, "causation_id" := causationId, "payload" := payload]
  }

  function EnvelopeJson(kind: Kind, messageType: string, version: int, metadata: Metadata, payload: Json): Json {
    Obj(EnvelopeFields(
      Str(Format(metadata.messageId)), Str(KindText(kind)), Str(messageType), Num(version), Str(metadata.subject),
      OptionalUuid(metadata.correlationId), OptionalUuid(metadata.causationId), payload))
  }

  function ToEnvelope(m: Message): Json {
    EnvelopeJson(Command, MessageType(m), CURRENT_MESSAGE_VERSION, m.metadata, PayloadJson(m.payload))
  }

  /** A unit variant is its name, or an object with that single name and null. */
  function AsKind(v: Json): Option<Kind> {
    if v == Str("command") || v == Obj(map["command" := Null]) then Some(Command)
    else if v == Str("event") || v == Obj(map["event" := Null]) then Some(Event)
    else None
  }

  function AsTwoFields(v: Json, first: string, second: string): Option<(Json, Json)> {
    match StructFields(v, [first, second], true)
    case Some(f) => if first in f && second in f then Some((f[first], f[second])) else None
    case None => None
  }

  /** An untagged enum: the evidence form is tried first. */
  function AsDocumentWork(v: Json): Option<DocumentWork> {
    match AsOwnedWork(v, "evidence_submission_id")
    case Some((id, key)) => Some(EvidenceWork(id, key))
    case None =>
      match AsOwnedWork(v, "policy_id")
      case Some((id, key)) => Some(PolicyWork(id, key))
      case None => None
  }

  function AsOwnedWork(v: Json, ownerField: string): Option<(Uuid, string)> {
    match AsTwoFields(v, ownerField, "object_key")
    case None => None
    case Some((owner, key)) =>
      match (AsUuid(owner), AsString(key))
      case (Some(id), Some(k)) => Some((id, k))
      case _ => None
  }

  function AsInvitationWork(v: Json): Option<(Uuid, int)> {
    match AsTwoFields(v, "invitation_id", "generation")
    case None => None
    case Some((id, generation)) =>
      match (AsUuid(id), AsInt(generation, I64_MIN, I64_MAX))
      case (Some(i), Some(g)) => Some((i, g))
      case _ => None
  }

  datatype Header = Header(metadata: Metadata, kind: Kind, messageType: string, version: int, payload: Json)

  const HEADER_FIELDS :=
    ["message_id", "kind", "type", "version", "subject", "correlation_id", "causation_id", "payload"]

  function HeaderOf(f: map<string, Json>): Option<Header> {
    match (AsUuid(Lookup(f, "message_id")), AsKind(Lookup(f, "kind")), AsString(Lookup(f, "type")),
           AsInt(Lookup(f, "version"), I32_MIN, I32_MAX), AsString(Lookup(f, "subject")),
           AsOptionalUuid(Lookup(f, "correlation_id")), AsOptionalUuid(Lookup(f, "causation_id")))
    case (Some(id), Some(kind), Some(t), Some(version), Some(subject), Some(correlation), Some(causation)) =>
      if "payload" in f then Some(Header(Metadata(id, subject, correlation, causation), kind, t, version, f["payload"]))
      else None
    case _ => None
  }

  function DecodeHeader(v: Json): Option<Header> {
    match StructFields(v, HEADER_FIELDS, true)
    case Some(f) => HeaderOf(f)
    case None => None
  }

  function DecodeBody(h: Header): Result<Message, DecodeError> {
    if h.messageType == "ScanDocument" || h.messageType == "FinalizeDocument" then
      match AsDocumentWork(h.payload)
      case None => Err(MalformedPayload)
      case Some(work) =>
        if h.messageType == "ScanDocument" then Ok(ScanDocument(h.metadata, DocumentPayload(work)))
        else Ok(FinalizeDocument(h.metadata, DocumentPayload(work)))
    else if h.messageType == "SendWorkspaceInvitation" then
      match AsInvitationWork(h.payload)
      case None => Err(MalformedPayload)
      case Some((id, generation)) => Ok(SendWorkspaceInvitation(h.metadata, InvitationPayload(id, generation)))
    else Err(UnknownType(h.messageType))
  }

  function FromEnvelope(v: Json): Result<Message, DecodeError> {
    match DecodeHeader(v)
    case None => Err(MalformedEnvelope)
    case Some(h) =>
      if h.kind != Command then Err(UnknownKind(h.kind))
      else if h.version != CURRENT_MESSAGE_VERSION then Err(UnsupportedVersion(h.messageType, h.version))
      else DecodeBody(h)
  }

  // ---------- round trips ----------

  lemma TwoFieldsRoundTrip(first: string, second: string, a: Json, b: Json)
    requires first != second
    ensures AsTwoFields(Obj(map[first := a, second := b]), first, second) == Some((a, b))
    ensures forall other :: other != first && other != second ==>
      AsTwoFields(Obj(map[first := a, second := b]), other, second) == None
  {
    var f := map[first := a, second := b];
    forall other | other != first && other != second ensures AsTwoFields(Obj(f), other, second) == None {
      assert first in f && first !in [other, second];
    }
  }

  lemma FieldNamesDiffer()
    ensures "evidence_submission_id" != "object_key" && "policy_id" != "object_key"
    ensures "evidence_submission_id" != "policy_id" && "invitation_id" != "generation"
  {}

  lemma DocumentWorkRoundTrip(w: DocumentWork)
    ensures AsDocumentWork(PayloadJson(DocumentPayload(w))) == Some(w)
  {
    FieldNamesDiffer();
    match w
    case EvidenceWork(id, key) =>
      ParseFormat(id);
      TwoFieldsRoundTrip("evidence_submission_id", "object_key", Str(Format(id)), Str(key));
    case PolicyWork(id, key) =>
      ParseFormat(id);
      TwoFieldsRoundTrip("policy_id", "object_key", Str(Format(id)), Str(key));
  }

  lemma InvitationWorkRoundTrip(id: Uuid, generation: int)
    requires I64_MIN <= generation <= I64_MAX
    ensures AsInvitationWork(PayloadJson(InvitationPayload(id, generation))) == Some((id, generation))
  {
    FieldNamesDiffer();
    ParseFormat(id);
    TwoFieldsRoundTrip("invitation_id", "generation", Str(Format(id)), Num(generation));
  }

  /** Which objects are document work: exactly the two fields, whose names tell the owner. */
  lemma WorkReadsExactly(f: map<string, Json>, id: Uuid, key: string)
    ensures AsDocumentWork(Obj(f)) == Some(EvidenceWork(id, key)) <==>
      && f.Keys == {"evidence_submission_id", "object_key"}
      && AsUuid(Lookup(f, "evidence_submission_id")) == Some(id) && Lookup(f, "object_key") == Str(key)
    ensures AsDocumentWork(Obj(f)) == Some(PolicyWork(id, key)) <==>
      && f.Keys == {"policy_id", "object_key"}
      && AsUuid(Lookup(f, "policy_id")) == Some(id) && Lookup(f, "object_key") == Str(key)
  {
    FieldNamesDiffer();
    TwoFieldsExactly(f, "evidence_submission_id", "object_key");
    TwoFieldsExactly(f, "policy_id", "object_key");
  }

  /** And which are invitation work. */
  lemma InvitationReadsExactly(f: map<string, Json>, id: Uuid, generation: int)
    ensures AsInvitationWork(Obj(f)) == Some((id, generation)) <==>
      && f.Keys == {"invitation_id", "generation"} && AsUuid(Lookup(f, "invitation_id")) == Some(id)
      && Lookup(f, "generation") == Num(generation) && I64_MIN <= generation <= I64_MAX
  {
    FieldNamesDiffer();
    TwoFieldsExactly(f, "invitation_id", "generation");
  }

  lemma TwoFieldsExactly(f: map<string, Json>, first: string, second: string)
    ensures AsTwoFields(Obj(f), first, second) ==
      if f.Keys == {first, second} then Some((f[first], f[second])) else None
  {
    if AsTwoFields(Obj(f), first, second).Some? {
      assert forall k :: k in f ==> k in [first, second];
      assert f.Keys == {first, second};
    }
  }

  lemma EnvelopeFieldsReadBack(a: Json, b: Json, c: Json, d: Json, e: Json, g: Json, h: Json, p: Json)
    ensures var f := EnvelopeFields(a, b, c, d, e, g, h, p);
      && Lookup(f, "message_id") == a && Lookup(f, "kind") == b && Lookup(f, "type") == c && Lookup(f, "version") == d
      && Lookup(f, "subject") == e && Lookup(f, "correlation_id") == g && Lookup(f, "causation_id") == h
      && "payload" in f && f["payload"] == p
  {
    assert "kind"[0] == 'k' && "type"[0] == 't';
    assert "version"[0] == 'v' && "subject"[0] == 's' && "payload"[0] == 'p';
    assert |"message_id"| == 10 && |"kind"| == 4 && |"type"| == 4 && |"version"| == 7;
    assert |"subject"| == 7 && |"correlation_id"| == 14 && |"causation_id"| == 12 && |"payload"| == 7;
  }

  lemma EnvelopeFieldsKnown(a: Json, b: Json, c: Json, d: Json, e: Json, g: Json, h: Json, p: Json)
    ensures var f := EnvelopeFields(a, b, c, d, e, g, h, p); StructFields(Obj(f), HEADER_FIELDS, true) == Some(f)
  {
    var f := EnvelopeFields(a, b, c, d, e, g, h, p);
    var n := HEADER_FIELDS;
    forall k | k in f ensures k in n {
      assert k == n[0] || k == n[1] || k == n[2] || k == n[3] || k == n[4] || k == n[5] || k == n[6] || k == n[7];
    }
  }

  lemma HeaderRoundTrip(kind: Kind, messageType: string, version: int, metadata: Metadata, payload: Json)
    requires I32_MIN <= version <= I32_MAX
    ensures DecodeHeader(EnvelopeJson(kind, messageType, version, metadata, payload))
         == Some(Header(metadata, kind, messageType, version, payload))
  {
    ParseFormat(metadata.messageId);
    OptionalUuidRoundTrip(metadata.correlationId);
    OptionalUuidRoundTrip(metadata.causationId);
    KindRoundTrip(kind);
    EnvelopeFieldsKnown(
      Str(Format(metadata.messageId)), Str(KindText(kind)), Str(messageType), Num(version), Str(metadata.subject),
      OptionalUuid(metadata.correlationId), OptionalUuid(metadata.causationId), payload);
    EnvelopeFieldsReadBack(
      Str(Format(metadata.messageId)), Str(KindText(kind)), Str(messageType), Num(version), Str(metadata.subject),
      OptionalUuid(metadata.correlationId), OptionalUuid(metadata.causationId), payload);
  }

  lemma KindRoundTrip(kind: Kind)
    ensures AsKind(Str(KindText(kind))) == Some(kind)
  {
    assert "command"[0] == 'c' && "event"[0] == 'e';
  }

  /** Whatever a constructor built comes back unchanged. */
  lemma EnvelopeRoundTrip(m: Message)
    requires WellTyped(m)
    ensures FromEnvelope(ToEnvelope(m)) == Ok(m)
  {
    HeaderRoundTrip(Command, MessageType(m), CURRENT_MESSAGE_VERSION, m.metadata, PayloadJson(m.payload));
    match m.payload
    case DocumentPayload(w) => DocumentWorkRoundTrip(w);
    case InvitationPayload(id, generation) => InvitationWorkRoundTrip(id, generation);
  }

  /**
    What becomes of an envelope that reads: only commands of the one version are decoded, and then only the three
    types, each with its own payload.
   */
  lemma DecodesExactly(kind: Kind, messageType: string, version: int, metadata: Metadata, payload: Json)
    requires I32_MIN <= version <= I32_MAX
    ensures var r := FromEnvelope(EnvelopeJson(kind, messageType, version, metadata, payload));
      var work, invitation := AsDocumentWork(payload), AsInvitationWork(payload);
      r == if kind == Event then Err(UnknownKind(Event))
           else if version != 1 then Err(UnsupportedVersion(messageType, version))
           else if messageType == "ScanDocument" && work.Some? then
             Ok(ScanDocument(metadata, DocumentPayload(work.value)))
           else if messageType == "FinalizeDocument" && work.Some? then
             Ok(FinalizeDocument(metadata, DocumentPayload(work.value)))
           else if messageType == "SendWorkspaceInvitation" && invitation.Some? then
             Ok(SendWorkspaceInvitation(metadata, InvitationPayload(invitation.value.0, invitation.value.1)))
           else if messageType in ["ScanDocument", "FinalizeDocument", "SendWorkspaceInvitation"] then
             Err(MalformedPayload)
           else Err(UnknownType(messageType))
  {
    HeaderRoundTrip(kind, messageType, version, metadata, payload);
    assert |"ScanDocument"| == 12 && |"FinalizeDocument"| == 16 && |"SendWorkspaceInvitation"| == 23;
  }

  /** Which objects read as envelopes: all of the fields, each of its own kind, and no others. */
  lemma ReadsExactly(f: map<string, Json>)
    ensures FromEnvelope(Obj(f)) != Err(MalformedEnvelope) <==>
      && (forall k :: k in f ==> k in ["message_id", "kind", "type", "version", "subject", "correlation_id",
                                       "causation_id", "payload"])
      && "payload" in f && AsUuid(Lookup(f, "message_id")).Some? && Lookup(f, "type").Str? && Lookup(f, "subject").Str?
      && Lookup(f, "kind") in {Str("command"), Str("event"), Obj(map["command" := Null]), Obj(map["event" := Null])}
      && Lookup(f, "version").Num? && -0x8000_0000 <= Lookup(f, "version").n < 0x8000_0000
      && (Lookup(f, "correlation_id") == Null || AsUuid(Lookup(f, "correlation_id")).Some?)
      && (Lookup(f, "causation_id") == Null || AsUuid(Lookup(f, "causation_id")).Some?)
  {
    MalformedIff(f);
    HeaderIff(f);
    assert HEADER_FIELDS
        == ["message_id", "kind", "type", "version", "subject", "correlation_id", "causation_id", "payload"];
  }

  /** An array stands for the fields in the order of their declaration. */
  lemma ArrayReads(items: seq<Json>)
    requires |items| == 8
    ensures FromEnvelope(Arr(items))
         == FromEnvelope(Obj(EnvelopeFields(items[0], items[1], items[2], items[3], items[4], items[5], items[6],
                                            items[7])))
  {
    var f := EnvelopeFields(items[0], items[1], items[2], items[3], items[4], items[5], items[6], items[7]);
    EnvelopeFieldsKnown(items[0], items[1], items[2], items[3], items[4], items[5], items[6], items[7]);
    ZipIsEnvelope(items, f);
  }

  lemma ZipIsEnvelope(items: seq<Json>, f: map<string, Json>)
    requires |items| == 8
    requires f == EnvelopeFields(items[0], items[1], items[2], items[3], items[4], items[5], items[6], items[7])
    ensures Zip(HEADER_FIELDS, items) == f
  {
    HeaderFieldsDiffer();
    EnvelopeHasHeaders(items, f);
    ZipIs(HEADER_FIELDS, items, f);
  }

  lemma HeaderFieldsDiffer()
    ensures forall i, j :: 0 <= i < j < 8 ==> HEADER_FIELDS[i] != HEADER_FIELDS[j]
  {
    var n := HEADER_FIELDS;
    assert |n[0]| == 10 && |n[1]| == 4 && |n[2]| == 4 && |n[3]| == 7 && |n[4]| == 7 && |n[5]| == 14 && |n[6]| == 12;
    assert |n[7]| == 7 && n[1][0] == 'k' && n[2][0] == 't' && n[3][0] == 'v' && n[4][0] == 's' && n[7][0] == 'p';
  }

  lemma EnvelopeHasHeaders(items: seq<Json>, f: map<string, Json>)
    requires |items| == 8
    requires f == EnvelopeFields(items[0], items[1], items[2], items[3], items[4], items[5], items[6], items[7])
    ensures forall k :: k in f ==> k in HEADER_FIELDS
    ensures forall i :: 0 <= i < 8 ==> HEADER_FIELDS[i] in f && f[HEADER_FIELDS[i]] == items[i]
  {
    var n := HEADER_FIELDS;
    EnvelopeFieldsReadBack(items[0], items[1], items[2], items[3], items[4], items[5], items[6], items[7]);
    EnvelopeFieldsKnown(items[0], items[1], items[2], items[3], items[4], items[5], items[6], items[7]);
    assert n == ["message_id", "kind", "type", "version", "subject", "correlation_id", "causation_id", "payload"];
  }

  lemma MalformedIff(f: map<string, Json>)
    ensures FromEnvelope(Obj(f)) == Err(MalformedEnvelope) <==> DecodeHeader(Obj(f)).None?
    ensures DecodeHeader(Obj(f)).Some? <==> (forall k :: k in f ==> k in HEADER_FIELDS) && HeaderOf(f).Some?
  {}

  lemma HeaderIff(f: map<string, Json>)
    ensures HeaderOf(f).Some? <==>
      && "payload" in f && AsUuid(Lookup(f, "message_id")).Some? && Lookup(f, "type").Str? && Lookup(f, "subject").Str?
      && Lookup(f, "kind") in {Str("command"), Str("event"), Obj(map["command" := Null]), Obj(map["event" := Null])}
      && Lookup(f, "version").Num? && -0x8000_0000 <= Lookup(f, "version").n < 0x8000_0000
      && (Lookup(f, "correlation_id") == Null || AsUuid(Lookup(f, "correlation_id")).Some?)
      && (Lookup(f, "causation_id") == Null || AsUuid(Lookup(f, "causation_id")).Some?)
  {}

  /** Everything the decoder accepts is well typed, so re-encoding it loses nothing. */
  lemma DecodedIsWellTyped(v: Json)
    requires FromEnvelope(v).Ok?
    ensures WellTyped(FromEnvelope(v).value)
    ensures FromEnvelope(ToEnvelope(FromEnvelope(v).value)) == FromEnvelope(v)
  {
    EnvelopeRoundTrip(FromEnvelope(v).value);
  }
}
