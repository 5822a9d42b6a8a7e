/** Smev3Constants: the header vocabulary of the component and the helpers that
    move values between SMEV metadata, exchange headers and attachment headers. */
module Smev3Constants {
  import opened Base
  import opened Sdk
  import opened Camel

  // ---------------------------------------------------------------------------
  // Header names

  const HEADER_PREFIX: string := "CamelSmev3"

  const MESSAGE_ID: string := HEADER_PREFIX + "MessageId"
  const ORIGINAL_MESSAGEID: string := HEADER_PREFIX + "MessageOriginalId"
  const MESSAGE_REFERENCE_ID: string := HEADER_PREFIX + "MessageReferenceId"
  const METADATA_TRANSACTION_CODE: string := HEADER_PREFIX + "MetadataTransactionCode"
  const METADATA_NODEID: string := HEADER_PREFIX + "MetadataNodeId"
  const METADATA_TESTMESSAGE: string := HEADER_PREFIX + "MetadataTestMessage"
  const METADATA_EOL: string := HEADER_PREFIX + "MessageEndOfLife"
  const METADATA_IDTRANSPORT: string := HEADER_PREFIX + "MetadataTransportId"
  const METADATA_PROCESSINGDETAILS: string := HEADER_PREFIX + "MetadataProcessingDetails"
  const METADATA_INTERACTIONTYPE: string := HEADER_PREFIX + "MetadataInteractionType"
  const METADATA_DESTINATIONNAME: string := HEADER_PREFIX + "MetadataDestinationName"
  const METADATA_MESSAGETYPE: string := HEADER_PREFIX + "MetadataMessageType"
  const METADATA_SENDER_MNEMONIC: string := HEADER_PREFIX + "MetadataSenderMnemonic"
  const METADATA_SENDER_HUMANREADABLENAME: string := HEADER_PREFIX + "MetadataSenderHumanReadableName"
  const METADATA_SENDINGTIMESTAMP: string := HEADER_PREFIX + "MetadataSendingTimestamp"
  const METADATA_RECIPIENT_MNEMONIC: string := HEADER_PREFIX + "MetadataRecipientMnemonic"
  const METADATA_RECIPIENT_HUMANREADABLENAME: string := HEADER_PREFIX + "MetadataRecipientHumanReadableName"
  const METADATA_DELIVERYTIMESTAMP: string := HEADER_PREFIX + "MetadataDeliveryTimestamp"
  const METADATA_STATUS: string := HEADER_PREFIX + "MetadataStatus"
  const MESSAGE_REPLYTO: string := HEADER_PREFIX + "MessageReplyTo"
  const STATUS_CODE: string := HEADER_PREFIX + "MessageStatusCode"
  const REJECTION_REASON_CODE: string := HEADER_PREFIX + "MessageRejectionReasonCode"
  const DESCRIPTION: string := HEADER_PREFIX + "MessageDescription"
  const MESSAGE_ACCEPTED: string := HEADER_PREFIX + "MessageAccepted"
  const CONTENT_NAMESPACE_URI: string := HEADER_PREFIX + "ContentNamespaceURI"
  const CONTENT_ROOT_TYPE: string := HEADER_PREFIX + "ContentRootElementLocalName"
  const CONTENT_PERSONAL_SIGNATURE: string := HEADER_PREFIX + "ContentPersonalSignature"
  const EXCEPTION_CAUSE: string := HEADER_PREFIX + "MetadataExceptionCause"
  const EXCEPTION_STACKTRACE: string := HEADER_PREFIX + "MetadataExceptionStackTrace"
  const EXCEPTION_MESSAGE: string := HEADER_PREFIX + "MetadataExceptionMessage"
  const EXCEPTION_LOCALIZED_MESSAGE: string := HEADER_PREFIX + "MetadataExceptionLocalizedMessage"
  const EXCEPTION_CODE: string := HEADER_PREFIX + "MetadataExceptionCode"
  const EXCEPTION_DUMP: string := HEADER_PREFIX + "MetadataExceptionDump"

  const ATTACHMENT_MIMETYPE: string := "AttachmentMimeType"
  const ATTACHMENT_SIGNATUREPKCS7: string := "AttachmentSignaturePKCS7"
  const ATTACHMENT_PASSPORTID: string := "AttachmentPassportId"
  const ATTACHMENT_UUID: string := "AttachmentUUId"
  const ATTACHMENT_NAME: string := "AttachmentName"
  const ATTACHMENT_LENGTH: string := "AttachmentLength"
  const ATTACHMENT_HASH: string := "AttachmentHash"
  /** Written by the file-backed strategy and by AttachmentsUtils; not declared as a constant there. */
  const ATTACHMENT_CONTENT_REF: string := "AttachmentContentRef"

  /** Every exchange header the component defines. */
  const EXCHANGE_HEADERS: seq<string> := [
    MESSAGE_ID, ORIGINAL_MESSAGEID, MESSAGE_REFERENCE_ID, METADATA_TRANSACTION_CODE, METADATA_NODEID,
    METADATA_TESTMESSAGE, METADATA_EOL, METADATA_IDTRANSPORT, METADATA_PROCESSINGDETAILS,
    METADATA_INTERACTIONTYPE, METADATA_DESTINATIONNAME, METADATA_MESSAGETYPE, METADATA_SENDER_MNEMONIC,
    METADATA_SENDER_HUMANREADABLENAME, METADATA_SENDINGTIMESTAMP, METADATA_RECIPIENT_MNEMONIC,
    METADATA_RECIPIENT_HUMANREADABLENAME, METADATA_DELIVERYTIMESTAMP, METADATA_STATUS, MESSAGE_REPLYTO,
    STATUS_CODE, REJECTION_REASON_CODE, DESCRIPTION, MESSAGE_ACCEPTED, CONTENT_NAMESPACE_URI,
    CONTENT_ROOT_TYPE, CONTENT_PERSONAL_SIGNATURE, EXCEPTION_CAUSE, EXCEPTION_STACKTRACE,
    EXCEPTION_MESSAGE, EXCEPTION_LOCALIZED_MESSAGE, EXCEPTION_CODE, EXCEPTION_DUMP]

  // ---------------------------------------------------------------------------
  // Exchange headers: set and get

  /** set(exchange, name, value): a null value leaves the headers alone. */
  function Put(h: Headers, name: string, value: Option<Value>): Headers
  {
    if value.Some? then h[name := value.value] else h
  }

  method Set(exchange: Exchange, name: string, value: Option<Value>)
    modifies exchange
    ensures exchange.headers == Put(old(exchange.headers), name, value)
    ensures exchange.body == old(exchange.body) && exchange.attachmentObjects == old(exchange.attachmentObjects)
  {
    if value.Some? {
      exchange.SetHeader(name, value.value);
    }
  }

  function TextValue(s: Option<string>): Option<Value> {
    if s.Some? then Some(Text(s.value)) else None
  }

  function ObjectValue(s: Option<string>): Option<Value> {
    if s.Some? then Some(Object(s.value)) else None
  }

  function FlagValue(b: Option<bool>): Option<Value> {
    if b.Some? then Some(Flag(b.value)) else None
  }

  // ---------------------------------------------------------------------------
  // Attachment headers: set and typed get

  /** set(attachment, name, value): stores value.toString(); null leaves the headers alone. */
  function AttachmentPut(h: map<string, string>, name: string, value: Option<Value>): map<string, string>
  {
    if value.Some? then h[name := ValueText(value.value)] else h
  }

  method AttachmentSet(a: Attachment, name: string, value: Option<Value>)
    modifies a
    ensures a.headers == AttachmentPut(old(a.headers), name, value)
  {
    if value.Some? {
      a.SetHeader(name, Some(ValueText(value.value)));
    }
  }

  /** The classes the typed attachment getter is asked for. */
  datatype JavaType = StringType | IntegerType | LongType | BytesType | UuidType | UriType | OtherType(name: string)

  /** A value the typed getter returns. */
  datatype Typed = Str(s: string) | Int(n: int) | Raw(b: Bytes) | Uuid(text: string) | Uri(text: string)

  /** get(attachment, name, default, type). Ok(None) is a null result (Base64.decode
      of malformed text, or a null default). An unsupported type raises even when
      the header is absent; an absent header yields the default without conversion. */
  function AttachmentGet(h: map<string, string>, name: string, default: Option<Typed>, t: JavaType, f: Foreign)
    : (r: Result<Option<Typed>>)
    ensures t.OtherType? <==> r == Err(UnsupportedType)
    ensures !t.OtherType? && name !in h ==> r == Ok(default)
    ensures name in h && t == StringType ==> r == Ok(Some(Str(h[name])))
    ensures name in h && t == IntegerType ==>
              (r.Ok? <==> ParseDecimal(h[name], INT_MIN, INT_MAX).Some?) &&
              (r.Ok? ==> r.value == Some(Int(ParseDecimal(h[name], INT_MIN, INT_MAX).value)))
    ensures name in h && t == LongType ==>
              (r.Ok? <==> ParseDecimal(h[name], LONG_MIN, LONG_MAX).Some?) &&
              (r.Ok? ==> r.value == Some(Int(ParseDecimal(h[name], LONG_MIN, LONG_MAX).value)))
    ensures name in h && t == BytesType ==>
              r.Ok? && (r.value.Some? <==> f.base64Decode(h[name]).Some?)
    ensures name in h && t == UuidType ==> (r.Ok? <==> f.uuidFromString(h[name]).Some?)
  {
    if t.OtherType? then Err(UnsupportedType)
    else if name !in h then Ok(default)
    else
      var v := h[name];
      match t
      case StringType => Ok(Some(Str(v)))
      case IntegerType =>
        (match ParseDecimal(v, INT_MIN, INT_MAX)
         case Some(n) => Ok(Some(Int(n)))
         case None => Err(NumberFormat(v)))
      case LongType =>
        (match ParseDecimal(v, LONG_MIN, LONG_MAX)
         case Some(n) => Ok(Some(Int(n)))
         case None => Err(NumberFormat(v)))
      case BytesType =>
        (match f.base64Decode(v)
         case Some(b) => Ok(Some(Raw(b)))
         case None => Ok(None))
      case UuidType =>
        (match f.uuidFromString(v)
         case Some(u) => Ok(Some(Uuid(u)))
         case None => Err(IllegalArgument(v)))
      case UriType => Ok(Some(Uri(f.uriOfPath(v))))
  }

  /** A number stored on an attachment reads back as an Integer, and as a Long. */
  lemma {:induction false} AttachmentNumberRoundTrip(h: map<string, string>, name: string, n: int,
                                                      d: Option<Typed>, f: Foreign)
    requires INT_MIN <= n <= INT_MAX
    ensures AttachmentGet(AttachmentPut(h, name, Some(Number(n))), name, d, IntegerType, f) == Ok(Some(Int(n)))
    ensures AttachmentGet(AttachmentPut(h, name, Some(Number(n))), name, d, LongType, f) == Ok(Some(Int(n)))
  {
    DecimalRoundTrip(n, INT_MIN, INT_MAX);
    DecimalRoundTrip(n, LONG_MIN, LONG_MAX);
  }

  // ---------------------------------------------------------------------------
  // printStackTrace / printException

  /** The text printStackTrace builds: "\tat " before each frame, nothing else. */
  function StackTraceText(frames: seq<string>): string {
    if frames == [] then ""
    else StackTraceText(frames[..|frames| - 1]) + "\tat " + frames[|frames| - 1]
  }

  method PrintStackTrace(frames: seq<string>) returns (s: string)
    ensures s == StackTraceText(frames)
  {
    s := "";
    var i := 0;
    while i < |frames|
      invariant 0 <= i <= |frames|
      invariant s == StackTraceText(frames[..i])
    {
      assert frames[..i + 1][..i] == frames[..i];
      s := s + "\tat " + frames[i];
      i := i + 1;
    }
    assert frames[..i] == frames;
  }

  /** Printing a trace in two pieces prints the pieces one after the other. */
  lemma {:induction false} StackTraceConcat(a: seq<string>, b: seq<string>)
    ensures StackTraceText(a + b) == StackTraceText(a) + StackTraceText(b)
    decreases |b|
  {
    if b == [] {
      assert a + b == a;
    } else {
      var b', x := b[..|b| - 1], b[|b| - 1];
      assert (a + b)[..|a + b| - 1] == a + b' && (a + b)[|a + b| - 1] == x;
      calc {
        StackTraceText(a + b);
        StackTraceText(a + b') + "\tat " + x;
        { StackTraceConcat(a, b'); }
        StackTraceText(a) + StackTraceText(b') + "\tat " + x;
        StackTraceText(a) + (StackTraceText(b') + "\tat " + x);
      }
    }
  }

  /** Each frame contributes exactly its own text plus the four-character "\tat " lead. */
  lemma {:induction false} StackTraceLength(frames: seq<string>, total: nat)
    requires total == SumLengths(frames)
    ensures |StackTraceText(frames)| == 4 * |frames| + total
    decreases |frames|
  {
    if frames != [] {
      var init := frames[..|frames| - 1];
      StackTraceLength(init, SumLengths(init));
    }
  }

  function SumLengths(frames: seq<string>): nat {
    if frames == [] then 0 else SumLengths(frames[..|frames| - 1]) + |frames[|frames| - 1]|
  }

  /** printException: the printed stack trace, or "oops!" when printing fails. */
  function PrintException(fault: SmevFault): string
  {
    if fault.printed.Some? then fault.printed.value else "oops!"
  }

  // ---------------------------------------------------------------------------
  // fillExchangeHeaders

  /** fillExchangeHeaders, block by block: each block function is the headers
      after that block's set calls, in source order. */
  function IdentityHeaders(h: Headers, id: MessageIdentity): Headers {
    var h1 := Put(h, MESSAGE_ID, TextValue(id.messageId));
    var h2 := Put(h1, MESSAGE_REFERENCE_ID, TextValue(id.referenceMessageId));
    Put(h2, METADATA_TRANSACTION_CODE, TextValue(id.transactionCode))
  }

  function NodeId(p: ProcessingInformation): Option<string> {
    match p
    case RequestInformation(_, _, nodeId, _, _) => nodeId
    case ResponseInformation(_, _, _, nodeId, _) => nodeId
    case OtherInformation(nodeId, _) => nodeId
  }

  function ProcessingHeaders(h: Headers, p: ProcessingInformation): Headers {
    var h1 := Put(h, METADATA_NODEID, TextValue(NodeId(p)));
    var h2 := Put(h1, METADATA_MESSAGETYPE, ObjectValue(p.messageType));
    match p
    case ResponseInformation(_, originalMessageId, replyTo, _, _) =>
      Put(Put(h2, ORIGINAL_MESSAGEID, TextValue(originalMessageId)), MESSAGE_REPLYTO, TextValue(replyTo))
    case RequestInformation(_, eol, _, testMessage, _) =>
      Put(Put(h2, METADATA_TESTMESSAGE, FlagValue(testMessage)), METADATA_EOL, ObjectValue(eol))
    case OtherInformation(_, _) => h2
  }

  function ParticipantHeaders(h: Headers, p: Option<Participant>, mnemonic: string, humanReadableName: string): Headers {
    if p.None? then h
    else Put(Put(h, mnemonic, TextValue(p.value.mnemonic)), humanReadableName, TextValue(p.value.humanReadableName))
  }

  function FaultHeaders(h: Headers, fault: Option<SmevFault>): Headers {
    if fault.None? then h
    else
      var x := fault.value;
      var h1 := Put(h, EXCEPTION_CAUSE, ObjectValue(x.cause));
      var h2 := Put(h1, EXCEPTION_LOCALIZED_MESSAGE, TextValue(x.localizedMessage));
      var h3 := Put(h2, EXCEPTION_MESSAGE, TextValue(x.message));
      var h4 := Put(h3, EXCEPTION_STACKTRACE, Some(Text(StackTraceText(x.stackTrace))));
      var h5 := Put(h4, EXCEPTION_DUMP, Some(Text(PrintException(x))));
      if x.processingCode.Some? then Put(h5, EXCEPTION_CODE, TextValue(x.processingCode.value)) else h5
  }

  function ContextHeadHeaders(h: Headers, c: SmevContext): Headers {
    var h1 := Put(h, METADATA_IDTRANSPORT, TextValue(c.idTransport));
    var h2 := Put(h1, METADATA_PROCESSINGDETAILS, ObjectValue(c.processingDetails));
    var h3 := Put(h2, METADATA_INTERACTIONTYPE, ObjectValue(c.interactionType));
    var h4 := Put(h3, METADATA_DESTINATIONNAME, TextValue(c.destinationName));
    var h5 := Put(h4, METADATA_SENDINGTIMESTAMP, ObjectValue(c.sendingTimestamp));
    var h6 := Put(h5, METADATA_DELIVERYTIMESTAMP, ObjectValue(c.deliveryTimestamp));
    var h7 := Put(h6, METADATA_STATUS, ObjectValue(c.status));
    Put(h7, MESSAGE_REPLYTO, TextValue(c.replyTo))
  }

  function ContextHeaders(h: Headers, c: SmevContext): Headers {
    var h1 := ContextHeadHeaders(h, c);
    var h2 := ParticipantHeaders(h1, c.sender, METADATA_SENDER_MNEMONIC, METADATA_SENDER_HUMANREADABLENAME);
    var h3 := ParticipantHeaders(h2, c.recipient, METADATA_RECIPIENT_MNEMONIC, METADATA_RECIPIENT_HUMANREADABLENAME);
    FaultHeaders(h3, c.fault)
  }

  /** The exchange headers after fillExchangeHeaders. */
  function FilledHeaders(h: Headers, md: Option<Metadata>): Headers {
    if md.None? then h
    else
      var m := md.value;
      var h2 := ProcessingStage(IdentityStage(h, m), m);
      if m.context.Some? then ContextHeaders(h2, m.context.value) else h2
  }

  function IdentityStage(h: Headers, m: Metadata): Headers {
    if m.identity.Some? then IdentityHeaders(h, m.identity.value) else h
  }

  function ProcessingStage(h: Headers, m: Metadata): Headers {
    if m.processing.Some? then ProcessingHeaders(h, m.processing.value) else h
  }

  /** fillExchangeHeaders: copies every non-null metadata field into its header. */
  method FillExchangeHeaders(exchange: Exchange, md: Option<Metadata>)
    modifies exchange
    ensures exchange.headers == FilledHeaders(old(exchange.headers), md)
    ensures exchange.body == old(exchange.body) && exchange.attachmentObjects == old(exchange.attachmentObjects)
  {
    if md.Some? {
      var m := md.value;
      if m.identity.Some? {
        var id := m.identity.value;
        Set(exchange, MESSAGE_ID, TextValue(id.messageId));
        Set(exchange, MESSAGE_REFERENCE_ID, TextValue(id.referenceMessageId));
        Set(exchange, METADATA_TRANSACTION_CODE, TextValue(id.transactionCode));
      }
      if m.processing.Some? {
        FillProcessing(exchange, m.processing.value);
      }
      if m.context.Some? {
        FillContext(exchange, m.context.value);
      }
    }
  }

  method FillProcessing(exchange: Exchange, p: ProcessingInformation)
    modifies exchange
    ensures exchange.headers == ProcessingHeaders(old(exchange.headers), p)
    ensures exchange.body == old(exchange.body) && exchange.attachmentObjects == old(exchange.attachmentObjects)
  {
    Set(exchange, METADATA_NODEID, TextValue(NodeId(p)));
    Set(exchange, METADATA_MESSAGETYPE, ObjectValue(p.messageType));
    match p {
      case ResponseInformation(_, originalMessageId, replyTo, _, _) =>
        Set(exchange, ORIGINAL_MESSAGEID, TextValue(originalMessageId));
        Set(exchange, MESSAGE_REPLYTO, TextValue(replyTo));
      case RequestInformation(_, eol, _, testMessage, _) =>
        Set(exchange, METADATA_TESTMESSAGE, FlagValue(testMessage));
        Set(exchange, METADATA_EOL, ObjectValue(eol));
      case OtherInformation(_, _) =>
    }
  }

  method FillContext(exchange: Exchange, c: SmevContext)
    modifies exchange
    ensures exchange.headers == ContextHeaders(old(exchange.headers), c)
    ensures exchange.body == old(exchange.body) && exchange.attachmentObjects == old(exchange.attachmentObjects)
  {
    Set(exchange, METADATA_IDTRANSPORT, TextValue(c.idTransport));
    Set(exchange, METADATA_PROCESSINGDETAILS, ObjectValue(c.processingDetails));
    Set(exchange, METADATA_INTERACTIONTYPE, ObjectValue(c.interactionType));
    Set(exchange, METADATA_DESTINATIONNAME, TextValue(c.destinationName));
    Set(exchange, METADATA_SENDINGTIMESTAMP, ObjectValue(c.sendingTimestamp));
    Set(exchange, METADATA_DELIVERYTIMESTAMP, ObjectValue(c.deliveryTimestamp));
    Set(exchange, METADATA_STATUS, ObjectValue(c.status));
    Set(exchange, MESSAGE_REPLYTO, TextValue(c.replyTo));
    if c.sender.Some? {
      Set(exchange, METADATA_SENDER_MNEMONIC, TextValue(c.sender.value.mnemonic));
      Set(exchange, METADATA_SENDER_HUMANREADABLENAME, TextValue(c.sender.value.humanReadableName));
    }
    if c.recipient.Some? {
      Set(exchange, METADATA_RECIPIENT_MNEMONIC, TextValue(c.recipient.value.mnemonic));
      Set(exchange, METADATA_RECIPIENT_HUMANREADABLENAME, TextValue(c.recipient.value.humanReadableName));
    }
    if c.fault.Some? {
      var x := c.fault.value;
      Set(exchange, EXCEPTION_CAUSE, ObjectValue(x.cause));
      Set(exchange, EXCEPTION_LOCALIZED_MESSAGE, TextValue(x.localizedMessage));
      Set(exchange, EXCEPTION_MESSAGE, TextValue(x.message));
      var trace := PrintStackTrace(x.stackTrace);
      Set(exchange, EXCEPTION_STACKTRACE, Some(Text(trace)));
      Set(exchange, EXCEPTION_DUMP, Some(Text(PrintException(x))));
      if x.processingCode.Some? {
        Set(exchange, EXCEPTION_CODE, TextValue(x.processingCode.value));
      }
    }
  }

  // ---------------------------------------------------------------------------
  // Properties of fillExchangeHeaders

  lemma PutOverride(h: Headers, w: Headers, name: string, value: Option<Value>)
    ensures Put(h + w, name, value) == h + Put(w, name, value)
  {
  }

  lemma ParticipantOverride(h: Headers, w: Headers, p: Option<Participant>, n1: string, n2: string)
    ensures ParticipantHeaders(h + w, p, n1, n2) == h + ParticipantHeaders(w, p, n1, n2)
  {
    if p.Some? {
      PutOverride(h, w, n1, TextValue(p.value.mnemonic));
      PutOverride(h, Put(w, n1, TextValue(p.value.mnemonic)), n2, TextValue(p.value.humanReadableName));
    }
  }

  lemma {:induction false} FaultOverride(h: Headers, w: Headers, fault: Option<SmevFault>)
    ensures FaultHeaders(h + w, fault) == h + FaultHeaders(w, fault)
  {
    if fault.Some? {
      var x := fault.value;
      var w1 := Put(w, EXCEPTION_CAUSE, ObjectValue(x.cause));
      var w2 := Put(w1, EXCEPTION_LOCALIZED_MESSAGE, TextValue(x.localizedMessage));
      var w3 := Put(w2, EXCEPTION_MESSAGE, TextValue(x.message));
      var w4 := Put(w3, EXCEPTION_STACKTRACE, Some(Text(StackTraceText(x.stackTrace))));
      var w5 := Put(w4, EXCEPTION_DUMP, Some(Text(PrintException(x))));
      PutOverride(h, w, EXCEPTION_CAUSE, ObjectValue(x.cause));
      PutOverride(h, w1, EXCEPTION_LOCALIZED_MESSAGE, TextValue(x.localizedMessage));
      PutOverride(h, w2, EXCEPTION_MESSAGE, TextValue(x.message));
      PutOverride(h, w3, EXCEPTION_STACKTRACE, Some(Text(StackTraceText(x.stackTrace))));
      PutOverride(h, w4, EXCEPTION_DUMP, Some(Text(PrintException(x))));
      if x.processingCode.Some? {
        PutOverride(h, w5, EXCEPTION_CODE, TextValue(x.processingCode.value));
      }
    }
  }

  lemma {:induction false} ContextOverride(h: Headers, w: Headers, c: SmevContext)
    ensures ContextHeaders(h + w, c) == h + ContextHeaders(w, c)
  {
    var w1 := Put(w, METADATA_IDTRANSPORT, TextValue(c.idTransport));
    var w2 := Put(w1, METADATA_PROCESSINGDETAILS, ObjectValue(c.processingDetails));
    var w3 := Put(w2, METADATA_INTERACTIONTYPE, ObjectValue(c.interactionType));
    var w4 := Put(w3, METADATA_DESTINATIONNAME, TextValue(c.destinationName));
    var w5 := Put(w4, METADATA_SENDINGTIMESTAMP, ObjectValue(c.sendingTimestamp));
    var w6 := Put(w5, METADATA_DELIVERYTIMESTAMP, ObjectValue(c.deliveryTimestamp));
    var w7 := Put(w6, METADATA_STATUS, ObjectValue(c.status));
    PutOverride(h, w, METADATA_IDTRANSPORT, TextValue(c.idTransport));
    PutOverride(h, w1, METADATA_PROCESSINGDETAILS, ObjectValue(c.processingDetails));
    PutOverride(h, w2, METADATA_INTERACTIONTYPE, ObjectValue(c.interactionType));
    PutOverride(h, w3, METADATA_DESTINATIONNAME, TextValue(c.destinationName));
    PutOverride(h, w4, METADATA_SENDINGTIMESTAMP, ObjectValue(c.sendingTimestamp));
    PutOverride(h, w5, METADATA_DELIVERYTIMESTAMP, ObjectValue(c.deliveryTimestamp));
    PutOverride(h, w6, METADATA_STATUS, ObjectValue(c.status));
    PutOverride(h, w7, MESSAGE_REPLYTO, TextValue(c.replyTo));
    var v1 := ContextHeadHeaders(w, c);
    var v2 := ParticipantHeaders(v1, c.sender, METADATA_SENDER_MNEMONIC, METADATA_SENDER_HUMANREADABLENAME);
    var v3 := ParticipantHeaders(v2, c.recipient, METADATA_RECIPIENT_MNEMONIC, METADATA_RECIPIENT_HUMANREADABLENAME);
    ParticipantOverride(h, v1, c.sender, METADATA_SENDER_MNEMONIC, METADATA_SENDER_HUMANREADABLENAME);
    ParticipantOverride(h, v2, c.recipient, METADATA_RECIPIENT_MNEMONIC, METADATA_RECIPIENT_HUMANREADABLENAME);
    FaultOverride(h, v3, c.fault);
  }

  lemma {:induction false} ProcessingOverride(h: Headers, w: Headers, p: ProcessingInformation)
    ensures ProcessingHeaders(h + w, p) == h + ProcessingHeaders(w, p)
  {
    var w1 := Put(w, METADATA_NODEID, TextValue(NodeId(p)));
    var w2 := Put(w1, METADATA_MESSAGETYPE, ObjectValue(p.messageType));
    PutOverride(h, w, METADATA_NODEID, TextValue(NodeId(p)));
    PutOverride(h, w1, METADATA_MESSAGETYPE, ObjectValue(p.messageType));
    match p
    case ResponseInformation(_, o, r, _, _) =>
      PutOverride(h, w2, ORIGINAL_MESSAGEID, TextValue(o));
      PutOverride(h, Put(w2, ORIGINAL_MESSAGEID, TextValue(o)), MESSAGE_REPLYTO, TextValue(r));
    case RequestInformation(_, e, _, t, _) =>
      PutOverride(h, w2, METADATA_TESTMESSAGE, FlagValue(t));
      PutOverride(h, Put(w2, METADATA_TESTMESSAGE, FlagValue(t)), METADATA_EOL, ObjectValue(e));
    case OtherInformation(_, _) =>
  }

  lemma {:induction false} IdentityOverride(h: Headers, w: Headers, id: MessageIdentity)
    ensures IdentityHeaders(h + w, id) == h + IdentityHeaders(w, id)
  {
    var w1 := Put(w, MESSAGE_ID, TextValue(id.messageId));
    var w2 := Put(w1, MESSAGE_REFERENCE_ID, TextValue(id.referenceMessageId));
    PutOverride(h, w, MESSAGE_ID, TextValue(id.messageId));
    PutOverride(h, w1, MESSAGE_REFERENCE_ID, TextValue(id.referenceMessageId));
    PutOverride(h, w2, METADATA_TRANSACTION_CODE, TextValue(id.transactionCode));
  }

  /** fillExchangeHeaders only adds or overwrites: the result is the old headers
      overridden by the headers the metadata produces on its own. No header is
      removed, and none of the written values depends on what was there. */
  lemma {:induction false} FillIsOverride(h: Headers, md: Option<Metadata>)
    ensures FilledHeaders(h, md) == h + FilledHeaders(map[], md)
  {
    var e: Headers := map[];
    assert h + e == h;
    if md.Some? {
      var m := md.value;
      var v1 := if m.identity.Some? then IdentityHeaders(e, m.identity.value) else e;
      var v2 := if m.processing.Some? then ProcessingHeaders(v1, m.processing.value) else v1;
      if m.identity.Some? {
        IdentityOverride(h, e, m.identity.value);
      }
      if m.processing.Some? {
        ProcessingOverride(h, v1, m.processing.value);
      }
      if m.context.Some? {
        ContextOverride(h, v2, m.context.value);
      }
    }
  }

  /** Filling twice from the same metadata is the same as filling once. */
  lemma {:induction false} FillIdempotent(h: Headers, md: Option<Metadata>)
    ensures FilledHeaders(FilledHeaders(h, md), md) == FilledHeaders(h, md)
  {
    FillIsOverride(h, md);
    FillIsOverride(FilledHeaders(h, md), md);
    var w := FilledHeaders(map[], md);
    assert (h + w) + w == h + w;
  }

  /** Headers outside the component's vocabulary pass through untouched. */
  lemma {:induction false} FillKeepsOtherHeaders(h: Headers, md: Option<Metadata>, k: string)
    requires k !in EXCHANGE_HEADERS
    ensures k in FilledHeaders(h, md) <==> k in h
    ensures k in h ==> FilledHeaders(h, md)[k] == h[k]
  {
    if md.Some? {
      var m := md.value;
      UnlistedNamesUnwritten(k);
      FillFromIdentityStage(h, m, k);
      if m.identity.Some? {
        IdentityFrame(h, m.identity.value, k);
      }
    }
  }

  /** Every name a block writes is one of the component's exchange headers. */
  lemma UnlistedNamesUnwritten(k: string)
    requires k !in EXCHANGE_HEADERS
    ensures k !in IDENTITY_NAMES && k !in PROCESSING_NAMES && k !in CONTEXT_HEAD_NAMES
    ensures k !in PARTICIPANT_NAMES && k !in FAULT_NAMES
  {
  }

  /** Without metadata nothing changes. */
  lemma FillWithoutMetadata(h: Headers)
    ensures FilledHeaders(h, None) == h
    ensures FilledHeaders(h, Some(Metadata(None, None, None))) == h
  {
  }

  /** Two header maps agree on one name. */
  predicate Agree(a: Headers, b: Headers, k: string) {
    (k in a <==> k in b) && (k in a ==> a[k] == b[k])
  }

  const IDENTITY_NAMES: set<string> := {MESSAGE_ID, MESSAGE_REFERENCE_ID, METADATA_TRANSACTION_CODE}
  const PARTICIPANT_NAMES: set<string> := {
    METADATA_SENDER_MNEMONIC, METADATA_SENDER_HUMANREADABLENAME,
    METADATA_RECIPIENT_MNEMONIC, METADATA_RECIPIENT_HUMANREADABLENAME}
  const FAULT_NAMES: set<string> := {
    EXCEPTION_CAUSE, EXCEPTION_LOCALIZED_MESSAGE, EXCEPTION_MESSAGE, EXCEPTION_STACKTRACE,
    EXCEPTION_DUMP, EXCEPTION_CODE}
  const CONTEXT_HEAD_NAMES: set<string> := {
    METADATA_IDTRANSPORT, METADATA_PROCESSINGDETAILS, METADATA_INTERACTIONTYPE, METADATA_DESTINATIONNAME,
    METADATA_SENDINGTIMESTAMP, METADATA_DELIVERYTIMESTAMP, METADATA_STATUS, MESSAGE_REPLYTO}
  const PROCESSING_NAMES: set<string> := {
    METADATA_NODEID, METADATA_MESSAGETYPE, ORIGINAL_MESSAGEID, MESSAGE_REPLYTO, METADATA_TESTMESSAGE, METADATA_EOL}

  lemma FaultFrame(h: Headers, fault: Option<SmevFault>, k: string)
    requires k !in FAULT_NAMES
    ensures Agree(FaultHeaders(h, fault), h, k)
  {
  }

  lemma ParticipantFrame(h: Headers, p: Option<Participant>, n1: string, n2: string, k: string)
    requires k != n1 && k != n2
    ensures Agree(ParticipantHeaders(h, p, n1, n2), h, k)
  {
  }

  lemma ContextTailFrame(h: Headers, c: SmevContext, k: string)
    requires k !in FAULT_NAMES && k !in PARTICIPANT_NAMES
    ensures Agree(ContextHeaders(h, c), ContextHeadHeaders(h, c), k)
  {
    var h1 := ContextHeadHeaders(h, c);
    var h2 := ParticipantHeaders(h1, c.sender, METADATA_SENDER_MNEMONIC, METADATA_SENDER_HUMANREADABLENAME);
    var h3 := ParticipantHeaders(h2, c.recipient, METADATA_RECIPIENT_MNEMONIC, METADATA_RECIPIENT_HUMANREADABLENAME);
    ParticipantFrame(h1, c.sender, METADATA_SENDER_MNEMONIC, METADATA_SENDER_HUMANREADABLENAME, k);
    ParticipantFrame(h2, c.recipient, METADATA_RECIPIENT_MNEMONIC, METADATA_RECIPIENT_HUMANREADABLENAME, k);
    FaultFrame(h3, c.fault, k);
  }

  lemma ContextFrame(h: Headers, c: SmevContext, k: string)
    requires k !in FAULT_NAMES && k !in PARTICIPANT_NAMES && k !in CONTEXT_HEAD_NAMES
    ensures Agree(ContextHeaders(h, c), h, k)
  {
    ContextTailFrame(h, c, k);
    ContextHeadFrame(h, c, k);
  }

  lemma IdentityFrame(h: Headers, id: MessageIdentity, k: string)
    requires k !in IDENTITY_NAMES
    ensures Agree(IdentityHeaders(h, id), h, k)
  {
  }

  lemma ContextHeadFrame(h: Headers, c: SmevContext, k: string)
    requires k !in CONTEXT_HEAD_NAMES
    ensures Agree(ContextHeadHeaders(h, c), h, k)
  {
  }

  lemma ProcessingFrame(h: Headers, p: ProcessingInformation, k: string)
    requires k !in PROCESSING_NAMES
    ensures Agree(ProcessingHeaders(h, p), h, k)
  {
  }

  /** Names that share a length differ at some character. */
  lemma SameLengthNamesDiffer()
    ensures METADATA_TESTMESSAGE != METADATA_IDTRANSPORT && METADATA_TESTMESSAGE != METADATA_MESSAGETYPE
    ensures METADATA_TRANSACTION_CODE != METADATA_DESTINATIONNAME && METADATA_TRANSACTION_CODE != METADATA_INTERACTIONTYPE
    ensures MESSAGE_REPLYTO != METADATA_STATUS && MESSAGE_REPLYTO != METADATA_NODEID
    ensures EXCEPTION_CODE != EXCEPTION_DUMP
  {
    assert EXCEPTION_CODE[27] != EXCEPTION_DUMP[27];
    assert METADATA_TESTMESSAGE[19] != METADATA_IDTRANSPORT[19];
    assert METADATA_TESTMESSAGE[18] != METADATA_MESSAGETYPE[18];
    assert METADATA_TRANSACTION_CODE[18] != METADATA_DESTINATIONNAME[18];
    assert METADATA_TRANSACTION_CODE[18] != METADATA_INTERACTIONTYPE[18];
    assert MESSAGE_REPLYTO[12] != METADATA_STATUS[12];
    assert MESSAGE_REPLYTO[12] != METADATA_NODEID[12];
  }

  /** A name the context block does not write keeps its value from the earlier stages. */
  lemma FillFromProcessingStage(h: Headers, m: Metadata, k: string)
    requires k !in FAULT_NAMES && k !in PARTICIPANT_NAMES && k !in CONTEXT_HEAD_NAMES
    ensures Agree(FilledHeaders(h, Some(m)), ProcessingStage(IdentityStage(h, m), m), k)
  {
    if m.context.Some? {
      ContextFrame(ProcessingStage(IdentityStage(h, m), m), m.context.value, k);
    }
  }

  /** A name neither the processing nor the context block writes keeps its value from the identity stage. */
  lemma FillFromIdentityStage(h: Headers, m: Metadata, k: string)
    requires k !in FAULT_NAMES && k !in PARTICIPANT_NAMES && k !in CONTEXT_HEAD_NAMES && k !in PROCESSING_NAMES
    ensures Agree(FilledHeaders(h, Some(m)), IdentityStage(h, m), k)
  {
    FillFromProcessingStage(h, m, k);
    if m.processing.Some? {
      ProcessingFrame(IdentityStage(h, m), m.processing.value, k);
    }
  }

  lemma ContextReplyTo(h: Headers, c: SmevContext)
    ensures c.replyTo.Some? ==> MESSAGE_REPLYTO in ContextHeaders(h, c) && ContextHeaders(h, c)[MESSAGE_REPLYTO] == Text(c.replyTo.value)
    ensures c.replyTo.None? ==> Agree(ContextHeaders(h, c), h, MESSAGE_REPLYTO)
  {
    ReplyToOutsideContextTail();
    ContextTailFrame(h, c, MESSAGE_REPLYTO);
    HeadReplyTo(h, c);
  }

  lemma ReplyToOutsideContextTail()
    ensures MESSAGE_REPLYTO !in FAULT_NAMES && MESSAGE_REPLYTO !in PARTICIPANT_NAMES
  {
  }

  lemma HeadReplyTo(h: Headers, c: SmevContext)
    ensures c.replyTo.Some? ==> MESSAGE_REPLYTO in ContextHeadHeaders(h, c) && ContextHeadHeaders(h, c)[MESSAGE_REPLYTO] == Text(c.replyTo.value)
    ensures c.replyTo.None? ==> Agree(ContextHeadHeaders(h, c), h, MESSAGE_REPLYTO)
  {
    SameLengthNamesDiffer();
  }

  /** The shape of a fill from a present metadata object: identity, then processing, then context. */
  lemma FillShape(h: Headers, m: Metadata)
    ensures FilledHeaders(h, Some(m)) ==
      var h2 := ProcessingStage(IdentityStage(h, m), m);
      if m.context.Some? then ContextHeaders(h2, m.context.value) else h2
  {
  }

  /** The reply-to address of the SMEV context wins over any other. */
  lemma {:induction false} ReplyToFromContext(h: Headers, m: Metadata)
    requires m.context.Some? && m.context.value.replyTo.Some?
    ensures MESSAGE_REPLYTO in FilledHeaders(h, Some(m)) && FilledHeaders(h, Some(m))[MESSAGE_REPLYTO] == Text(m.context.value.replyTo.value)
  {
    var h2 := ProcessingStage(IdentityStage(h, m), m);
    FillShape(h, m);
    ContextReplyTo(h2, m.context.value);
  }

  /** A response's reply-to address is used when the context has none. */
  lemma {:induction false} ReplyToFromResponse(h: Headers, m: Metadata)
    requires m.context.None? || m.context.value.replyTo.None?
    requires m.processing.Some? && m.processing.value.ResponseInformation? && m.processing.value.replyTo.Some?
    ensures MESSAGE_REPLYTO in FilledHeaders(h, Some(m)) && FilledHeaders(h, Some(m))[MESSAGE_REPLYTO] == Text(m.processing.value.replyTo.value)
  {
    var h2 := ProcessingStage(IdentityStage(h, m), m);
    FillShape(h, m);
    ProcessingReplyTo(IdentityStage(h, m), m.processing.value);
    if m.context.Some? {
      ContextReplyTo(h2, m.context.value);
    }
  }

  lemma ProcessingReplyTo(h: Headers, p: ProcessingInformation)
    requires p.ResponseInformation? && p.replyTo.Some?
    ensures ProcessingHeaders(h, p)[MESSAGE_REPLYTO] == Text(p.replyTo.value)
  {
  }

  /** The exception code header is written exactly for a processing exception with a code. */
  lemma {:induction false} ExceptionCodeOnlyForProcessingFaults(h: Headers, m: Metadata)
    requires EXCEPTION_CODE !in h
    ensures EXCEPTION_CODE in FilledHeaders(h, Some(m)) <==>
      m.context.Some? && m.context.value.fault.Some? &&
      m.context.value.fault.value.processingCode.Some? &&
      m.context.value.fault.value.processingCode.value.Some?
  {
    var h1 := IdentityStage(h, m);
    var h2 := ProcessingStage(h1, m);
    FillShape(h, m);
    assert EXCEPTION_CODE !in PROCESSING_NAMES;
    if m.processing.Some? {
      ProcessingFrame(h1, m.processing.value, EXCEPTION_CODE);
    }
    if m.context.Some? {
      ContextCode(h2, m.context.value);
    }
  }

  lemma ContextCode(h: Headers, c: SmevContext)
    requires EXCEPTION_CODE !in h
    ensures EXCEPTION_CODE in ContextHeaders(h, c) <==>
      c.fault.Some? && c.fault.value.processingCode.Some? && c.fault.value.processingCode.value.Some?
  {
    var g1 := ContextHeadHeaders(h, c);
    var g2 := ParticipantHeaders(g1, c.sender, METADATA_SENDER_MNEMONIC, METADATA_SENDER_HUMANREADABLENAME);
    var g3 := ParticipantHeaders(g2, c.recipient, METADATA_RECIPIENT_MNEMONIC, METADATA_RECIPIENT_HUMANREADABLENAME);
    CodeOutsideContextHead();
    ContextHeadFrame(h, c, EXCEPTION_CODE);
    ParticipantFrame(g1, c.sender, METADATA_SENDER_MNEMONIC, METADATA_SENDER_HUMANREADABLENAME, EXCEPTION_CODE);
    ParticipantFrame(g2, c.recipient, METADATA_RECIPIENT_MNEMONIC, METADATA_RECIPIENT_HUMANREADABLENAME, EXCEPTION_CODE);
    FaultCode(g3, c.fault);
  }

  lemma CodeOutsideContextHead()
    ensures EXCEPTION_CODE !in CONTEXT_HEAD_NAMES && EXCEPTION_CODE !in PARTICIPANT_NAMES
  {
    SameLengthNamesDiffer();
  }

  lemma FaultCode(h: Headers, fault: Option<SmevFault>)
    requires EXCEPTION_CODE !in h
    ensures EXCEPTION_CODE in FaultHeaders(h, fault) <==>
      fault.Some? && fault.value.processingCode.Some? && fault.value.processingCode.value.Some?
  {
    SameLengthNamesDiffer();
  }

  /** The original message id comes only from response information. */
  lemma {:induction false} OriginalIdOnlyFromResponse(h: Headers, m: Metadata)
    requires ORIGINAL_MESSAGEID !in h
    requires m.processing.None? || !m.processing.value.ResponseInformation?
    ensures ORIGINAL_MESSAGEID !in FilledHeaders(h, Some(m))
  {
    OriginalIdOutsideContext();
    FillFromProcessingStage(h, m, ORIGINAL_MESSAGEID);
    if m.identity.Some? {
      IdentityFrame(h, m.identity.value, ORIGINAL_MESSAGEID);
    }
    if m.processing.Some? {
      NonResponseFrame(IdentityStage(h, m), m.processing.value, ORIGINAL_MESSAGEID);
    }
  }

  lemma OriginalIdOutsideContext()
    ensures ORIGINAL_MESSAGEID !in FAULT_NAMES && ORIGINAL_MESSAGEID !in PARTICIPANT_NAMES
    ensures ORIGINAL_MESSAGEID !in CONTEXT_HEAD_NAMES && ORIGINAL_MESSAGEID !in IDENTITY_NAMES
    ensures ORIGINAL_MESSAGEID !in REQUEST_NAMES
  {
  }

  /** Request and other information write only these names. */
  const REQUEST_NAMES: set<string> := {METADATA_NODEID, METADATA_MESSAGETYPE, METADATA_TESTMESSAGE, METADATA_EOL}

  lemma NonResponseFrame(h: Headers, p: ProcessingInformation, k: string)
    requires !p.ResponseInformation? && k !in REQUEST_NAMES
    ensures Agree(ProcessingHeaders(h, p), h, k)
  {
  }

  /** The test flag and the end of life come only from request information. */
  lemma {:induction false} TestFlagOnlyFromRequest(h: Headers, m: Metadata)
    requires METADATA_TESTMESSAGE !in h && METADATA_EOL !in h
    requires m.processing.None? || !m.processing.value.RequestInformation?
    ensures METADATA_TESTMESSAGE !in FilledHeaders(h, Some(m)) && METADATA_EOL !in FilledHeaders(h, Some(m))
  {
    RequestNamesOutsideContext();
    FillFromProcessingStage(h, m, METADATA_TESTMESSAGE);
    FillFromProcessingStage(h, m, METADATA_EOL);
    StagesSkipRequestNames(h, m);
  }

  lemma RequestNamesOutsideContext()
    ensures METADATA_TESTMESSAGE !in FAULT_NAMES && METADATA_TESTMESSAGE !in PARTICIPANT_NAMES
    ensures METADATA_TESTMESSAGE !in CONTEXT_HEAD_NAMES && METADATA_TESTMESSAGE !in IDENTITY_NAMES
    ensures METADATA_EOL !in FAULT_NAMES && METADATA_EOL !in PARTICIPANT_NAMES
    ensures METADATA_EOL !in CONTEXT_HEAD_NAMES && METADATA_EOL !in IDENTITY_NAMES
    ensures METADATA_TESTMESSAGE !in RESPONSE_NAMES && METADATA_EOL !in RESPONSE_NAMES
  {
    SameLengthNamesDiffer();
  }

  /** Response and other information write only these names. */
  const RESPONSE_NAMES: set<string> := {METADATA_NODEID, METADATA_MESSAGETYPE, ORIGINAL_MESSAGEID, MESSAGE_REPLYTO}

  lemma NonRequestFrame(h: Headers, p: ProcessingInformation, k: string)
    requires !p.RequestInformation? && k !in RESPONSE_NAMES
    ensures Agree(ProcessingHeaders(h, p), h, k)
  {
  }

  lemma StagesSkipRequestNames(h: Headers, m: Metadata)
    requires METADATA_TESTMESSAGE !in h && METADATA_EOL !in h
    requires METADATA_TESTMESSAGE !in IDENTITY_NAMES && METADATA_EOL !in IDENTITY_NAMES
    requires METADATA_TESTMESSAGE !in RESPONSE_NAMES && METADATA_EOL !in RESPONSE_NAMES
    requires m.processing.None? || !m.processing.value.RequestInformation?
    ensures METADATA_TESTMESSAGE !in ProcessingStage(IdentityStage(h, m), m)
    ensures METADATA_EOL !in ProcessingStage(IdentityStage(h, m), m)
  {
    if m.identity.Some? {
      IdentityFrame(h, m.identity.value, METADATA_TESTMESSAGE);
      IdentityFrame(h, m.identity.value, METADATA_EOL);
    }
    if m.processing.Some? {
      NonRequestFrame(IdentityStage(h, m), m.processing.value, METADATA_TESTMESSAGE);
      NonRequestFrame(IdentityStage(h, m), m.processing.value, METADATA_EOL);
    }
  }

  /** fillExchangeHeaders never writes the accepted flag. */
  lemma {:induction false} FillKeepsAccepted(h: Headers, md: Option<Metadata>)
    ensures Agree(FilledHeaders(h, md), h, MESSAGE_ACCEPTED)
  {
    if md.Some? {
      var m := md.value;
      AcceptedOutsideFill();
      FillFromIdentityStage(h, m, MESSAGE_ACCEPTED);
      if m.identity.Some? {
        IdentityFrame(h, m.identity.value, MESSAGE_ACCEPTED);
      }
    }
  }

  lemma AcceptedOutsideFill()
    ensures MESSAGE_ACCEPTED !in FAULT_NAMES && MESSAGE_ACCEPTED !in PARTICIPANT_NAMES
    ensures MESSAGE_ACCEPTED !in CONTEXT_HEAD_NAMES && MESSAGE_ACCEPTED !in PROCESSING_NAMES
    ensures MESSAGE_ACCEPTED !in IDENTITY_NAMES
  {
  }

  /** A present message id lands in its header. */
  lemma {:induction false} MessageIdCopied(h: Headers, m: Metadata)
    requires m.identity.Some? && m.identity.value.messageId.Some?
    ensures MESSAGE_ID in FilledHeaders(h, Some(m)) && FilledHeaders(h, Some(m))[MESSAGE_ID] == Text(m.identity.value.messageId.value)
  {
    assert MESSAGE_ID !in FAULT_NAMES && MESSAGE_ID !in PARTICIPANT_NAMES && MESSAGE_ID !in CONTEXT_HEAD_NAMES && MESSAGE_ID !in PROCESSING_NAMES;
    FillFromIdentityStage(h, m, MESSAGE_ID);
    IdentityMessageId(h, m.identity.value);
  }

  lemma IdentityMessageId(h: Headers, id: MessageIdentity)
    requires id.messageId.Some?
    ensures IdentityHeaders(h, id)[MESSAGE_ID] == Text(id.messageId.value)
  {
  }
}
