/** The SMEV3 client library the component drives, reduced to the values it
    exchanges and to scripted stand-ins for its services. Nothing here is
    behaviour of the component itself: the broker (WSTemplate) answers from a
    script chosen by the caller and records every call, the identity service
    hands out identifiers from a caller-chosen source, and the pure foreign
    routines (Base64, UUID parsing, XML serialisation, signing) are function
    values supplied by the caller. */
module Sdk {
  import opened Base

  /** A DOM element: its namespace, its local name and its Object.toString text. */
  datatype Element = Element(namespaceUri: Option<string>, localName: Option<string>, repr: string)

  /** ProcessingInformation.Type as used in a query. */
  datatype QueryType = REQUEST | RESPONSE | STATUS

  /** QueryInformation: the filter of a fetch. */
  datatype QueryInformation = QueryInformation(
    nodeId: Option<string>,
    namespaceUri: Option<string>,
    rootElementLocalName: Option<string>,
    queryType: QueryType)

  datatype MessageIdentity = MessageIdentity(
    messageId: Option<string>,
    referenceMessageId: Option<string>,
    transactionCode: Option<string>)

  /** Objects that the component only copies into headers (enums, timestamps,
      processing details) are carried as their toString text. */
  datatype ProcessingInformation =
    | RequestInformation(messageId: Option<string>, eol: Option<string>, nodeId: Option<string>,
                         testMessage: Option<bool>, messageType: Option<string>)
    | ResponseInformation(messageId: Option<string>, originalMessageId: Option<string>, replyTo: Option<string>,
                          nodeId: Option<string>, messageType: Option<string>)
    | OtherInformation(nodeId: Option<string>, messageType: Option<string>)

  datatype Participant = Participant(mnemonic: Option<string>, humanReadableName: Option<string>)

  /** The exception the broker attached to a message. `stackTrace` holds the
      toString of each frame; `printed` is what printStackTrace(PrintWriter)
      writes, None when writing it fails; `processingCode` is Some(code) exactly
      when the exception is an SMEVProcessingException. */
  datatype SmevFault = SmevFault(
    cause: Option<string>,
    localizedMessage: Option<string>,
    message: Option<string>,
    stackTrace: seq<string>,
    printed: Option<string>,
    processingCode: Option<Option<string>>)

  datatype SmevContext = SmevContext(
    idTransport: Option<string>,
    processingDetails: Option<string>,
    interactionType: Option<string>,
    destinationName: Option<string>,
    sendingTimestamp: Option<string>,
    deliveryTimestamp: Option<string>,
    status: Option<string>,
    replyTo: Option<string>,
    sender: Option<Participant>,
    recipient: Option<Participant>,
    fault: Option<SmevFault>)

  datatype Metadata = Metadata(
    identity: Option<MessageIdentity>,
    processing: Option<ProcessingInformation>,
    context: Option<SmevContext>)

  datatype TransportDetails = TransportDetails(userName: Option<string>, password: Option<string>)

  /** An attachment as the SMEV client represents it: inline (MTOM) with its
      bytes, or large, referring to a file in the FTP store. */
  datatype SmevAttachment =
    | Mtom(mimeType: Option<string>, signature: Option<Bytes>, passportId: Option<string>,
           attachmentId: string, content: Bytes)
    | Large(mimeType: Option<string>, signature: Option<Bytes>, passportId: Option<string>,
            uuid: string, hash: Option<Bytes>, transport: TransportDetails, fileRef: string)
    | OtherAttachment

  datatype MessageData = MessageData(
    content: Option<Element>,
    personalSignature: Option<Element>,
    attachments: seq<SmevAttachment>)

  /** A received message. `inEnvelop` is the raw envelope text. */
  datatype SmevMessage = SmevMessage(metadata: Option<Metadata>, data: Option<MessageData>, inEnvelop: Option<string>)

  /** The business part of an outgoing message, one variant per content class. */
  datatype BusinessContent =
    | RequestContent(content: Element, personalSignature: Element, attachments: seq<SmevAttachment>)
    | ResponseContent(content: Element, personalSignature: Element, attachments: seq<SmevAttachment>)
    | StatusResponseContent(statusCode: Option<int>, description: Option<string>)
    | RejectResponseContent(rejectCode: string, description: Option<string>)

  datatype OutgoingMessage = OutgoingMessage(metadata: Metadata, content: BusinessContent)

  /** Library routines whose algorithms are not part of this model. */
  datatype Foreign = Foreign(
    base64Encode: Bytes -> string,                       // xerces Base64.encode (RFC 4648 section 4)
    base64Decode: string -> Option<Bytes>,               // xerces Base64.decode: null for malformed text
    uuidFromString: string -> Option<string>,            // UUID.fromString: canonical text, or IllegalArgumentException
    uriOfPath: string -> string,                         // Paths.get(text).toUri() as text
    elementToString: (Option<Element>, Option<bool>) -> Result<Option<string>>, // XMLTransformHelper.elementToString (flag: omit declaration)
    parseXml: string -> Option<Element>,                 // SmevTransformUtil.transform, then buildDocumentFromString
    sign: Element -> Element,                            // Signer.sign: the personal signature of a content element
    digest: Bytes -> Bytes,                              // Signer.getDigest over a stream
    signDetached: Bytes -> Bytes,                        // Signer.signPKCS7Detached of a digest
    arrayText: Bytes -> string,                          // Object.toString of a byte[]
    textBytes: string -> Bytes,                          // String.getBytes() in the platform charset
    rejectCode: Option<string> -> Option<string>)        // RejectCode.fromValue; None when it raises

  // ---------------------------------------------------------------------------
  // The broker (WSTemplate)

  datatype GetReply = Delivered(message: SmevMessage) | NoMessage | GetFailed(reason: string)
  /** AckRefused is an SMEVException; AckCrashed any other exception. */
  datatype AckReply = AckDone | AckRefused(reason: string) | AckCrashed(reason: string)
  datatype SendReply = SendDone(result: SmevMessage) | SendFailed(reason: string)

  /** What the broker answers to the call at a given position of its trace. */
  datatype Reply = Reply(get: GetReply, ack: AckReply, send: SendReply)

  datatype BrokerCall =
    | Fetched(query: QueryInformation, reply: GetReply)
    | Acked(metadata: Option<Metadata>, accepted: bool)
    | Sent(message: OutgoingMessage, sendReply: SendReply)

  class WsTemplate {
    const script: nat -> Reply
    var calls: seq<BrokerCall>

    constructor (script: nat -> Reply)
      ensures this.script == script && calls == []
    {
      this.script := script;
      calls := [];
    }

    /** The answer the next call will get. */
    function Next(): Reply
      reads this
    {
      script(|calls|)
    }

    method Get(query: QueryInformation) returns (r: GetReply)
      modifies this
      ensures r == old(Next()).get
      ensures calls == old(calls) + [Fetched(query, r)]
    {
      r := script(|calls|).get;
      calls := calls + [Fetched(query, r)];
    }

    method Ack(metadata: Option<Metadata>, accepted: bool) returns (r: AckReply)
      modifies this
      ensures r == old(Next()).ack
      ensures calls == old(calls) + [Acked(metadata, accepted)]
    {
      r := script(|calls|).ack;
      calls := calls + [Acked(metadata, accepted)];
    }

    method Send(message: OutgoingMessage) returns (r: SendReply)
      modifies this
      ensures r == old(Next()).send
      ensures calls == old(calls) + [Sent(message, r)]
    {
      r := script(|calls|).send;
      calls := calls + [Sent(message, r)];
    }
  }

  // ---------------------------------------------------------------------------
  // Identifier generation (IdentityService / UUIDGenerator)

  /** A source of identifiers: the n-th identifier handed out is `source(n)`. */
  class IdentityService {
    const source: nat -> string
    var issued: nat

    constructor (source: nat -> string)
      ensures this.source == source && issued == 0
    {
      this.source := source;
      issued := 0;
    }

    /** generateUUID (message identifiers) and generateAttachmentUUID share the source. */
    method Generate() returns (id: string)
      modifies this
      ensures id == source(old(issued)) && issued == old(issued) + 1
    {
      id := source(issued);
      issued := issued + 1;
    }
  }
}
