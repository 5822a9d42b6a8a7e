/** Smev3Consumer: the polling side of the component, which is its own poll
    strategy. One scheduled run begins, polls the broker for at most one
    message, hands the message to the route as an exchange (body, headers and
    attachments staged through the attachments strategy), and then commits
    (acknowledging the message) or rolls back (waiting the error delay).
    Whatever happens during a poll, every staged handler is released before
    poll returns. */
module Smev3Consumer {
  import opened Base
  import opened Sdk
  import opened Camel
  import opened Smev3Constants
  import Conf = Smev3Configuration
  import Ftp = ApacheFtpTransport
  import Strategies = AttachmentsStrategy

  // ---------------------------------------------------------------------------
  // The exchange a message arrives as

  /** The headers and body of an exchange. */
  datatype Presentation = Presentation(headers: Headers, body: Body)

  /** A possibly-null text as a body. */
  function NullableText(s: Option<string>): Body {
    if s.Some? then TextBody(s.value) else NoBody
  }

  function XmlValue(e: Option<Element>): Option<Value> {
    if e.Some? then Some(Xml(e.value)) else None
  }

  /** The namespace and local name of the content element, when there is one. */
  function ContentNames(h: Headers, data: Option<MessageData>): Headers {
    if data.Some? && data.value.content.Some? then
      var c := data.value.content.value;
      Put(Put(h, CONTENT_NAMESPACE_URI, TextValue(c.namespaceUri)), CONTENT_ROOT_TYPE, TextValue(c.localName))
    else h
  }

  /** The body the configured body type selects, with the personal signature
      header: serialised content, the raw envelope, or the message object. */
  function Presented(h: Headers, m: SmevMessage, s: Conf.Settings, f: Foreign): Result<Presentation> {
    match s.bodyType
    case Content =>
      if m.data.None? then Ok(Presentation(h, NoBody))
      else
        var text :- f.elementToString(m.data.value.content, Some(s.omitXmlDeclaration));
        var sig :- f.elementToString(m.data.value.personalSignature, Some(s.omitXmlDeclaration));
        Ok(Presentation(Put(h, CONTENT_PERSONAL_SIGNATURE, TextValue(sig)), NullableText(text)))
    case Envelop =>
      if m.data.None? then Ok(Presentation(h, NullableText(m.inEnvelop)))
      else
        var sig :- f.elementToString(m.data.value.personalSignature, None);
        Ok(Presentation(Put(h, CONTENT_PERSONAL_SIGNATURE, TextValue(sig)), NullableText(m.inEnvelop)))
    case SMEVMessage =>
      var sig := if m.data.Some? then XmlValue(m.data.value.personalSignature) else None;
      Ok(Presentation(Put(h, CONTENT_PERSONAL_SIGNATURE, sig), MessageBody(m)))
  }

  /** A new exchange after the content names, the body and the metadata headers. */
  function Received(m: SmevMessage, s: Conf.Settings, f: Foreign): Result<Presentation> {
    var p :- Presented(ContentNames(map[], m.data), m, s, f);
    Ok(Presentation(FilledHeaders(p.headers, m.metadata), p.body))
  }

  /** What the route is given: with auto-ack the accepted flag is preset to true. */
  function RouteInput(p: Presentation, autoAck: bool): Presentation {
    if autoAck then Presentation(Put(p.headers, MESSAGE_ACCEPTED, Some(Flag(true))), p.body) else p
  }

  /** What the route does with an exchange: it completes, leaving these
      headers, or marks the exchange failed, with or without an exception. */
  datatype Handled = Completed(headers: Headers) | Failed(exception: Option<string>)

  /** The CamelExecutionException poll raises for a failed exchange. */
  function FailureOf(exception: Option<string>): Error {
    Execution(if exception.Some? then exception.value else "Exception occurred during execution")
  }

  /** Nothing before the route writes the accepted flag. */
  lemma ReceivedLeavesAcceptedUnset(m: SmevMessage, s: Conf.Settings, f: Foreign)
    requires Received(m, s, f).Ok?
    ensures MESSAGE_ACCEPTED !in Received(m, s, f).value.headers
  {
    var h0 := ContentNames(map[], m.data);
    var p := Presented(h0, m, s, f).value;
    ContentNamesSkipAccepted(m.data);
    PresentedSkipsAccepted(h0, m, s, f);
    FillKeepsAccepted(p.headers, m.metadata);
  }

  lemma ContentNamesSkipAccepted(data: Option<MessageData>)
    ensures MESSAGE_ACCEPTED !in ContentNames(map[], data)
  {
    assert MESSAGE_ACCEPTED != CONTENT_NAMESPACE_URI && MESSAGE_ACCEPTED != CONTENT_ROOT_TYPE;
  }

  lemma PresentedSkipsAccepted(h: Headers, m: SmevMessage, s: Conf.Settings, f: Foreign)
    requires Presented(h, m, s, f).Ok?
    ensures Agree(Presented(h, m, s, f).value.headers, h, MESSAGE_ACCEPTED)
  {
    assert MESSAGE_ACCEPTED != CONTENT_PERSONAL_SIGNATURE;
  }

  /** With auto-ack, a route that leaves the accepted flag alone yields
      accepted = true; without auto-ack it yields no flag (null). */
  lemma AcceptedByDefault(m: SmevMessage, s: Conf.Settings, f: Foreign, route: Presentation -> Handled)
    requires Received(m, s, f).Ok?
    requires var input := RouteInput(Received(m, s, f).value, s.autoAck);
             route(input).Completed? && Agree(route(input).headers, input.headers, MESSAGE_ACCEPTED)
    ensures var input := RouteInput(Received(m, s, f).value, s.autoAck);
            AsBool(route(input).headers, MESSAGE_ACCEPTED) == if s.autoAck then Some(true) else None
  {
    ReceivedLeavesAcceptedUnset(m, s, f);
  }

  // ---------------------------------------------------------------------------
  // Staging attachments

  /** The arguments of one strategy get call (the exchange aside). */
  datatype StageRequest = StageRequest(
    messageId: Option<string>, attachmentId: string, attachmentName: string,
    mimeType: Option<string>, signature: Option<Bytes>, current: int, total: int)

  predicate AllStageable(atts: seq<SmevAttachment>) {
    forall i :: 0 <= i < |atts| ==> !atts[i].OtherAttachment?
  }

  /** The attachments of a message; none without message data. */
  function AttachmentsOf(m: SmevMessage): seq<SmevAttachment> {
    if m.data.Some? then m.data.value.attachments else []
  }

  /** The message id the strategy is told, read through metadata and identity. */
  function MessageIdOf(m: SmevMessage): (r: Result<Option<string>>)
    ensures r.Err? <==> m.metadata.None? || m.metadata.value.identity.None?
  {
    if m.metadata.None? || m.metadata.value.identity.None? then Err(NullPointer)
    else Ok(m.metadata.value.identity.value.messageId)
  }

  function RequestedId(m: SmevMessage): Option<string> {
    if MessageIdOf(m).Ok? then MessageIdOf(m).value else None
  }

  /** The get call for an attachment: an MTOM one by its id (as both id and
      name), a large one by its UUID and file reference. */
  function RequestFor(messageId: Option<string>, a: SmevAttachment, current: int, total: int): StageRequest
    requires !a.OtherAttachment?
  {
    if a.Mtom? then StageRequest(messageId, a.attachmentId, a.attachmentId, a.mimeType, a.signature, current, total)
    else StageRequest(messageId, a.uuid, a.fileRef, a.mimeType, a.signature, current, total)
  }

  /** The get calls for a run of attachments, numbered from 0. */
  function Requests(messageId: Option<string>, atts: seq<SmevAttachment>, total: int): seq<StageRequest>
    requires AllStageable(atts)
    decreases |atts|
  {
    if atts == [] then []
    else Requests(messageId, atts[..|atts| - 1], total) + [RequestFor(messageId, atts[|atts| - 1], |atts| - 1, total)]
  }

  /** The j-th get call is for the j-th attachment, with ordinal j and the same total. */
  lemma {:induction false} RequestsInOrder(messageId: Option<string>, atts: seq<SmevAttachment>, total: int)
    requires AllStageable(atts)
    ensures |Requests(messageId, atts, total)| == |atts|
    ensures forall j :: 0 <= j < |atts| ==>
              Requests(messageId, atts, total)[j] == RequestFor(messageId, atts[j], j, total) &&
              Requests(messageId, atts, total)[j].current == j && Requests(messageId, atts, total)[j].total == total
    decreases |atts|
  {
    if atts != [] {
      var n := |atts| - 1;
      assert AllStageable(atts[..n]);
      RequestsInOrder(messageId, atts[..n], total);
      forall j | 0 <= j < n
        ensures Requests(messageId, atts, total)[j] == RequestFor(messageId, atts[j], j, total)
      {
        assert atts[..n][j] == atts[j];
      }
    }
  }

  /** One more attachment appends its get call. */
  lemma RequestsSnoc(messageId: Option<string>, atts: seq<SmevAttachment>, i: nat, total: int)
    requires i < |atts| && AllStageable(atts[..i]) && !atts[i].OtherAttachment?
    ensures AllStageable(atts[..i + 1])
    ensures Requests(messageId, atts[..i + 1], total) ==
            Requests(messageId, atts[..i], total) + [RequestFor(messageId, atts[i], i, total)]
  {
    assert atts[..i + 1][..i] == atts[..i];
  }

  /** Base64 of a signature; xerces encodes null as null. */
  function SignatureValue(sig: Option<Bytes>, f: Foreign): Option<Value> {
    if sig.Some? then Some(Text(f.base64Encode(sig.value))) else None
  }

  /** The headers a staged attachment carries when the strategy processes it. */
  function StagedHeaders(a: SmevAttachment, f: Foreign): map<string, string>
    requires !a.OtherAttachment?
  {
    var h1 := AttachmentPut(map[], ATTACHMENT_MIMETYPE, TextValue(a.mimeType));
    var h2 := AttachmentPut(h1, ATTACHMENT_UUID, Some(Text(if a.Mtom? then a.attachmentId else a.uuid)));
    var h3 := AttachmentPut(h2, ATTACHMENT_NAME, Some(Text(if a.Mtom? then a.attachmentId else a.fileRef)));
    var h4 := AttachmentPut(h3, ATTACHMENT_SIGNATUREPKCS7, SignatureValue(a.signature, f));
    var h5 := AttachmentPut(h4, ATTACHMENT_PASSPORTID, TextValue(a.passportId));
    if a.Mtom? then h5
    else AttachmentPut(h5, ATTACHMENT_HASH, if a.hash.Some? then Some(Object(f.arrayText(a.hash.value))) else None)
  }

  /** The key an exposed attachment is stored under. */
  function KeyOf(a: SmevAttachment): string
    requires !a.OtherAttachment?
  {
    if a.Mtom? then a.attachmentId else a.uuid
  }

  predicate Distinct(ds: seq<DataHandler>) {
    forall i, j :: 0 <= i < j < |ds| ==> ds[i] != ds[j]
  }

  /** The files left after done on each handler in turn: the file strategy
      deletes the file of a file-backed handler, a bean deletes what its done
      chooses, and the in-memory strategy touches no file. */
  function AfterDone(files: map<string, Bytes>, s: Strategies.Strategy, dhs: seq<DataHandler>): map<string, Bytes>
    decreases |dhs|
  {
    if dhs == [] then files
    else Strategies.AfterDoneOne(AfterDone(files, s, dhs[..|dhs| - 1]), s, dhs[|dhs| - 1].source)
  }

  /** Whether done on one of the handlers deletes the file at `k`. */
  predicate RemovedBy(s: Strategies.Strategy, dhs: seq<DataHandler>, k: string) {
    (s.InFiles? && exists d :: d in dhs && d.source == OnDisk(k)) ||
    (s.Custom? && exists d :: d in dhs && k in s.done(d.source).removes)
  }

  /** Releasing removes exactly the staged files of the file strategy, or the
      files a bean's done deletes, and leaves every other file as it was. */
  lemma {:induction false} AfterDoneRemovesStagedFiles(files: map<string, Bytes>, s: Strategies.Strategy,
                                                       dhs: seq<DataHandler>, k: string)
    ensures k in AfterDone(files, s, dhs) <==> k in files && !RemovedBy(s, dhs, k)
    ensures k in AfterDone(files, s, dhs) ==> AfterDone(files, s, dhs)[k] == files[k]
    decreases |dhs|
  {
    if dhs != [] {
      var n := |dhs| - 1;
      AfterDoneRemovesStagedFiles(files, s, dhs[..n], k);
      assert dhs == dhs[..n] + [dhs[n]];
      if RemovedBy(s, dhs, k) && !RemovedBy(s, [dhs[n]], k) {
        if s.InFiles? {
          var d :| d in dhs && d.source == OnDisk(k);
          assert d in dhs[..n];
        } else {
          var d :| d in dhs && k in s.done(d.source).removes;
          assert d in dhs[..n];
        }
      }
      if RemovedBy(s, dhs[..n], k) {
        if s.InFiles? {
          var d :| d in dhs[..n] && d.source == OnDisk(k);
          assert d in dhs;
        } else {
          var d :| d in dhs[..n] && k in s.done(d.source).removes;
          assert d in dhs;
        }
      }
      if RemovedBy(s, [dhs[n]], k) {
        assert dhs[n] in dhs;
      }
    }
  }

  // ---------------------------------------------------------------------------
  // Commit and rollback

  /** The guard of commit's ack. */
  predicate AckDue(polledMessages: int, accepted: Option<bool>, t: QueryType) {
    polledMessages > 0 && accepted.Some? && t != STATUS
  }

  /** What commit raises after an ack: an SMEVException is logged with the
      message id (which itself fails without metadata or identity); any other
      exception goes through. */
  function CommitOutcome(reply: AckReply, m: SmevMessage): Outcome
  {
    match reply
    case AckDone => Pass
    case AckRefused(_) => if MessageIdOf(m).Ok? then Pass else Fail(NullPointer)
    case AckCrashed(why) => Fail(Broker(why))
  }

  // ---------------------------------------------------------------------------
  // The consumer

  class Smev3Consumer {
    const conf: Conf.Smev3Configuration
    const wsTemplate: WsTemplate
    const laTransport: Ftp.ApacheFtpTransport
    /** The local file system file-backed handlers write to. */
    const fs: FileSystem
    const f: Foreign
    /** The route's processor. */
    const route: Presentation -> Handled
    /** Whether the exchanges the endpoint creates carry an attachment message. */
    const attachmentSupport: bool

    var message: Option<SmevMessage>
    var accepted: Option<bool>
    /** The handlers staged during the current poll. */
    var attachments: seq<DataHandler>

    /** Every strategy get call, in order. */
    ghost var requests: seq<StageRequest>
    /** Every handler the strategy's get handed out, in order. */
    ghost var acquired: seq<DataHandler>
    /** Every handler the strategy's process kept, in order. */
    ghost var kept: seq<DataHandler>
    /** Every handler passed to the strategy's done, in order. */
    ghost var released: seq<DataHandler>
    /** What the route was given, call by call. */
    ghost var handled: seq<Presentation>
    /** The delays rollback waited. */
    ghost var waits: seq<int>

    /** Between polls nothing is staged. */
    ghost predicate Valid()
      reads this
    {
      attachments == []
    }

    /** The transport is built from the (memoised) large-attachment transport
        configuration; the signer and broker come from the SDK's factories. */
    constructor (conf: Conf.Smev3Configuration, wsTemplate: WsTemplate, client: Ftp.FtpClient, fs: FileSystem,
                 f: Foreign, route: Presentation -> Handled, attachmentSupport: bool)
      requires conf.Valid()
      modifies conf
      ensures Valid() && conf.Valid()
      ensures this.conf == conf && this.wsTemplate == wsTemplate && laTransport.client == client
      ensures this.fs == fs && this.f == f && this.route == route && this.attachmentSupport == attachmentSupport
      ensures message.None? && accepted.None?
      ensures requests == [] && acquired == [] && kept == [] && released == [] && handled == [] && waits == []
    {
      var la := conf.GetLargeAttachmentTransportConfiguration();
      this.conf := conf;
      this.wsTemplate := wsTemplate;
      this.laTransport := new Ftp.ApacheFtpTransport(la.address, client);
      this.fs := fs;
      this.f := f;
      this.route := route;
      this.attachmentSupport := attachmentSupport;
      message, accepted, attachments := None, None, [];
      requests, acquired, kept, released, handled, waits := [], [], [], [], [], [];
    }

    /** begin: always ready to poll. */
    method Begin() returns (ready: bool)
      ensures ready
    {
      ready := true;
    }

    /** The exchange before attachments: content names, body and signature by
        body type, then the metadata headers. */
    method Receive(exchange: Exchange, m: SmevMessage) returns (r: Outcome)
      requires exchange.headers == map[] && exchange.body == NoBody
      modifies exchange
      ensures var rec := Received(m, conf.settings, f);
              (rec.Err? ==> r == Fail(rec.error)) &&
              (rec.Ok? ==> r == Pass && exchange.headers == rec.value.headers && exchange.body == rec.value.body)
      ensures exchange.attachmentObjects == old(exchange.attachmentObjects)
    {
      var s := conf.settings;
      if m.data.Some? && m.data.value.content.Some? {
        Set(exchange, CONTENT_NAMESPACE_URI, TextValue(m.data.value.content.value.namespaceUri));
        Set(exchange, CONTENT_ROOT_TYPE, TextValue(m.data.value.content.value.localName));
      }
      assert exchange.headers == ContentNames(map[], m.data);
      if s.bodyType == Conf.Content && m.data.Some? {
        var text := f.elementToString(m.data.value.content, Some(s.omitXmlDeclaration));
        if text.Err? {
          return Fail(text.error);
        }
        exchange.SetBody(NullableText(text.value));
        var sig := f.elementToString(m.data.value.personalSignature, Some(s.omitXmlDeclaration));
        if sig.Err? {
          return Fail(sig.error);
        }
        Set(exchange, CONTENT_PERSONAL_SIGNATURE, TextValue(sig.value));
      } else if s.bodyType == Conf.Envelop {
        exchange.SetBody(NullableText(m.inEnvelop));
        if m.data.Some? {
          var sig := f.elementToString(m.data.value.personalSignature, None);
          if sig.Err? {
            return Fail(sig.error);
          }
          Set(exchange, CONTENT_PERSONAL_SIGNATURE, TextValue(sig.value));
        }
      } else if s.bodyType == Conf.SMEVMessage {
        exchange.SetBody(MessageBody(m));
        if m.data.Some? {
          Set(exchange, CONTENT_PERSONAL_SIGNATURE, XmlValue(m.data.value.personalSignature));
        }
      }
      FillExchangeHeaders(exchange, m.metadata);
      r := Pass;
    }

    /** The strategy's get for a stageable attachment, recorded in the trace of
        get calls: its exception, a null handler, or a fresh handler of the
        strategy's kind, whose buffer, when in memory, is empty and new. */
    method Obtain(a: SmevAttachment, messageId: Option<string>, current: int, total: int)
      returns (got: Result<Option<DataHandler>>)
      requires !a.OtherAttachment?
      modifies this`requests
      ensures requests == old(requests) + [RequestFor(messageId, a, current, total)]
      ensures var q := RequestFor(messageId, a, current, total);
              (got.Err? <==> Strategies.GetRaises(conf.settings.strategy, messageId, q.attachmentName, current)) &&
              (got.Ok? && got.value.Some? <==> Strategies.Supplies(conf.settings.strategy, messageId, q.attachmentName, current))
      ensures got.Ok? && got.value.Some? ==>
                var dh := got.value.value;
                fresh(dh) &&
                (conf.settings.strategy.InMemory? ==> dh.source.Memory?) &&
                (conf.settings.strategy.InFiles? ==> dh.source.OnDisk?) &&
                (dh.source.Memory? ==> fresh(dh.source.buffer.outputStream) && dh.source.buffer.outputStream.bytes == [])
    {
      var q := RequestFor(messageId, a, current, total);
      requests := requests + [q];
      got := Strategies.Get(conf.settings.strategy, fs, messageId, q.attachmentId, q.attachmentName, q.mimeType, q.signature,
                            current, total);
    }

    /** One MTOM attachment: a handler from the strategy; when there is one it
        is staged first, then filled with the inline bytes, described in
        headers, and attached when the strategy keeps it. */
    method StageMtom(exchange: Exchange, a: SmevAttachment, messageId: Option<string>, current: int, total: int)
      returns (r: Outcome, ghost handler: Option<DataHandler>, ghost exposed: Option<Attachment>)
      requires a.Mtom?
      modifies this`attachments, this`requests, this`acquired, this`kept, fs, exchange
      ensures requests == old(requests) + [RequestFor(messageId, a, current, total)]
      ensures handler.Some? <==> Strategies.Supplies(conf.settings.strategy, messageId, a.attachmentId, current)
      ensures Strategies.GetRaises(conf.settings.strategy, messageId, a.attachmentId, current) ==> r.Fail?
      ensures handler.None? ==>
                attachments == old(attachments) && acquired == old(acquired) && kept == old(kept) && exposed.None?
      ensures handler.Some? ==>
                fresh(handler.value) && attachments == old(attachments) + [handler.value] &&
                acquired == old(acquired) + [handler.value]
      ensures kept == old(kept) ||
              (handler.Some? && kept == old(kept) + [handler.value] && Strategies.Keeps(conf.settings.strategy, StagedHeaders(a, f)))
      ensures r == Pass && handler.Some? ==>
                (kept == old(kept) + [handler.value] <==> Strategies.Keeps(conf.settings.strategy, StagedHeaders(a, f)))
      ensures exposed.Some? ==>
                handler.Some? && kept == old(kept) + [handler.value] && exposed.value.dataHandler == handler.value &&
                exchange.attachmentObjects == PutEntry(old(exchange.attachmentObjects), KeyOf(a), exposed.value)
      ensures exposed.None? ==> exchange.attachmentObjects == old(exchange.attachmentObjects)
      ensures r == Pass && kept != old(kept) ==> exposed.Some?
      ensures exposed.Some? ==>
                exposed.value.headers ==
                  Strategies.ProcessedHeaders(conf.settings.strategy, StagedHeaders(a, f), handler.value.source, |a.content|)
      ensures exchange.headers == old(exchange.headers) && exchange.body == old(exchange.body)
    {
      var got := Obtain(a, messageId, current, total);
      if got.Err? {
        return Fail(got.error), None, None;
      }
      if got.value.None? {
        return Pass, None, None;
      }
      var dh := got.value.value;
      handler := Some(dh);
      r, exposed := FillInline(exchange, a, dh);
    }

    /** The rest of an MTOM attachment's staging once get has handed out its
        handler (an empty buffer, or a file): the handler is staged, the inline
        bytes go in, and the attachment is published unless that fails. */
    method FillInline(exchange: Exchange, a: SmevAttachment, dh: DataHandler)
      returns (r: Outcome, ghost exposed: Option<Attachment>)
      requires a.Mtom?
      requires conf.settings.strategy.InMemory? ==> dh.source.Memory?
      requires conf.settings.strategy.InFiles? ==> dh.source.OnDisk?
      requires dh.source.Memory? ==> dh.source.buffer.outputStream.bytes == []
      modifies this`attachments, this`acquired, this`kept, exchange, fs,
               if dh.source.Memory? then {dh.source.buffer.outputStream} else {}
      ensures attachments == old(attachments) + [dh] && acquired == old(acquired) + [dh]
      ensures kept == old(kept) || (kept == old(kept) + [dh] && Strategies.Keeps(conf.settings.strategy, StagedHeaders(a, f)))
      ensures r == Pass ==> (kept == old(kept) + [dh] <==> Strategies.Keeps(conf.settings.strategy, StagedHeaders(a, f)))
      ensures exposed.Some? ==>
                kept == old(kept) + [dh] && exposed.value.dataHandler == dh &&
                exchange.attachmentObjects == PutEntry(old(exchange.attachmentObjects), KeyOf(a), exposed.value)
      ensures exposed.None? ==> exchange.attachmentObjects == old(exchange.attachmentObjects)
      ensures r == Pass && kept != old(kept) ==> exposed.Some?
      ensures exposed.Some? ==>
                exposed.value.headers ==
                  Strategies.ProcessedHeaders(conf.settings.strategy, StagedHeaders(a, f), dh.source, |a.content|)
      ensures exchange.headers == old(exchange.headers) && exchange.body == old(exchange.body)
    {
      attachments := attachments + [dh];
      acquired := acquired + [dh];
      r := WriteInline(a, dh);
      if r.Fail? {
        return r, None;
      }
      r, exposed := Publish(exchange, a, dh);
    }

    /** One large attachment: as an MTOM one, but the bytes are downloaded
        from the FTP store into the staged handler, and the hash is recorded. */
    method StageLarge(exchange: Exchange, a: SmevAttachment, messageId: Option<string>, current: int, total: int)
      returns (r: Outcome, ghost handler: Option<DataHandler>, ghost exposed: Option<Attachment>)
      requires a.Large?
      modifies this`attachments, this`requests, this`acquired, this`kept, fs, exchange, laTransport.client
      ensures requests == old(requests) + [RequestFor(messageId, a, current, total)]
      ensures handler.Some? <==> Strategies.Supplies(conf.settings.strategy, messageId, a.fileRef, current)
      ensures Strategies.GetRaises(conf.settings.strategy, messageId, a.fileRef, current) ==> r.Fail?
      ensures handler.None? ==>
                attachments == old(attachments) && acquired == old(acquired) && kept == old(kept) && exposed.None? &&
                laTransport.client.calls == old(laTransport.client.calls)
      ensures handler.Some? ==>
                fresh(handler.value) && attachments == old(attachments) + [handler.value] &&
                acquired == old(acquired) + [handler.value]
      ensures laTransport.client.calls == old(laTransport.client.calls) ||
              laTransport.client.calls == old(laTransport.client.calls) +
                Ftp.DownloadSession(laTransport.client.script, laTransport.address, a.transport, a.fileRef).calls
      ensures kept == old(kept) ||
              (handler.Some? && kept == old(kept) + [handler.value] && Strategies.Keeps(conf.settings.strategy, StagedHeaders(a, f)))
      ensures r == Pass && handler.Some? ==>
                (kept == old(kept) + [handler.value] <==> Strategies.Keeps(conf.settings.strategy, StagedHeaders(a, f)))
      ensures exposed.Some? ==>
                handler.Some? && kept == old(kept) + [handler.value] && exposed.value.dataHandler == handler.value &&
                exchange.attachmentObjects == PutEntry(old(exchange.attachmentObjects), KeyOf(a), exposed.value)
      ensures exposed.None? ==> exchange.attachmentObjects == old(exchange.attachmentObjects)
      ensures r == Pass && kept != old(kept) ==> exposed.Some?
      ensures exposed.Some? ==>
                var session := Ftp.DownloadSession(laTransport.client.script, laTransport.address, a.transport, a.fileRef);
                exposed.value.headers ==
                  Strategies.ProcessedHeaders(conf.settings.strategy, StagedHeaders(a, f), handler.value.source, |session.received|)
      ensures exchange.headers == old(exchange.headers) && exchange.body == old(exchange.body)
    {
      var got := Obtain(a, messageId, current, total);
      if got.Err? {
        return Fail(got.error), None, None;
      }
      if got.value.None? {
        return Pass, None, None;
      }
      var dh := got.value.value;
      handler := Some(dh);
      attachments := attachments + [dh];
      acquired := acquired + [dh];
      r := Fetch(a, dh);
      if r.Fail? {
        return r, handler, None;
      }
      r, exposed := Publish(exchange, a, dh);
    }

    /** The MTOM content goes into the staged handler through the output it
        opens: the in-memory buffer grows by it, or the file is created (or
        truncated) and holds it. */
    method WriteInline(a: SmevAttachment, dh: DataHandler) returns (r: Outcome)
      requires a.Mtom?
      modifies fs, if dh.source.Memory? then {dh.source.buffer.outputStream} else {}
      ensures dh.source.Memory? ==>
                r == Pass && fs.files == old(fs.files) &&
                dh.source.buffer.outputStream.bytes == old(dh.source.buffer.outputStream.bytes) + a.content
      ensures dh.source.OnDisk? ==> (r == Pass <==> dh.source.path !in fs.unwritable)
      ensures dh.source.OnDisk? && r == Pass ==> fs.files == old(fs.files)[dh.source.path := a.content]
      ensures dh.source.OnDisk? && r != Pass ==> fs.files == old(fs.files)
    {
      r := OpenOutput(dh, fs);
      if r.Fail? {
        return;
      }
      WriteOutput(dh, fs, a.content);
      assert [] + a.content == a.content;
    }

    /** The large attachment is downloaded into the output the staged handler
        opens; what arrived is written even when the download fails. The FTP
        session is the whole download session, or nothing when the output
        cannot be opened. */
    method Fetch(a: SmevAttachment, dh: DataHandler) returns (r: Outcome)
      requires a.Large?
      modifies fs, laTransport.client, if dh.source.Memory? then {dh.source.buffer.outputStream} else {}
      ensures var s := Ftp.DownloadSession(laTransport.client.script, laTransport.address, a.transport, a.fileRef);
              (laTransport.client.calls == old(laTransport.client.calls) && r.Fail?) ||
              (laTransport.client.calls == old(laTransport.client.calls) + s.calls && r == s.outcome)
      ensures var s := Ftp.DownloadSession(laTransport.client.script, laTransport.address, a.transport, a.fileRef);
              r == Pass && dh.source.Memory? ==>
                dh.source.buffer.outputStream.bytes == old(dh.source.buffer.outputStream.bytes) + s.received
      ensures var s := Ftp.DownloadSession(laTransport.client.script, laTransport.address, a.transport, a.fileRef);
              r == Pass && dh.source.OnDisk? ==> fs.files == old(fs.files)[dh.source.path := s.received]
    {
      r := OpenOutput(dh, fs);
      if r.Fail? {
        return;
      }
      var received;
      r, received := laTransport.Download(a.transport, a.fileRef);
      WriteOutput(dh, fs, received);
      assert [] + received == received;
    }

    /** The descriptive attachment around a staged handler is offered to the
        strategy's process and, when kept, put into the attachment map under
        the attachment's key. */
    method Publish(exchange: Exchange, a: SmevAttachment, dh: DataHandler)
      returns (r: Outcome, ghost exposed: Option<Attachment>)
      requires !a.OtherAttachment?
      requires conf.settings.strategy.InMemory? ==> dh.source.Memory?
      requires conf.settings.strategy.InFiles? ==> dh.source.OnDisk?
      modifies this`kept, exchange
      ensures kept == old(kept) || (kept == old(kept) + [dh] && Strategies.Keeps(conf.settings.strategy, StagedHeaders(a, f)))
      ensures r == Pass ==> (kept == old(kept) + [dh] <==> Strategies.Keeps(conf.settings.strategy, StagedHeaders(a, f)))
      ensures exposed.Some? ==>
                kept == old(kept) + [dh] && exposed.value.dataHandler == dh &&
                exchange.attachmentObjects == PutEntry(old(exchange.attachmentObjects), KeyOf(a), exposed.value)
      ensures exposed.None? ==> exchange.attachmentObjects == old(exchange.attachmentObjects)
      ensures r == Pass && kept != old(kept) ==> exposed.Some?
      ensures Strategies.ProcessRaises(conf.settings.strategy, StagedHeaders(a, f)) ==> r.Fail? && kept == old(kept)
      ensures exposed.Some? ==>
                exposed.value.headers ==
                  Strategies.ProcessedHeaders(conf.settings.strategy, StagedHeaders(a, f), dh.source, Strategies.Written(fs, dh))
      ensures exchange.headers == old(exchange.headers) && exchange.body == old(exchange.body)
    {
      var att := Describe(a, dh);
      r := Expose(exchange, a, dh, att);
      exposed := if r == Pass && kept != old(kept) then Some(att) else None;
    }

    /** A new attachment around a staged handler, with the descriptive
        headers: MIME type, UUID, name, Base64 signature, passport id, and for
        a large attachment its hash. */
    method Describe(a: SmevAttachment, dh: DataHandler) returns (att: Attachment)
      requires !a.OtherAttachment?
      ensures fresh(att) && att.dataHandler == dh && att.headers == StagedHeaders(a, f)
    {
      att := new Attachment(dh);
      AttachmentSet(att, ATTACHMENT_MIMETYPE, TextValue(a.mimeType));
      AttachmentSet(att, ATTACHMENT_UUID, Some(Text(if a.Mtom? then a.attachmentId else a.uuid)));
      AttachmentSet(att, ATTACHMENT_NAME, Some(Text(if a.Mtom? then a.attachmentId else a.fileRef)));
      AttachmentSet(att, ATTACHMENT_SIGNATUREPKCS7, SignatureValue(a.signature, f));
      AttachmentSet(att, ATTACHMENT_PASSPORTID, TextValue(a.passportId));
      if a.Large? {
        AttachmentSet(att, ATTACHMENT_HASH, if a.hash.Some? then Some(Object(f.arrayText(a.hash.value))) else None);
      }
    }

    /** The strategy's process decides, and its exception ends the attachment
        loop; a kept attachment goes into the attachment map, which must exist. */
    method Expose(exchange: Exchange, a: SmevAttachment, dh: DataHandler, att: Attachment) returns (r: Outcome)
      requires !a.OtherAttachment? && att.dataHandler == dh && att.headers == StagedHeaders(a, f)
      requires conf.settings.strategy.InMemory? ==> dh.source.Memory?
      requires conf.settings.strategy.InFiles? ==> dh.source.OnDisk?
      modifies this`kept, att, exchange
      ensures kept == old(kept) || (kept == old(kept) + [dh] && Strategies.Keeps(conf.settings.strategy, StagedHeaders(a, f)))
      ensures r == Pass ==> (kept == old(kept) + [dh] <==> Strategies.Keeps(conf.settings.strategy, StagedHeaders(a, f)))
      ensures r == Pass && kept != old(kept) ==>
                exchange.attachmentObjects == PutEntry(old(exchange.attachmentObjects), KeyOf(a), att)
      ensures !(r == Pass && kept != old(kept)) ==> exchange.attachmentObjects == old(exchange.attachmentObjects)
      ensures Strategies.ProcessRaises(conf.settings.strategy, StagedHeaders(a, f)) ==> r.Fail? && kept == old(kept)
      ensures att.headers == Strategies.ProcessedHeaders(conf.settings.strategy, StagedHeaders(a, f), dh.source, Strategies.Written(fs, dh))
      ensures exchange.headers == old(exchange.headers) && exchange.body == old(exchange.body)
    {
      var keep := Strategies.Process(conf.settings.strategy, fs, att, dh);
      if keep.Err? {
        return Fail(keep.error);
      }
      if keep.value {
        kept := kept + [dh];
        if !exchange.hasAttachmentMessage {
          return Fail(NullPointer);
        }
        exchange.AddAttachmentObject(KeyOf(a), att);
      }
      r := Pass;
    }

    /** fillExchangeAttachments: every attachment in message order, with
        ordinals 0, 1, ... and the total count; the first failure ends it.
        `done` is the number of get calls made. */
    method FillExchangeAttachments(exchange: Exchange, m: SmevMessage) returns (r: Outcome, ghost done: nat)
      requires attachments == [] && exchange.attachmentObjects == []
      modifies this`attachments, this`requests, this`acquired, this`kept, fs, exchange, laTransport.client
      ensures var atts := AttachmentsOf(m);
              done <= |atts| && AllStageable(atts[..done]) &&
              requests == old(requests) + Requests(RequestedId(m), atts[..done], |atts|)
      ensures done > 0 ==> MessageIdOf(m).Ok?
      ensures r == Pass ==> done == |AttachmentsOf(m)|
      ensures Distinct(attachments) && forall i :: 0 <= i < |attachments| ==> fresh(attachments[i])
      ensures acquired == old(acquired) + attachments
      ensures |kept| >= |old(kept)| && kept[..|old(kept)|] == old(kept)
      ensures forall d :: d in kept[|old(kept)|..] ==> d in attachments
      ensures forall e :: e in exchange.attachmentObjects ==> e.attachment.dataHandler in kept[|old(kept)|..]
      ensures exchange.headers == old(exchange.headers) && exchange.body == old(exchange.body)
    {
      done := 0;
      if m.data.None? {
        return Pass, 0;
      }
      var atts := m.data.value.attachments;
      var total := |atts|;
      ghost var k0 := |kept|;
      ghost var id := RequestedId(m);
      var current := 0;
      while current < |atts|
        invariant 0 <= current <= |atts| && done == current
        invariant AllStageable(atts[..current])
        invariant current > 0 ==> MessageIdOf(m).Ok?
        invariant requests == old(requests) + Requests(id, atts[..current], total)
        invariant Distinct(attachments) && forall i :: 0 <= i < |attachments| ==> fresh(attachments[i])
        invariant acquired == old(acquired) + attachments
        invariant |kept| >= k0 && kept[..k0] == old(kept)
        invariant forall d :: d in kept[k0..] ==> d in attachments
        invariant forall e :: e in exchange.attachmentObjects ==> e.attachment.dataHandler in kept[k0..]
        invariant exchange.headers == old(exchange.headers) && exchange.body == old(exchange.body)
      {
        var a := atts[current];
        if a.OtherAttachment? {
          return Fail(UnexpectedAttachment), current;
        }
        var messageId := MessageIdOf(m);
        if messageId.Err? {
          return Fail(messageId.error), current;
        }
        RequestsSnoc(id, atts, current, total);
        var staged := Stage(exchange, a, messageId.value, current, total, k0);
        current := current + 1;
        done := current;
        if staged.Fail? {
          return staged, done;
        }
      }
      assert atts[..current] == atts;
      r := Pass;
    }

    /** One stageable attachment, stated as the attachment loop needs it. */
    method Stage(exchange: Exchange, a: SmevAttachment, messageId: Option<string>, current: int, total: int, ghost k0: nat)
      returns (r: Outcome)
      requires !a.OtherAttachment?
      requires |kept| >= k0 && Distinct(attachments)
      requires forall d :: d in kept[k0..] ==> d in attachments
      requires forall e :: e in exchange.attachmentObjects ==> e.attachment.dataHandler in kept[k0..]
      modifies this`attachments, this`requests, this`acquired, this`kept, fs, exchange, laTransport.client
      ensures requests == old(requests) + [RequestFor(messageId, a, current, total)]
      ensures |kept| >= k0 && kept[..k0] == old(kept)[..k0] && Distinct(attachments)
      ensures forall d :: d in kept[k0..] ==> d in attachments
      ensures forall e :: e in exchange.attachmentObjects ==> e.attachment.dataHandler in kept[k0..]
      ensures (attachments == old(attachments) && acquired == old(acquired)) ||
              (|attachments| == |old(attachments)| + 1 && attachments[..|old(attachments)|] == old(attachments) &&
               fresh(attachments[|old(attachments)|]) && acquired == old(acquired) + [attachments[|old(attachments)|]])
      ensures exchange.headers == old(exchange.headers) && exchange.body == old(exchange.body)
    {
      ghost var before := attachments;
      ghost var keptBefore := kept;
      ghost var entriesBefore := exchange.attachmentObjects;
      ghost var handler: Option<DataHandler>;
      ghost var exposed: Option<Attachment>;
      if a.Mtom? {
        r, handler, exposed := StageMtom(exchange, a, messageId, current, total);
      } else {
        r, handler, exposed := StageLarge(exchange, a, messageId, current, total);
      }
      KeptGrows(keptBefore, kept, k0, handler, before, attachments);
      if exposed.Some? {
        PutEntryContents(entriesBefore, KeyOf(a), exposed.value);
      }
      if handler.Some? {
        assert attachments[..|before|] == before;
      }
    }

    /** The kept and staged lists after one attachment, as the loop needs them. */
    static lemma KeptGrows(k1: seq<DataHandler>, k2: seq<DataHandler>, k0: nat, handler: Option<DataHandler>,
                           a1: seq<DataHandler>, a2: seq<DataHandler>)
      requires |k1| >= k0 && forall d :: d in k1[k0..] ==> d in a1
      requires handler.None? ==> a2 == a1 && k2 == k1
      requires handler.Some? ==> a2 == a1 + [handler.value]
      requires k2 == k1 || (handler.Some? && k2 == k1 + [handler.value])
      ensures |k2| >= k0 && k2[..k0] == k1[..k0]
      ensures forall d :: d in k1[k0..] ==> d in k2[k0..]
      ensures forall d :: d in k2[k0..] ==> d in a2
      ensures handler.Some? && k2 != k1 ==> handler.value in k2[k0..]
    {
      if k2 != k1 {
        assert k2[k0..] == k1[k0..] + [handler.value];
      }
    }

    /** The exchange from a fetched message on: received, attachments staged,
        the accepted flag preset under auto-ack, the route run, and the flag
        read back. */
    method Consume(exchange: Exchange, m: SmevMessage) returns (r: Result<int>)
      requires attachments == [] && accepted.None?
      requires exchange.headers == map[] && exchange.body == NoBody && exchange.attachmentObjects == []
      modifies this`attachments, this`requests, this`acquired, this`kept, this`accepted, this`handled, exchange, fs, laTransport.client
      ensures r.Ok? ==> r.value == 1
      ensures r.Err? ==> accepted.None?
      ensures Received(m, conf.settings, f).Err? ==> r == Err(Received(m, conf.settings, f).error)
      ensures handled == old(handled) ||
              (Received(m, conf.settings, f).Ok? &&
               handled == old(handled) + [RouteInput(Received(m, conf.settings, f).value, conf.settings.autoAck)] &&
               (r.Ok? <==> route(handled[|handled| - 1]).Completed?))
      ensures r.Ok? ==>
                Received(m, conf.settings, f).Ok? && |handled| == |old(handled)| + 1 &&
                var input := RouteInput(Received(m, conf.settings, f).value, conf.settings.autoAck);
                route(input).Completed? && accepted == AsBool(route(input).headers, MESSAGE_ACCEPTED) &&
                AllStageable(AttachmentsOf(m)) &&
                requests == old(requests) + Requests(RequestedId(m), AttachmentsOf(m), |AttachmentsOf(m)|)
      ensures Distinct(attachments) && forall i :: 0 <= i < |attachments| ==> fresh(attachments[i])
      ensures acquired == old(acquired) + attachments
      ensures |kept| >= |old(kept)| && forall d :: d in kept[|old(kept)|..] ==> d in attachments
      ensures forall e :: e in exchange.attachmentObjects ==> e.attachment.dataHandler in kept[|old(kept)|..]
    {
      var received := Receive(exchange, m);
      if received.Fail? {
        return Err(received.error);
      }
      var filled, done := FillExchangeAttachments(exchange, m);
      if filled.Fail? {
        return Err(filled.error);
      }
      assert AttachmentsOf(m)[..done] == AttachmentsOf(m);
      if conf.settings.autoAck {
        Set(exchange, MESSAGE_ACCEPTED, Some(Flag(true)));
      }
      var input := Presentation(exchange.headers, exchange.body);
      handled := handled + [input];
      var outcome := route(input);
      if outcome.Failed? {
        return Err(FailureOf(outcome.exception));
      }
      exchange.headers := outcome.headers;
      accepted := AsBool(exchange.headers, MESSAGE_ACCEPTED);
      r := Ok(1);
    }

    /** The finally block of poll: every staged handler is handed to the
        strategy's done, whose failures are ignored; then the list is cleared. */
    method Release()
      modifies this`attachments, this`released, fs
      ensures released == old(released) + old(attachments) && attachments == []
      ensures fs.files == AfterDone(old(fs.files), conf.settings.strategy, old(attachments))
    {
      var i := 0;
      while i < |attachments|
        invariant attachments == old(attachments) && 0 <= i <= |attachments|
        invariant released == old(released) + attachments[..i]
        invariant fs.files == AfterDone(old(fs.files), conf.settings.strategy, attachments[..i])
      {
        var _ := Strategies.Done(conf.settings.strategy, fs, attachments[i]);
        assert attachments[..i + 1][..i] == attachments[..i];
        released := released + [attachments[i]];
        i := i + 1;
      }
      assert attachments[..i] == attachments;
      attachments := [];
    }

    /** poll: at most one message; without one, 0 and nothing else happens.
        Every handler staged is released exactly once before poll returns. */
    method Poll() returns (r: Result<int>, ghost staged: seq<DataHandler>, ghost exchange: Exchange)
      requires Valid()
      modifies this`message, this`accepted, this`attachments, this`requests, this`acquired, this`kept, this`released, this`handled
      modifies wsTemplate, fs, laTransport.client
      ensures Valid()
      ensures var reply := old(wsTemplate.Next()).get;
              wsTemplate.calls == old(wsTemplate.calls) + [Fetched(conf.settings.query, reply)] &&
              (reply.GetFailed? ==> r == Err(Broker(reply.reason)) && message == old(message)) &&
              (reply.NoMessage? ==> r == Ok(0) && message.None?) &&
              (reply.Delivered? ==> message == Some(reply.message) && r != Ok(0))
      ensures !old(wsTemplate.Next()).get.Delivered? ==>
                staged == [] && accepted.None? && requests == old(requests) && handled == old(handled)
      ensures acquired == old(acquired) + staged && released == old(released) + staged && Distinct(staged)
      ensures forall i :: 0 <= i < |staged| ==> fresh(staged[i])
      ensures r.Err? ==> accepted.None?
      ensures |old(handled)| <= |handled| <= |old(handled)| + 1 && handled[..|old(handled)|] == old(handled)
      ensures r == Ok(1) ==>
                var m := old(wsTemplate.Next()).get.message;
                Received(m, conf.settings, f).Ok? && AllStageable(AttachmentsOf(m)) &&
                var input := RouteInput(Received(m, conf.settings, f).value, conf.settings.autoAck);
                handled == old(handled) + [input] && route(input).Completed? &&
                accepted == AsBool(route(input).headers, MESSAGE_ACCEPTED) &&
                requests == old(requests) + Requests(RequestedId(m), AttachmentsOf(m), |AttachmentsOf(m)|)
      ensures |kept| >= |old(kept)| && forall d :: d in kept[|old(kept)|..] ==> d in staged
      ensures fresh(exchange) && forall e :: e in exchange.attachmentObjects ==> e.attachment.dataHandler in kept[|old(kept)|..]
    {
      var created := new Exchange(attachmentSupport);
      exchange := created;
      accepted := None;
      var reply := wsTemplate.Get(conf.settings.query);
      if reply.GetFailed? {
        r := Err(Broker(reply.reason));
      } else if reply.NoMessage? {
        message := None;
        r := Ok(0);
      } else {
        message := Some(reply.message);
        r := Consume(created, reply.message);
      }
      staged := attachments;
      Release();
    }

    /** commit: the ack is due only for a polled message whose accepted flag
        was read, outside status queries; the fields are cleared whatever
        happens. */
    method Commit(polledMessages: int) returns (r: Outcome)
      modifies this`message, this`accepted, wsTemplate
      ensures message.None? && accepted.None?
      ensures !AckDue(polledMessages, old(accepted), conf.settings.query.queryType) ==>
                r == Pass && wsTemplate.calls == old(wsTemplate.calls)
      ensures AckDue(polledMessages, old(accepted), conf.settings.query.queryType) && old(message).None? ==>
                r == Fail(NullPointer) && wsTemplate.calls == old(wsTemplate.calls)
      ensures AckDue(polledMessages, old(accepted), conf.settings.query.queryType) && old(message).Some? ==>
                wsTemplate.calls == old(wsTemplate.calls) + [Acked(old(message).value.metadata, old(accepted).value)] &&
                r == CommitOutcome(old(wsTemplate.Next()).ack, old(message).value)
    {
      r := Pass;
      if AckDue(polledMessages, accepted, conf.settings.query.queryType) {
        if message.None? {
          r := Fail(NullPointer);
        } else {
          var reply := wsTemplate.Ack(message.value.metadata, accepted.value);
          r := CommitOutcome(reply, message.value);
        }
      }
      message, accepted := None, None;
    }

    /** rollback: waits the error delay (a negative delay raises before the
        message is cleared) and asks for no retry. */
    method Rollback(cause: Error) returns (r: Result<bool>)
      modifies this`message, this`waits
      ensures conf.settings.errorDelay >= 0 ==>
                r == Ok(false) && message.None? && waits == old(waits) + [conf.settings.errorDelay]
      ensures conf.settings.errorDelay < 0 ==>
                r == Err(IllegalArgument("timeout value is negative")) && message == old(message) && waits == old(waits)
    {
      var delay := conf.settings.errorDelay;
      if delay < 0 {
        return Err(IllegalArgument("timeout value is negative"));
      }
      waits := waits + [delay];
      message := None;
      r := Ok(false);
    }

    /** One scheduled run: begin, poll, then commit with the polled count,
        or rollback with the exception poll or commit raised; a rollback that
        returns asks for no retry, so its cause is the run's failure. At most
        one ack is made, never for a status query, and only for the message
        this run fetched. */
    method RunOnce() returns (r: Outcome, ghost staged: seq<DataHandler>, ghost acks: seq<BrokerCall>,
                              ghost polled: Result<int>, ghost after: Option<bool>)
      requires Valid()
      modifies this`message, this`accepted, this`attachments, this`requests, this`acquired, this`kept, this`released, this`handled
      modifies this`waits, wsTemplate, fs, laTransport.client
      ensures Valid()
      ensures var reply := old(wsTemplate.Next()).get;
              wsTemplate.calls == old(wsTemplate.calls) + [Fetched(conf.settings.query, reply)] + acks &&
              |acks| <= 1 &&
              (conf.settings.query.queryType == STATUS ==> acks == []) &&
              (acks != [] ==> reply.Delivered? && acks[0].Acked? && acks[0].metadata == reply.message.metadata)
      ensures acks != [] <==> polled.Ok? && AckDue(polled.value, after, conf.settings.query.queryType)
      ensures acks != [] ==> acks[0].accepted == after.value
      ensures polled == Ok(1) ==>
                |handled| == |old(handled)| + 1 && route(handled[|handled| - 1]).Completed? &&
                after == AsBool(route(handled[|handled| - 1]).headers, MESSAGE_ACCEPTED)
      ensures acquired == old(acquired) + staged && released == old(released) + staged && Distinct(staged)
      ensures r == Pass ==> message.None? && accepted.None?
    {
      var ready := Begin();
      staged, acks, polled, after := [], [], Ok(0), None;
      r := Pass;
      if ready {
        var polledNow;
        ghost var calls0 := wsTemplate.calls;
        ghost var reply := wsTemplate.Next().get;
        ghost var ex;
        polledNow, staged, ex := Poll();
        polled, after := polledNow, accepted;
        ghost var calls1 := wsTemplate.calls;
        var failure: Option<Error> := None;
        if polledNow.Ok? {
          var committed := Commit(polledNow.value);
          acks := wsTemplate.calls[|calls1|..];
          assert wsTemplate.calls == calls1 + acks;
          if committed.Fail? {
            failure := Some(committed.error);
          }
        } else {
          failure := Some(polledNow.error);
        }
        if failure.Some? {
          var retry := Rollback(failure.value);
          r := if retry.Err? then Fail(retry.error) else Fail(failure.value);
        }
      }
    }
  }
}
