/** AttachmentsUtils: the older sendFile helper. It records the file's path
    as the content reference, never sets a UUID, and does not check that the
    message carries attachments. */
module AttachmentsUtils {
  import opened Base
  import opened Sdk
  import opened Camel
  import opened Smev3Constants

  /** The headers of a file of `size` bytes at `filePath`. The header names are
      written out literally in this helper; they are the texts of the
      attachment header constants. */
  function UtilHeaders(size: nat, mimeType: Option<string>, filePath: string): (h: map<string, string>)
    ensures ATTACHMENT_LENGTH in h && h[ATTACHMENT_LENGTH] == Decimal(size)
    ensures ATTACHMENT_MIMETYPE in h <==> mimeType.Some?
    ensures mimeType.Some? ==> h[ATTACHMENT_MIMETYPE] == mimeType.value
    ensures ATTACHMENT_CONTENT_REF in h && h[ATTACHMENT_CONTENT_REF] == filePath
    ensures ATTACHMENT_NAME in h && h[ATTACHMENT_NAME] == FileName(filePath)
    ensures ATTACHMENT_UUID !in h
    ensures h.Keys <= {ATTACHMENT_LENGTH, ATTACHMENT_MIMETYPE, ATTACHMENT_CONTENT_REF, ATTACHMENT_NAME}
  {
    HeaderNamesDiffer();
    var h0 := SetOrClear(map[], "AttachmentLength", Some(Decimal(size)));
    var h1 := SetOrClear(h0, "AttachmentMimeType", mimeType);
    var h2 := SetOrClear(h1, "AttachmentContentRef", Some(filePath));
    SetOrClear(h2, "AttachmentName", Some(FileName(filePath)))
  }

  lemma HeaderNamesDiffer()
    ensures ATTACHMENT_LENGTH != ATTACHMENT_MIMETYPE && ATTACHMENT_LENGTH != ATTACHMENT_CONTENT_REF
    ensures ATTACHMENT_LENGTH != ATTACHMENT_NAME && ATTACHMENT_MIMETYPE != ATTACHMENT_CONTENT_REF
    ensures ATTACHMENT_MIMETYPE != ATTACHMENT_NAME && ATTACHMENT_CONTENT_REF != ATTACHMENT_NAME
    ensures ATTACHMENT_UUID !in {ATTACHMENT_LENGTH, ATTACHMENT_MIMETYPE, ATTACHMENT_CONTENT_REF, ATTACHMENT_NAME}
  {
    assert |ATTACHMENT_LENGTH| == 16 && |ATTACHMENT_MIMETYPE| == 18 && |ATTACHMENT_NAME| == 14;
    assert |ATTACHMENT_CONTENT_REF| == 20 && |ATTACHMENT_UUID| == 14;
    assert ATTACHMENT_NAME[10] != ATTACHMENT_UUID[10];
  }

  /** sendFile: a message without attachment support is dereferenced anyway
      and fails; otherwise the attachment is stored under the file's name.
      The handler reads the file new File(filePath) names, whose path is the
      normalised one; the content reference keeps the text as given. */
  method SendFile(filePath: string, mimeType: Option<string>, exchange: Exchange, fs: FileSystem)
    returns (r: Outcome, ghost added: Option<Attachment>)
    modifies exchange
    ensures !exchange.hasAttachmentMessage ==>
              r == Fail(NullPointer) && added.None? &&
              exchange.attachmentObjects == old(exchange.attachmentObjects)
    ensures exchange.hasAttachmentMessage ==>
              r == Pass && added.Some? && fresh(added.value) &&
              added.value.dataHandler.source == OnDisk(Normalize(filePath)) &&
              added.value.headers == UtilHeaders(fs.Length(Normalize(filePath)), mimeType, filePath) &&
              exchange.attachmentObjects == PutEntry(old(exchange.attachmentObjects), FileName(filePath), added.value)
    ensures exchange.headers == old(exchange.headers) && exchange.body == old(exchange.body)
  {
    var file := Normalize(filePath);
    var dh := new DataHandler(OnDisk(file));
    var attachment := new Attachment(dh);
    attachment.SetHeader("AttachmentLength", Some(Decimal(fs.Length(file))));
    attachment.SetHeader("AttachmentMimeType", mimeType);
    attachment.SetHeader("AttachmentContentRef", Some(filePath));
    attachment.SetHeader("AttachmentName", Some(FileName(filePath)));
    if !exchange.hasAttachmentMessage {
      return Fail(NullPointer), None;
    }
    exchange.AddAttachmentObject(FileName(filePath), attachment);
    r, added := Pass, Some(attachment);
  }

  /** The recorded headers read back as the file's size, path and name, and
      the UUID reads back as the caller's default. */
  lemma {:induction false} UtilHeadersReadBack(size: nat, mimeType: Option<string>, filePath: string,
                                               d: Option<Typed>, f: Foreign)
    requires size <= INT_MAX
    ensures var h := UtilHeaders(size, mimeType, filePath);
            AttachmentGet(h, ATTACHMENT_LENGTH, d, LongType, f) == Ok(Some(Int(size))) &&
            AttachmentGet(h, ATTACHMENT_CONTENT_REF, d, StringType, f) == Ok(Some(Str(filePath))) &&
            AttachmentGet(h, ATTACHMENT_NAME, d, StringType, f) == Ok(Some(Str(FileName(filePath)))) &&
            AttachmentGet(h, ATTACHMENT_UUID, d, StringType, f) == Ok(d)
  {
    DecimalRoundTrip(size, LONG_MIN, LONG_MAX);
  }
}
