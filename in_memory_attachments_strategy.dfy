/** InMemoryAttachmentsStrategy: every received attachment is staged in a fresh
    ByteArrayDataSource; processing records how many bytes were written;
    releasing a buffer does nothing. */
module InMemoryAttachmentsStrategy {
  import opened Base
  import opened Sdk
  import opened Camel
  import opened Smev3Constants
  import BA = ByteArrayDataSource

  /** get: a new, empty in-memory handler named after the attachment and typed
      with its mime type. The message id, attachment id, signature, ordinal and
      total take no part in it. */
  method Get(messageId: Option<string>, attachmentId: string, attachmentName: string,
             mimeType: Option<string>, signature: Option<Bytes>, current: int, total: int)
    returns (dh: DataHandler)
    ensures fresh(dh) && dh.source.Memory?
    ensures fresh(dh.source.buffer) && fresh(dh.source.buffer.outputStream)
    ensures dh.source.buffer.name == attachmentName && dh.source.buffer.contentType == mimeType
    ensures dh.source.buffer.outputStream.bytes == []
  {
    var source := new BA.ByteArrayDataSource(attachmentName, mimeType);
    dh := new DataHandler(Memory(source));
  }

  /** process: the length header becomes the decimal count of the bytes written
      so far; the attachment is always kept. A handler that is not in memory
      fails the cast. */
  method Process(a: Attachment, dh: DataHandler) returns (r: Result<bool>)
    modifies a
    ensures dh.source.Memory? ==> r == Ok(true)
    ensures dh.source.Memory? ==>
              a.headers == AttachmentPut(old(a.headers), ATTACHMENT_LENGTH,
                                         Some(Number(|dh.source.buffer.outputStream.bytes|)))
    ensures !dh.source.Memory? ==> r == Err(ClassCast) && a.headers == old(a.headers)
  {
    if !dh.source.Memory? {
      return Err(ClassCast);
    }
    var out := dh.source.buffer.GetOutputStream();
    AttachmentSet(a, ATTACHMENT_LENGTH, Some(Number(|out.bytes|)));
    r := Ok(true);
  }

  /** done: nothing to release. */
  method Done(dh: DataHandler) returns (r: Outcome)
    ensures r == Pass
  {
    r := Pass;
  }

  /** The length process records reads back, as an Integer, as the number of bytes written. */
  lemma {:induction false} ProcessedLengthReadsBack(h: map<string, string>, written: Bytes,
                                                     d: Option<Typed>, f: Foreign)
    requires |written| <= INT_MAX
    ensures AttachmentGet(AttachmentPut(h, ATTACHMENT_LENGTH, Some(Number(|written|))),
                          ATTACHMENT_LENGTH, d, IntegerType, f) == Ok(Some(Int(|written|)))
  {
    AttachmentNumberRoundTrip(h, ATTACHMENT_LENGTH, |written|, d, f);
  }
}
