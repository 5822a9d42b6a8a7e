/** Attachments: helpers for routes. sendFile attaches a file to the
    exchange's message under the file's name; saveAttachments writes the bytes
    of every attachment of the message into a directory, each under its Name
    header or, without one, under its key. */
module Attachments {
  import opened Base
  import opened Sdk
  import opened Camel
  import opened Smev3Constants

  // ---------------------------------------------------------------------------
  // sendFile

  /** The headers sendFile gives a file of `size` bytes: its length in
      decimal, the mime type, the file's name, and the UUID only when one is
      given and not empty. */
  function SentHeaders(size: nat, mimeType: Option<string>, name: string, attachmentId: Option<string>)
    : (h: map<string, string>)
    ensures ATTACHMENT_LENGTH in h && h[ATTACHMENT_LENGTH] == Decimal(size)
    ensures ATTACHMENT_NAME in h && h[ATTACHMENT_NAME] == name
    ensures ATTACHMENT_MIMETYPE in h <==> mimeType.Some?
    ensures mimeType.Some? ==> h[ATTACHMENT_MIMETYPE] == mimeType.value
    ensures ATTACHMENT_UUID in h <==> attachmentId.Some? && |attachmentId.value| > 0
    ensures ATTACHMENT_UUID in h ==> h[ATTACHMENT_UUID] == attachmentId.value
    ensures h.Keys <= {ATTACHMENT_LENGTH, ATTACHMENT_MIMETYPE, ATTACHMENT_NAME, ATTACHMENT_UUID}
  {
    LengthNameUuidDiffer();
    var h0 := SetOrClear(map[], ATTACHMENT_LENGTH, Some(Decimal(size)));
    var h1 := SetOrClear(h0, ATTACHMENT_MIMETYPE, mimeType);
    var h2 := SetOrClear(h1, ATTACHMENT_NAME, Some(name));
    if attachmentId.Some? && |attachmentId.value| > 0 then SetOrClear(h2, ATTACHMENT_UUID, attachmentId) else h2
  }

  lemma LengthNameUuidDiffer()
    ensures ATTACHMENT_LENGTH != ATTACHMENT_MIMETYPE && ATTACHMENT_LENGTH != ATTACHMENT_NAME
    ensures ATTACHMENT_LENGTH != ATTACHMENT_UUID && ATTACHMENT_MIMETYPE != ATTACHMENT_NAME
    ensures ATTACHMENT_MIMETYPE != ATTACHMENT_UUID && ATTACHMENT_NAME != ATTACHMENT_UUID
  {
    assert |ATTACHMENT_LENGTH| == 16 && |ATTACHMENT_MIMETYPE| == 18 && |ATTACHMENT_NAME| == 14;
    assert ATTACHMENT_NAME[10] != ATTACHMENT_UUID[10];
  }

  /** sendFile: without an attachment message nothing happens; otherwise a
      file-backed attachment is stored under the file's name, replacing an
      attachment of that name and otherwise going last. The handler reads the
      file new File(filePath) names, whose path is the normalised one. */
  method SendFile(filePath: string, mimeType: Option<string>, attachmentId: Option<string>,
                  exchange: Exchange, fs: FileSystem)
    returns (ghost added: Option<Attachment>)
    modifies exchange
    ensures !exchange.hasAttachmentMessage ==>
              added.None? && exchange.attachmentObjects == old(exchange.attachmentObjects)
    ensures exchange.hasAttachmentMessage ==>
              added.Some? && fresh(added.value) &&
              added.value.dataHandler.source == OnDisk(Normalize(filePath)) &&
              added.value.headers == SentHeaders(fs.Length(Normalize(filePath)), mimeType, FileName(filePath), attachmentId) &&
              exchange.attachmentObjects == PutEntry(old(exchange.attachmentObjects), FileName(filePath), added.value)
    ensures exchange.headers == old(exchange.headers) && exchange.body == old(exchange.body)
  {
    added := None;
    if exchange.hasAttachmentMessage {
      var name := FileName(filePath);
      var file := Normalize(filePath);
      var attachment := FileAttachment(file, fs.Length(file), mimeType, name, attachmentId);
      exchange.AddAttachmentObject(name, attachment);
      added := Some(attachment);
    }
  }

  /** The attachment sendFile builds: a handler over the file, then the
      length, mime type, name and (when given) UUID headers in that order. */
  method FileAttachment(filePath: string, size: nat, mimeType: Option<string>, name: string,
                        attachmentId: Option<string>)
    returns (attachment: Attachment)
    ensures fresh(attachment) && attachment.dataHandler.source == OnDisk(filePath)
    ensures attachment.headers == SentHeaders(size, mimeType, name, attachmentId)
  {
    var dh := new DataHandler(OnDisk(filePath));
    attachment := new Attachment(dh);
    attachment.SetHeader(ATTACHMENT_LENGTH, Some(Decimal(size)));
    attachment.SetHeader(ATTACHMENT_MIMETYPE, mimeType);
    attachment.SetHeader(ATTACHMENT_NAME, Some(name));
    if attachmentId.Some? && |attachmentId.value| > 0 {
      attachment.SetHeader(ATTACHMENT_UUID, attachmentId);
    }
  }

  /** What sendFile records reads back through the typed getter: the length as
      the file's size, the name as the name, and the UUID as given. */
  lemma {:induction false} SentHeadersReadBack(size: nat, mimeType: Option<string>, name: string,
                                               attachmentId: Option<string>, d: Option<Typed>, f: Foreign)
    requires size <= INT_MAX
    ensures var h := SentHeaders(size, mimeType, name, attachmentId);
            AttachmentGet(h, ATTACHMENT_LENGTH, d, LongType, f) == Ok(Some(Int(size))) &&
            AttachmentGet(h, ATTACHMENT_NAME, d, StringType, f) == Ok(Some(Str(name))) &&
            (attachmentId.Some? && |attachmentId.value| > 0 ==>
               AttachmentGet(h, ATTACHMENT_UUID, d, StringType, f) == Ok(Some(Str(attachmentId.value)))) &&
            (attachmentId.None? || attachmentId.value == "" ==> AttachmentGet(h, ATTACHMENT_UUID, d, StringType, f) == Ok(d))
  {
    var h := SentHeaders(size, mimeType, name, attachmentId);
    DecimalRoundTrip(size, LONG_MIN, LONG_MAX);
  }

  // ---------------------------------------------------------------------------
  // saveAttachments

  /** Where the bytes of an attachment come from: a buffer's current contents,
      or a file read when its turn comes. */
  datatype Source = Buffered(data: Bytes) | Stored(path: string)

  /** One file to write: its path and its source. */
  datatype Item = Item(target: string, source: Source)

  /** The file name an attachment is saved under: its Name header, else its key. */
  function TargetName(h: map<string, string>, key: string): string {
    if ATTACHMENT_NAME in h then h[ATTACHMENT_NAME] else key
  }

  function SourceOf(dh: DataHandler): (s: Source)
    reads if dh.source.Memory? then {dh.source.buffer.outputStream} else {}
    ensures dh.source.Memory? <==> s.Buffered?
  {
    match dh.source
    case Memory(buffer) => Buffered(buffer.outputStream.bytes)
    case OnDisk(path) => Stored(path)
  }

  function ItemOf(root: string, e: Entry): Item
    reads e.attachment
    reads if e.attachment.dataHandler.source.Memory? then {e.attachment.dataHandler.source.buffer.outputStream} else {}
  {
    Item(JoinPath(root, TargetName(e.attachment.headers, e.key)), SourceOf(e.attachment.dataHandler))
  }

  /** A target is Paths.get(rootPath, name) in normal form: a plain file name is
      its last component, and under a normal root it is root/name. */
  lemma ItemTarget(root: string, e: Entry)
    ensures var name, t := TargetName(e.attachment.headers, e.key), ItemOf(root, e).target;
            IsNormal(t) &&
            (name != [] && '/' !in name ==> FileName(t) == name) &&
            (IsNormal(root) && root != [] && root != "/" && name != [] && '/' !in name ==> t == root + "/" + name)
  {
    var name := TargetName(e.attachment.headers, e.key);
    if IsNormal(root) && root != [] && root != "/" && name != [] && '/' !in name {
      JoinPathOfNormal(root, name);
    }
  }

  function ItemsOf(root: string, es: seq<Entry>): (items: seq<Item>)
    reads EntryFrame(es)
    ensures |items| == |es|
    ensures forall i :: 0 <= i < |es| ==> items[i] == ItemOf(root, es[i])
  {
    if es == [] then []
    else
      assert EntryFrame(es[1..]) <= EntryFrame(es);
      [ItemOf(root, es[0])] + ItemsOf(root, es[1..])
  }

  datatype Saved = Saved(outcome: Outcome, files: map<string, Bytes>)

  /** Writing one item: the output file is opened (created or truncated)
      first, then the source is read and copied into it. */
  function SaveOne(files: map<string, Bytes>, unwritable: set<string>, it: Item): (s: Saved)
    ensures s.outcome == Pass ==> it.target in s.files && files.Keys + {it.target} == s.files.Keys
    ensures s.outcome == Pass && it.source.Buffered? ==> s.files == files[it.target := it.source.data]
    ensures it.target in unwritable ==> s == Saved(Fail(Io("cannot open " + it.target)), files)
    ensures it.target !in unwritable ==> it.target in s.files
  {
    if it.target in unwritable then Saved(Fail(Io("cannot open " + it.target)), files)
    else
      var truncated := files[it.target := []];
      match it.source
      case Buffered(data) => Saved(Pass, truncated[it.target := data])
      case Stored(path) =>
        if path in truncated then Saved(Pass, truncated[it.target := truncated[path]])
        else Saved(Fail(Io("file not found")), truncated)
  }

  /** The items written in order; the first failure ends the loop. */
  function SaveAll(files: map<string, Bytes>, unwritable: set<string>, items: seq<Item>): Saved {
    if items == [] then Saved(Pass, files)
    else
      var before := SaveAll(files, unwritable, items[..|items| - 1]);
      if before.outcome.Fail? then before
      else SaveOne(before.files, unwritable, items[|items| - 1])
  }

  /** Saving one entry of the attachment map. */
  method SaveEntry(root: string, e: Entry, fs: FileSystem, f: Foreign, ghost it: Item) returns (r: Outcome)
    requires it == ItemOf(root, e)
    modifies fs
    ensures Saved(r, fs.files) == SaveOne(old(fs.files), fs.unwritable, it)
  {
    var named := AttachmentGet(e.attachment.headers, ATTACHMENT_NAME, Some(Str(e.key)), StringType, f);
    var name := named.value.value.s;
    assert name == TargetName(e.attachment.headers, e.key);
    var target := JoinPath(root, name);
    var ok := fs.Open(target);
    if !ok {
      return Fail(Io("cannot open " + target));
    }
    var content := ReadContent(e.attachment.dataHandler, fs);
    if content.Err? {
      return Fail(content.error);
    }
    fs.Append(target, content.value);
    assert [] + content.value == content.value;
    r := Pass;
  }

  /** The loop over the attachment map's entries, in order. */
  method SaveEntries(root: string, es: seq<Entry>, fs: FileSystem, f: Foreign, ghost items: seq<Item>) returns (r: Outcome)
    requires |items| == |es| && forall j :: 0 <= j < |es| ==> items[j] == ItemOf(root, es[j])
    modifies fs
    ensures Saved(r, fs.files) == SaveAll(old(fs.files), fs.unwritable, items)
  {
    ghost var start := fs.files;
    r := Pass;
    var i := 0;
    while i < |es|
      invariant 0 <= i <= |es|
      invariant forall j :: 0 <= j < |es| ==> items[j] == ItemOf(root, es[j])
      invariant r == Pass && SaveAll(start, fs.unwritable, items[..i]) == Saved(Pass, fs.files)
    {
      r := SaveEntry(root, es[i], fs, f, items[i]);
      SaveAllSnoc(start, fs.unwritable, items, i);
      if r.Fail? {
        SaveAllStopsAtFailure(start, fs.unwritable, items, i + 1);
        return;
      }
      i := i + 1;
    }
    assert items[..|es|] == items;
  }

  /** saveAttachments: without an attachment message, or with no attachments,
      nothing is written. */
  method SaveAttachments(root: string, exchange: Exchange, fs: FileSystem, f: Foreign) returns (r: Outcome)
    modifies fs
    ensures !exchange.hasAttachmentMessage || exchange.attachmentObjects == [] ==>
              r == Pass && fs.files == old(fs.files)
    ensures exchange.hasAttachmentMessage ==>
              Saved(r, fs.files) == SaveAll(old(fs.files), fs.unwritable, old(ItemsOf(root, exchange.attachmentObjects)))
  {
    var es := exchange.attachmentObjects;
    if !exchange.hasAttachmentMessage || es == [] {
      return Pass;
    }
    r := SaveEntries(root, es, fs, f, ItemsOf(root, es));
  }

  // ---------------------------------------------------------------------------
  // Properties of saving

  lemma SaveAllSnoc(files: map<string, Bytes>, unwritable: set<string>, items: seq<Item>, i: nat)
    requires i < |items|
    ensures var before := SaveAll(files, unwritable, items[..i]);
            SaveAll(files, unwritable, items[..i + 1]) ==
              if before.outcome.Fail? then before else SaveOne(before.files, unwritable, items[i])
  {
    assert items[..i + 1][..i] == items[..i];
  }

  /** Once a prefix fails, the rest is never written. */
  lemma {:induction false} SaveAllStopsAtFailure(files: map<string, Bytes>, unwritable: set<string>,
                                                  items: seq<Item>, k: nat)
    requires k <= |items| && SaveAll(files, unwritable, items[..k]).outcome.Fail?
    ensures SaveAll(files, unwritable, items) == SaveAll(files, unwritable, items[..k])
    decreases |items| - k
  {
    if k < |items| {
      SaveAllSnoc(files, unwritable, items, k);
      SaveAllStopsAtFailure(files, unwritable, items, k + 1);
    } else {
      assert items[..k] == items;
    }
  }

  /** A save that succeeds has written every target, none of them unwritable,
      and has removed no file. */
  lemma {:induction false} SaveAllWritesEveryTarget(files: map<string, Bytes>, unwritable: set<string>, items: seq<Item>)
    requires SaveAll(files, unwritable, items).outcome == Pass
    ensures var s := SaveAll(files, unwritable, items);
            files.Keys <= s.files.Keys &&
            forall i :: 0 <= i < |items| ==> items[i].target !in unwritable && items[i].target in s.files
  {
    if items != [] {
      var init := items[..|items| - 1];
      SaveAllWritesEveryTarget(files, unwritable, init);
      forall i | 0 <= i < |items| - 1 ensures items[i] == init[i] {}
    }
  }

  /** An unwritable target anywhere makes the save fail. */
  lemma {:induction false} UnwritableTargetFails(files: map<string, Bytes>, unwritable: set<string>,
                                                  items: seq<Item>, k: nat)
    requires k < |items| && items[k].target in unwritable
    ensures SaveAll(files, unwritable, items).outcome.Fail?
  {
    if SaveAll(files, unwritable, items).outcome == Pass {
      SaveAllWritesEveryTarget(files, unwritable, items);
    }
  }

  /** The paths a list of items writes. */
  function Targets(items: seq<Item>): set<string> {
    if items == [] then {} else Targets(items[..|items| - 1]) + {items[|items| - 1].target}
  }

  /** Buffered attachments with distinct writable targets are all saved: each
      target ends up holding its attachment's bytes. */
  lemma {:induction false} SaveAllBuffered(files: map<string, Bytes>, unwritable: set<string>, items: seq<Item>)
    requires forall i :: 0 <= i < |items| ==> items[i].source.Buffered? && items[i].target !in unwritable
    requires forall i, j :: 0 <= i < j < |items| ==> items[i].target != items[j].target
    ensures var s := SaveAll(files, unwritable, items);
            s.outcome == Pass &&
            forall i :: 0 <= i < |items| ==> items[i].target in s.files && s.files[items[i].target] == items[i].source.data
  {
    if items != [] {
      var n := |items| - 1;
      var init := items[..n];
      assert forall i :: 0 <= i < n ==> init[i] == items[i];
      SaveAllBuffered(files, unwritable, init);
      var before := SaveAll(files, unwritable, init);
      assert SaveAll(files, unwritable, items) == SaveOne(before.files, unwritable, items[n]);
      assert SaveAll(files, unwritable, items).files == before.files[items[n].target := items[n].source.data];
    }
  }

  lemma {:induction false} SaveAllBufferedPasses(files: map<string, Bytes>, unwritable: set<string>, items: seq<Item>)
    requires forall i :: 0 <= i < |items| ==> items[i].source.Buffered? && items[i].target !in unwritable
    ensures SaveAll(files, unwritable, items).outcome == Pass
  {
    if items != [] {
      var n := |items| - 1;
      assert forall i :: 0 <= i < n ==> items[..n][i] == items[i];
      SaveAllBufferedPasses(files, unwritable, items[..n]);
    }
  }

  /** Saving buffered attachments touches no path but their targets. */
  lemma {:induction false} SaveAllBufferedFrame(files: map<string, Bytes>, unwritable: set<string>,
                                                 items: seq<Item>, p: string)
    requires forall i :: 0 <= i < |items| ==> items[i].source.Buffered? && items[i].target !in unwritable
    requires p !in Targets(items)
    ensures var s := SaveAll(files, unwritable, items);
            (p in s.files <==> p in files) && (p in files ==> s.files[p] == files[p])
  {
    if items != [] {
      var n := |items| - 1;
      var init := items[..n];
      assert forall i :: 0 <= i < n ==> init[i] == items[i];
      SaveAllBufferedFrame(files, unwritable, init, p);
      SaveAllBufferedPasses(files, unwritable, init);
    }
  }

  /** A file saved onto itself comes out empty: the output is truncated before
      the input is read. */
  lemma SaveOntoItselfTruncates(files: map<string, Bytes>, unwritable: set<string>, path: string)
    requires path !in unwritable
    ensures SaveOne(files, unwritable, Item(path, Stored(path))) == Saved(Pass, files[path := []])
  {
  }
}
