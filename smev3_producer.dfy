/** Smev3Producer: turns an exchange into one call on the SMEV broker. The
    mode chosen in the configuration decides the message: a request or a
    response carries the body as XML content, its personal signature and the
    exchange's attachments (large ones uploaded to the FTP store first); a
    status or reject response carries header fields; an acknowledgement is
    not a message at all but an ack call. After a send, the metadata of the
    broker's answer is copied into the exchange headers. */
module Smev3Producer {
  import opened Base
  import opened Sdk
  import opened Camel
  import opened Smev3Constants
  import Conf = Smev3Configuration
  import Ftp = ApacheFtpTransport

  /** The MIME type of an outgoing attachment without a MimeType header. */
  const DEFAULT_MIME_TYPE: string := "application/stream"

  // ---------------------------------------------------------------------------
  // getContent

  /** The XML content of a body: an element as is, a document's root element,
      or a text parsed as a document; any other body (null included) raises. */
  function GetContent(body: Body, f: Foreign): (r: Result<Element>)
    ensures body.ElementBody? ==> r == Ok(body.element)
    ensures body.DocumentBody? ==> r == Ok(body.root)
    ensures body.TextBody? ==>
              (r.Ok? <==> f.parseXml(body.text).Some?) &&
              (r.Ok? ==> Some(r.value) == f.parseXml(body.text)) &&
              (r.Err? ==> r.error == MalformedXml(body.text))
    ensures r == Err(Bare) <==> !(body.ElementBody? || body.DocumentBody? || body.TextBody?)
  {
    match body
    case ElementBody(e) => Ok(e)
    case DocumentBody(root) => Ok(root)
    case TextBody(text) =>
      (match f.parseXml(text)
       case Some(e) => Ok(e)
       case None => Err(MalformedXml(text)))
    case _ => Err(Bare)
  }

  // ---------------------------------------------------------------------------
  // Typed reads of attachment headers, as getAttachments uses them

  /** A String read: the header, else the default. */
  function HeaderText(h: map<string, string>, name: string, default: Option<string>, f: Foreign): (r: Option<string>)
    ensures name in h ==> r == Some(h[name])
    ensures name !in h ==> r == default
  {
    match AttachmentGet(h, name, if default.Some? then Some(Str(default.value)) else None, StringType, f)
    case Ok(Some(Str(s))) => Some(s)
    case _ => None
  }

  /** A byte[] read: the Base64-decoded header (null when malformed), else the default. */
  function HeaderBytes(h: map<string, string>, name: string, default: Bytes, f: Foreign): (r: Option<Bytes>)
    ensures name in h ==> r == f.base64Decode(h[name])
    ensures name !in h ==> r == Some(default)
  {
    match AttachmentGet(h, name, Some(Raw(default)), BytesType, f)
    case Ok(Some(Raw(b))) => Some(b)
    case _ => None
  }

  /** A UUID read: the parsed header, else the default; malformed text raises. */
  function HeaderUuid(h: map<string, string>, name: string, default: string, f: Foreign): (r: Result<string>)
    ensures name !in h ==> r == Ok(default)
    ensures name in h ==> (r.Ok? <==> f.uuidFromString(h[name]).Some?)
    ensures name in h && r.Ok? ==> Some(r.value) == f.uuidFromString(h[name])
    ensures name in h && r.Err? ==> r.error == IllegalArgument(h[name])
  {
    match AttachmentGet(h, name, Some(Uuid(default)), UuidType, f)
    case Ok(Some(Uuid(u))) => Ok(u)
    case Err(e) => Err(e)
    case _ => Ok(default)
  }

  /** The length an attachment is classified by: its Integer length header,
      or the threshold when the header is absent. */
  function LengthOf(h: map<string, string>, threshold: int, f: Foreign): (r: Result<int>)
    ensures ATTACHMENT_LENGTH !in h ==> r == Ok(threshold)
    ensures ATTACHMENT_LENGTH in h ==>
              (r.Ok? <==> ParseDecimal(h[ATTACHMENT_LENGTH], INT_MIN, INT_MAX).Some?) &&
              (r.Ok? ==> Some(r.value) == ParseDecimal(h[ATTACHMENT_LENGTH], INT_MIN, INT_MAX)) &&
              (r.Err? ==> r.error == NumberFormat(h[ATTACHMENT_LENGTH]))
  {
    match AttachmentGet(h, ATTACHMENT_LENGTH, Some(Int(threshold)), IntegerType, f)
    case Ok(Some(Int(n))) => Ok(n)
    case Err(e) => Err(e)
    case _ => Ok(threshold)
  }

  // ---------------------------------------------------------------------------
  // getAttachments, one entry

  /** An entry of the attachment map as the loop sees it: its key, its text
      headers and what reading its data handler yields. */
  datatype Input = Input(key: string, headers: map<string, string>, content: Result<Bytes>)

  function InputOf(e: Entry, fs: FileSystem): (i: Input)
    reads e.attachment, fs
    reads if e.attachment.dataHandler.source.Memory? then {e.attachment.dataHandler.source.buffer.outputStream} else {}
    ensures i.key == e.key && i.headers == e.attachment.headers
    ensures i.content == Content(e.attachment.dataHandler, fs)
  {
    Input(e.key, e.attachment.headers, Content(e.attachment.dataHandler, fs))
  }

  function InputsOf(es: seq<Entry>, fs: FileSystem): (ins: seq<Input>)
    reads EntryFrame(es), fs
    ensures |ins| == |es|
    ensures forall i :: 0 <= i < |es| ==> ins[i] == InputOf(es[i], fs)
  {
    if es == [] then []
    else
      assert EntryFrame(es[1..]) <= EntryFrame(es);
      [InputOf(es[0], fs)] + InputsOf(es[1..], fs)
  }

  /** The name an attachment travels under (MTOM attachment id, large file reference). */
  function NameOf(a: SmevAttachment): string {
    match a
    case Mtom(_, _, _, id, _) => id
    case Large(_, _, _, _, _, _, ref) => ref
    case OtherAttachment => ""
  }

  /** What converting one entry did: the SMEV attachment (or the exception),
      how many identifiers it drew, and the FTP calls it made. */
  datatype Step = Step(out: Result<SmevAttachment>, generated: nat, calls: seq<Ftp.FtpCall>)

  /** One iteration of getAttachments. `nextId` is the identifier the identity
      service hands out next; it is drawn (and used when there is no UUID
      header) for every attachment classified large. The length and the name
      are read first, then the data handler's content. */
  function Convert(x: Input, t: Conf.TransferSettings, f: Foreign, script: Ftp.Script, nextId: string): (s: Step)
    ensures s.generated <= 1
    ensures s.out.Ok? ==> LengthOf(x.headers, t.threshold, f).Ok? && x.content.Ok?
  {
    match LengthOf(x.headers, t.threshold, f)
    case Err(e) => Step(Err(e), 0, [])
    case Ok(length) =>
      match x.content
      case Err(e) => Step(Err(e), 0, [])
      case Ok(data) =>
        ConvertData(x.headers, HeaderText(x.headers, ATTACHMENT_NAME, Some(x.key), f).value, data, length,
                    t, f, script, nextId)
  }

  /** The rest of an iteration, once the length, the name and the bytes are known:
      checksum and detached signature, then a large attachment (uploaded) when
      the length reaches the threshold, an MTOM attachment otherwise. */
  function ConvertData(h: map<string, string>, name: string, data: Bytes, length: int,
                       t: Conf.TransferSettings, f: Foreign, script: Ftp.Script, nextId: string): (s: Step)
    ensures s.generated <= 1
  {
    var checkSum := f.digest(data);
    var signature := f.signDetached(checkSum);
    var mime := HeaderText(h, ATTACHMENT_MIMETYPE, Some(DEFAULT_MIME_TYPE), f);
    var sig := HeaderBytes(h, ATTACHMENT_SIGNATUREPKCS7, signature, f);
    var passport := HeaderText(h, ATTACHMENT_PASSPORTID, None, f);
    if length >= t.threshold then
      match HeaderUuid(h, ATTACHMENT_UUID, nextId, f)
      case Err(e) => Step(Err(e), 1, [])
      case Ok(uuid) =>
        var transport := TransportDetails(Some(t.login), Some(t.password));
        var large := Large(mime, sig, passport, uuid, Some(f.textBytes(f.base64Encode(checkSum))), transport, name);
        var up := Ftp.UploadSession(script, t.address, transport, uuid, name, data);
        Step(if up.outcome.Fail? then Err(up.outcome.error) else Ok(large), 1, up.calls)
    else
      Step(Ok(Mtom(mime, sig, passport, name, data)), 0, [])
  }

  /** Classification is by length alone, and a missing length header means large. */
  lemma ConvertClassifiesByLength(x: Input, t: Conf.TransferSettings, f: Foreign, script: Ftp.Script, nextId: string)
    ensures var s := Convert(x, t, f, script, nextId);
            var length := LengthOf(x.headers, t.threshold, f);
            s.out.Ok? ==> length.Ok? &&
                          (s.out.value.Large? <==> length.value >= t.threshold) &&
                          (s.out.value.Mtom? <==> length.value < t.threshold) &&
                          (ATTACHMENT_LENGTH !in x.headers ==> s.out.value.Large?)
  {
  }

  /** The header defaults: the map key for the name, "application/stream" for
      the MIME type, the computed detached signature, no passport id. */
  lemma ConvertDefaults(x: Input, t: Conf.TransferSettings, f: Foreign, script: Ftp.Script, nextId: string)
    requires Convert(x, t, f, script, nextId).out.Ok?
    ensures var a := Convert(x, t, f, script, nextId).out.value;
            (ATTACHMENT_NAME !in x.headers ==> NameOf(a) == x.key) &&
            (ATTACHMENT_NAME in x.headers ==> NameOf(a) == x.headers[ATTACHMENT_NAME]) &&
            (ATTACHMENT_MIMETYPE !in x.headers ==> a.mimeType == Some(DEFAULT_MIME_TYPE)) &&
            (ATTACHMENT_MIMETYPE in x.headers ==> a.mimeType == Some(x.headers[ATTACHMENT_MIMETYPE])) &&
            (ATTACHMENT_SIGNATUREPKCS7 !in x.headers ==> a.signature == Some(f.signDetached(f.digest(x.content.value)))) &&
            (ATTACHMENT_PASSPORTID !in x.headers ==> a.passportId.None?)
  {
  }

  /** An MTOM attachment carries the bytes, draws no identifier and is never uploaded. */
  lemma ConvertMtomInline(x: Input, t: Conf.TransferSettings, f: Foreign, script: Ftp.Script, nextId: string)
    requires Convert(x, t, f, script, nextId).out.Ok? && Convert(x, t, f, script, nextId).out.value.Mtom?
    ensures var s := Convert(x, t, f, script, nextId);
            s.out.value.content == x.content.value && s.generated == 0 && s.calls == []
  {
  }

  /** A large attachment draws one identifier, which is its UUID unless a UUID
      header names one; its hash is the Base64 text of the checksum that was
      signed; its credentials are the configured ones; and it went through one
      successful upload session, which is all the FTP traffic of the step. */
  lemma ConvertLargeUploaded(x: Input, t: Conf.TransferSettings, f: Foreign, script: Ftp.Script, nextId: string)
    requires Convert(x, t, f, script, nextId).out.Ok? && Convert(x, t, f, script, nextId).out.value.Large?
    ensures var s := Convert(x, t, f, script, nextId);
            var a := s.out.value;
            s.generated == 1 &&
            (ATTACHMENT_UUID !in x.headers ==> a.uuid == nextId) &&
            a.hash == Some(f.textBytes(f.base64Encode(f.digest(x.content.value)))) &&
            (ATTACHMENT_SIGNATUREPKCS7 !in x.headers ==> a.signature == Some(f.signDetached(f.digest(x.content.value)))) &&
            a.transport == TransportDetails(Some(t.login), Some(t.password)) &&
            var up := Ftp.UploadSession(script, t.address, a.transport, a.uuid, a.fileRef, x.content.value);
            up.outcome == Pass && s.calls == up.calls
  {
  }

  /** A length header that is not an int, or content that cannot be read,
      fails the step before any identifier is drawn or any FTP call is made. */
  lemma ConvertFailsEarly(x: Input, t: Conf.TransferSettings, f: Foreign, script: Ftp.Script, nextId: string)
    ensures var length := LengthOf(x.headers, t.threshold, f);
            var s := Convert(x, t, f, script, nextId);
            (length.Err? ==> s == Step(Err(length.error), 0, [])) &&
            (length.Ok? && x.content.Err? ==> s == Step(Err(x.content.error), 0, []))
  {
  }

  // ---------------------------------------------------------------------------
  // getAttachments, the whole map

  /** What converting a sequence of entries did. */
  datatype Run = Run(out: Result<seq<SmevAttachment>>, issued: nat, calls: seq<Ftp.FtpCall>)

  /** The shape of the loop of getAttachments for any per-entry step: the
      entries in order, each with the identifier due next, results appended,
      the first failure ending the loop. */
  function Iterate(xs: seq<Input>, step: (Input, string) -> Step, ids: nat -> string, issued: nat): (run: Run)
    ensures run.issued >= issued
    ensures run.out.Ok? ==> |run.out.value| == |xs|
    ensures xs == [] ==> run == Run(Ok([]), issued, [])
    decreases |xs|
  {
    if xs == [] then Run(Ok([]), issued, [])
    else
      var before := Iterate(xs[..|xs| - 1], step, ids, issued);
      if before.out.Err? then before
      else
        var s := step(xs[|xs| - 1], ids(before.issued));
        Run(if s.out.Err? then Err(s.out.error) else Ok(before.out.value + [s.out.value]),
            before.issued + s.generated, before.calls + s.calls)
  }

  /** The step of the loop of getAttachments: `Iterate(xs, Stepper(t, f, script), ids, issued)`
      is that loop over `xs`, with `issued` identifiers handed out before it. */
  function Stepper(t: Conf.TransferSettings, f: Foreign, script: Ftp.Script): (Input, string) -> Step {
    (x: Input, id: string) => Convert(x, t, f, script, id)
  }

  /** The number of large attachments. */
  function LargeCount(atts: seq<SmevAttachment>): (n: nat)
    ensures n <= |atts|
  {
    if atts == [] then 0
    else LargeCount(atts[..|atts| - 1]) + (if atts[|atts| - 1].Large? then 1 else 0)
  }

  /** The file references of the large attachments, in order. */
  function LargeRefs(atts: seq<SmevAttachment>): (refs: seq<string>)
    ensures |refs| == LargeCount(atts)
  {
    if atts == [] then []
    else LargeRefs(atts[..|atts| - 1]) + (if atts[|atts| - 1].Large? then [atts[|atts| - 1].fileRef] else [])
  }

  /** A step that draws an identifier exactly for a large result and stores
      exactly a large result's file. */
  ghost predicate Accounted(step: (Input, string) -> Step) {
    forall x: Input, id: string :: AccountedAt(step, x, id)
  }

  ghost predicate AccountedAt(step: (Input, string) -> Step, x: Input, id: string) {
    var s := step(x, id);
    s.out.Ok? ==>
      s.generated == (if s.out.value.Large? then 1 else 0) &&
      Ftp.StoredFiles(s.calls) == if s.out.value.Large? then [s.out.value.fileRef] else []
  }

  lemma IterateUnfold(xs: seq<Input>, i: nat, step: (Input, string) -> Step, ids: nat -> string, issued: nat)
    requires i < |xs|
    ensures var before := Iterate(xs[..i], step, ids, issued);
            var s := step(xs[i], ids(before.issued));
            Iterate(xs[..i + 1], step, ids, issued) ==
              if before.out.Err? then before
              else Run(if s.out.Err? then Err(s.out.error) else Ok(before.out.value + [s.out.value]),
                       before.issued + s.generated, before.calls + s.calls)
  {
    assert xs[..i + 1][..i] == xs[..i];
  }

  /** One more entry of the loop: appended on success, the whole loop's
      result on failure. */
  lemma IterateNext(xs: seq<Input>, i: nat, step: (Input, string) -> Step, ids: nat -> string, issued: nat,
                    atts: seq<SmevAttachment>, drawn: nat, calls: seq<Ftp.FtpCall>)
    requires i < |xs| && Iterate(xs[..i], step, ids, issued) == Run(Ok(atts), drawn, calls)
    ensures var s := step(xs[i], ids(drawn));
            (s.out.Ok? ==> Iterate(xs[..i + 1], step, ids, issued) ==
                             Run(Ok(atts + [s.out.value]), drawn + s.generated, calls + s.calls)) &&
            (s.out.Err? ==> Iterate(xs, step, ids, issued) ==
                              Run(Err(s.out.error), drawn + s.generated, calls + s.calls))
  {
    IterateUnfold(xs, i, step, ids, issued);
    if step(xs[i], ids(drawn)).out.Err? {
      IterateStopsAtFailure(xs[..i + 1], xs[i + 1..], step, ids, issued);
      assert xs[..i + 1] + xs[i + 1..] == xs;
    }
  }

  /** A successful loop is also successful on every prefix, with the prefix of its result. */
  lemma {:induction false} IteratePrefix(xs: seq<Input>, k: nat, step: (Input, string) -> Step,
                                         ids: nat -> string, issued: nat)
    requires k <= |xs| && Iterate(xs, step, ids, issued).out.Ok?
    ensures Iterate(xs[..k], step, ids, issued).out == Ok(Iterate(xs, step, ids, issued).out.value[..k])
    decreases |xs| - k
  {
    var atts := Iterate(xs, step, ids, issued).out.value;
    if k == |xs| {
      assert xs[..k] == xs && atts[..k] == atts;
    } else {
      IteratePrefix(xs, k + 1, step, ids, issued);
      IterateUnfold(xs, k, step, ids, issued);
      assert atts[..k + 1][..k] == atts[..k];
    }
  }

  /** Once an entry fails, later entries are never looked at: no identifier
      is drawn and nothing more is uploaded. */
  lemma {:induction false} IterateStopsAtFailure(xs: seq<Input>, more: seq<Input>, step: (Input, string) -> Step,
                                                 ids: nat -> string, issued: nat)
    requires Iterate(xs, step, ids, issued).out.Err?
    ensures Iterate(xs + more, step, ids, issued) == Iterate(xs, step, ids, issued)
    decreases |more|
  {
    if more != [] {
      var m := |more| - 1;
      var whole := xs + more;
      assert whole[..|whole| - 1] == xs + more[..m];
      IterateStopsAtFailure(xs, more[..m], step, ids, issued);
    } else {
      assert xs + more == xs;
    }
  }

  lemma {:induction false} IterateEffects(xs: seq<Input>, step: (Input, string) -> Step, ids: nat -> string, issued: nat)
    requires Accounted(step) && Iterate(xs, step, ids, issued).out.Ok?
    ensures var run := Iterate(xs, step, ids, issued);
            run.issued == issued + LargeCount(run.out.value) &&
            Ftp.StoredFiles(run.calls) == LargeRefs(run.out.value)
    decreases |xs|
  {
    if xs != [] {
      var n := |xs| - 1;
      var before := Iterate(xs[..n], step, ids, issued);
      var s := step(xs[n], ids(before.issued));
      var run := Iterate(xs, step, ids, issued);
      IterateEffects(xs[..n], step, ids, issued);
      assert AccountedAt(step, xs[n], ids(before.issued));
      Ftp.StoredFilesConcat(before.calls, s.calls);
      var atts := run.out.value;
      assert atts[..|atts| - 1] == before.out.value;
    }
  }

  lemma IterateItems(xs: seq<Input>, i: nat, step: (Input, string) -> Step, ids: nat -> string, issued: nat)
    requires Accounted(step) && Iterate(xs, step, ids, issued).out.Ok? && i < |xs|
    ensures var atts := Iterate(xs, step, ids, issued).out.value;
            step(xs[i], ids(issued + LargeCount(atts[..i]))).out == Ok(atts[i])
  {
    var atts := Iterate(xs, step, ids, issued).out.value;
    IteratePrefix(xs, i + 1, step, ids, issued);
    IteratePrefix(xs, i, step, ids, issued);
    IterateUnfold(xs, i, step, ids, issued);
    var before := Iterate(xs[..i], step, ids, issued);
    var after := Iterate(xs[..i + 1], step, ids, issued);
    assert before.out == Ok(atts[..i]) && after.out == Ok(atts[..i + 1]);
    IterateEffects(xs[..i], step, ids, issued);
    assert before.issued == issued + LargeCount(atts[..i]);
    var s := step(xs[i], ids(before.issued));
    assert s.out.Ok? && after.out.value == before.out.value + [s.out.value];
    assert atts[..i + 1] == atts[..i] + [atts[i]];
  }

  /** A successful step draws one identifier exactly when it is large, and
      stores its own file exactly when it is large. */
  lemma StepEffects(x: Input, t: Conf.TransferSettings, f: Foreign, script: Ftp.Script, nextId: string)
    requires Convert(x, t, f, script, nextId).out.Ok?
    ensures var s := Convert(x, t, f, script, nextId);
            s.generated == (if s.out.value.Large? then 1 else 0) &&
            Ftp.StoredFiles(s.calls) == if s.out.value.Large? then [s.out.value.fileRef] else []
  {
    var s := Convert(x, t, f, script, nextId);
    ConvertClassifiesByLength(x, t, f, script, nextId);
    if s.out.value.Large? {
      var a := s.out.value;
      ConvertLargeUploaded(x, t, f, script, nextId);
      Ftp.UploadStoresOnce(script, t.address, a.transport, a.uuid, a.fileRef, x.content.value);
    } else {
      ConvertMtomInline(x, t, f, script, nextId);
    }
  }

  lemma StepperAccounted(t: Conf.TransferSettings, f: Foreign, script: Ftp.Script)
    ensures Accounted(Stepper(t, f, script))
  {
    forall x: Input, id: string
      ensures AccountedAt(Stepper(t, f, script), x, id)
    {
      if Convert(x, t, f, script, id).out.Ok? {
        StepEffects(x, t, f, script, id);
      }
    }
  }

  /** `step` converts every entry as Convert does. */
  ghost predicate Converts(step: (Input, string) -> Step, t: Conf.TransferSettings, f: Foreign, script: Ftp.Script) {
    forall x: Input, id: string :: ConvertsAt(step, t, f, script, x, id)
  }

  ghost predicate ConvertsAt(step: (Input, string) -> Step, t: Conf.TransferSettings, f: Foreign, script: Ftp.Script,
                             x: Input, id: string) {
    step(x, id) == Convert(x, t, f, script, id)
  }

  lemma StepperConverts(t: Conf.TransferSettings, f: Foreign, script: Ftp.Script)
    ensures Converts(Stepper(t, f, script), t, f, script)
  {
    forall x: Input, id: string
      ensures ConvertsAt(Stepper(t, f, script), t, f, script, x, id)
    {
    }
  }

  /** The loop depends only on what its step computes. */
  lemma {:induction false} IterateAgrees(xs: seq<Input>, step: (Input, string) -> Step, other: (Input, string) -> Step,
                                         ids: nat -> string, issued: nat)
    requires forall x: Input, id: string :: step(x, id) == other(x, id)
    ensures Iterate(xs, step, ids, issued) == Iterate(xs, other, ids, issued)
    decreases |xs|
  {
    if xs != [] {
      IterateAgrees(xs[..|xs| - 1], step, other, ids, issued);
    }
  }

  lemma StepAgreesWithStepper(xs: seq<Input>, step: (Input, string) -> Step, t: Conf.TransferSettings, f: Foreign,
                               script: Ftp.Script, ids: nat -> string, issued: nat)
    requires Converts(step, t, f, script)
    ensures Iterate(xs, step, ids, issued) == Iterate(xs, Stepper(t, f, script), ids, issued)
  {
    forall x: Input, id: string
      ensures step(x, id) == Stepper(t, f, script)(x, id)
    {
      assert ConvertsAt(step, t, f, script, x, id);
    }
    IterateAgrees(xs, step, Stepper(t, f, script), ids, issued);
  }

  /** A successful pass draws one identifier per large attachment and stores
      exactly the large attachments' files, in order: every large attachment
      is uploaded once and no MTOM attachment is. */
  lemma ConvertAllEffects(xs: seq<Input>, t: Conf.TransferSettings, f: Foreign, script: Ftp.Script,
                          ids: nat -> string, issued: nat)
    requires Iterate(xs, Stepper(t, f, script), ids, issued).out.Ok?
    ensures var run := Iterate(xs, Stepper(t, f, script), ids, issued);
            run.issued == issued + LargeCount(run.out.value) &&
            Ftp.StoredFiles(run.calls) == LargeRefs(run.out.value)
  {
    StepperAccounted(t, f, script);
    IterateEffects(xs, Stepper(t, f, script), ids, issued);
  }

  lemma ConvertsAccounted(step: (Input, string) -> Step, t: Conf.TransferSettings, f: Foreign, script: Ftp.Script)
    requires Converts(step, t, f, script)
    ensures Accounted(step)
  {
    forall x: Input, id: string
      ensures AccountedAt(step, x, id)
    {
      assert ConvertsAt(step, t, f, script, x, id);
      if Convert(x, t, f, script, id).out.Ok? {
        StepEffects(x, t, f, script, id);
      }
    }
  }

  /** The loop stops at the first entry that fails. */
  lemma ConvertAllStopsAtFailure(xs: seq<Input>, more: seq<Input>, t: Conf.TransferSettings,
                                 f: Foreign, script: Ftp.Script, ids: nat -> string, issued: nat)
    requires Iterate(xs, Stepper(t, f, script), ids, issued).out.Err?
    ensures Iterate(xs + more, Stepper(t, f, script), ids, issued) == Iterate(xs, Stepper(t, f, script), ids, issued)
  {
    IterateStopsAtFailure(xs, more, Stepper(t, f, script), ids, issued);
  }

  /** A step that, for entry `x`, draws no identifier, makes no FTP call and
      yields an MTOM attachment when it succeeds. */
  ghost predicate QuietAt(step: (Input, string) -> Step, x: Input, id: string) {
    var s := step(x, id);
    s.generated == 0 && s.calls == [] && (s.out.Ok? ==> s.out.value.Mtom?)
  }

  lemma {:induction false} IterateQuiet(xs: seq<Input>, step: (Input, string) -> Step, ids: nat -> string, issued: nat)
    requires forall i, id :: 0 <= i < |xs| ==> QuietAt(step, xs[i], id)
    ensures var run := Iterate(xs, step, ids, issued);
            run.issued == issued && run.calls == [] &&
            (run.out.Ok? ==> forall i :: 0 <= i < |xs| ==> run.out.value[i].Mtom?)
    decreases |xs|
  {
    if xs != [] {
      var n := |xs| - 1;
      assert forall i, id :: 0 <= i < n ==> QuietAt(step, xs[..n][i], id) by {
        forall i, id | 0 <= i < n ensures QuietAt(step, xs[..n][i], id) {
          assert xs[..n][i] == xs[i];
        }
      }
      IterateQuiet(xs[..n], step, ids, issued);
      assert QuietAt(step, xs[n], ids(Iterate(xs[..n], step, ids, issued).issued));
    }
  }

  /** An entry below the threshold is converted inline. */
  lemma SmallEntryQuiet(x: Input, t: Conf.TransferSettings, f: Foreign, script: Ftp.Script, id: string)
    requires LengthOf(x.headers, t.threshold, f).Ok? && LengthOf(x.headers, t.threshold, f).value < t.threshold
    ensures QuietAt(Stepper(t, f, script), x, id)
  {
    ConvertClassifiesByLength(x, t, f, script, id);
    ConvertFailsEarly(x, t, f, script, id);
    if Convert(x, t, f, script, id).out.Ok? {
      ConvertMtomInline(x, t, f, script, id);
    }
  }

  /** Entries that are all below the threshold become MTOM attachments
      without drawing an identifier or touching the FTP store. */
  lemma SmallEntriesStayInline(xs: seq<Input>, t: Conf.TransferSettings, f: Foreign,
                               script: Ftp.Script, ids: nat -> string, issued: nat)
    requires forall i :: 0 <= i < |xs| ==>
               LengthOf(xs[i].headers, t.threshold, f).Ok? && LengthOf(xs[i].headers, t.threshold, f).value < t.threshold
    ensures var run := Iterate(xs, Stepper(t, f, script), ids, issued);
            run.issued == issued && run.calls == [] &&
            (run.out.Ok? ==> forall i :: 0 <= i < |xs| ==> run.out.value[i].Mtom?)
  {
    forall i, id | 0 <= i < |xs| ensures QuietAt(Stepper(t, f, script), xs[i], id) {
      SmallEntryQuiet(xs[i], t, f, script, id);
    }
    IterateQuiet(xs, Stepper(t, f, script), ids, issued);
  }

  // ---------------------------------------------------------------------------
  // process: the message built for each mode

  /** The message identifier: the MessageId header, else the identifier
      generated for this exchange. */
  function MessageIdOf(h: Headers, generated: string): (id: string)
    ensures MESSAGE_ID !in h ==> id == generated
    ensures MESSAGE_ID in h && h[MESSAGE_ID].Text? ==> id == h[MESSAGE_ID].s
  {
    TextOr(h, MESSAGE_ID, generated)
  }

  /** The metadata the producer sends (or, for an ack, acknowledges). */
  function MetadataFor(mode: Conf.Mode, h: Headers, generated: string): (md: Metadata)
    ensures md.identity == Some(MessageIdentity(Some(MessageIdOf(h, generated)),
                                                AsText(h, MESSAGE_REFERENCE_ID), AsText(h, METADATA_TRANSACTION_CODE)))
    ensures md.processing.Some? ==>
              !md.processing.value.OtherInformation? &&
              md.processing.value.messageId == Some(MessageIdOf(h, generated))
    ensures md.processing.None? <==> mode == Conf.Ack
    ensures md.context.Some? <==> mode == Conf.Ack
    ensures mode == Conf.Request ==>
              md.processing.value.RequestInformation? &&
              md.processing.value.nodeId == AsText(h, METADATA_NODEID) &&
              md.processing.value.eol.None? &&
              md.processing.value.testMessage == BoolOr(h, METADATA_TESTMESSAGE, false)
    ensures mode == Conf.Request && METADATA_TESTMESSAGE !in h ==> md.processing.value.testMessage == Some(false)
    ensures mode in {Conf.Response, Conf.Status, Conf.Reject} ==>
              md.processing.value.ResponseInformation? &&
              md.processing.value.originalMessageId == AsText(h, ORIGINAL_MESSAGEID) &&
              md.processing.value.replyTo == AsText(h, MESSAGE_REPLYTO)
    ensures mode == Conf.Ack ==> md.context.value.idTransport == AsText(h, METADATA_IDTRANSPORT)
  {
    var messageId := MessageIdOf(h, generated);
    var identity := MessageIdentity(Some(messageId), AsText(h, MESSAGE_REFERENCE_ID), AsText(h, METADATA_TRANSACTION_CODE));
    match mode
    case Request =>
      Metadata(Some(identity),
               Some(RequestInformation(Some(messageId), None, AsText(h, METADATA_NODEID),
                                       BoolOr(h, METADATA_TESTMESSAGE, false), None)),
               None)
    case Ack =>
      Metadata(Some(identity), None,
               Some(SmevContext(AsText(h, METADATA_IDTRANSPORT), None, None, None, None, None, None, None, None, None, None)))
    case _ =>
      Metadata(Some(identity),
               Some(ResponseInformation(Some(messageId), AsText(h, ORIGINAL_MESSAGEID), AsText(h, MESSAGE_REPLYTO), None, None)),
               None)
  }

  /** The business content of a non-ack mode, given the body and the outcome
      of converting the attachments: content errors come first. */
  function Payload(mode: Conf.Mode, h: Headers, body: Body, atts: Result<seq<SmevAttachment>>, f: Foreign)
    : (r: Result<BusinessContent>)
    requires mode != Conf.Ack
  {
    match mode
    case Request =>
      var c :- GetContent(body, f);
      var a :- atts;
      Ok(RequestContent(c, f.sign(c), a))
    case Response =>
      var c :- GetContent(body, f);
      var a :- atts;
      Ok(ResponseContent(c, f.sign(c), a))
    case Status =>
      var code :- AsInt(h, STATUS_CODE);
      Ok(StatusResponseContent(code, AsText(h, DESCRIPTION)))
    case Reject =>
      var code := AsText(h, REJECTION_REASON_CODE);
      (match f.rejectCode(code)
       case Some(c) => Ok(RejectResponseContent(c, AsText(h, DESCRIPTION)))
       case None => Err(IllegalArgument(if code.Some? then code.value else "null")))
  }

  /** Content errors come first, then attachment errors; a status or a
      reject is built from the headers alone. */
  lemma PayloadCases(mode: Conf.Mode, h: Headers, body: Body, atts: Result<seq<SmevAttachment>>, f: Foreign)
    requires mode != Conf.Ack
    ensures var p, content := Payload(mode, h, body, atts, f), GetContent(body, f);
            mode in {Conf.Request, Conf.Response} ==>
              (content.Err? ==> p == Err(content.error)) &&
              (content.Ok? && atts.Err? ==> p == Err(atts.error))
    ensures var p, content := Payload(mode, h, body, atts, f), GetContent(body, f);
            content.Ok? && atts.Ok? ==>
              var c := content.value;
              (mode == Conf.Request ==> p == Ok(RequestContent(c, f.sign(c), atts.value))) &&
              (mode == Conf.Response ==> p == Ok(ResponseContent(c, f.sign(c), atts.value)))
    ensures var p, code := Payload(mode, h, body, atts, f), AsInt(h, STATUS_CODE);
            mode == Conf.Status ==>
              (code.Err? ==> p == Err(code.error)) &&
              (code.Ok? ==> p == Ok(StatusResponseContent(code.value, AsText(h, DESCRIPTION))))
    ensures var p, code := Payload(mode, h, body, atts, f), f.rejectCode(AsText(h, REJECTION_REASON_CODE));
            mode == Conf.Reject ==>
              (p.Ok? <==> code.Some?) &&
              (p.Ok? ==> p.value == RejectResponseContent(code.value, AsText(h, DESCRIPTION)))
  {
  }

  /** Only a request or a response with a readable body converts attachments. */
  lemma AttachmentRunSkipped(mode: Conf.Mode, body: Body, f: Foreign, xs: seq<Input>, step: (Input, string) -> Step,
                             ids: nat -> string, issued: nat)
    requires !(mode in {Conf.Request, Conf.Response}) || GetContent(body, f).Err?
    ensures AttachmentRun(mode, body, f, xs, step, ids, issued) == Run(Ok([]), issued, [])
  {
  }

  /** The attachment conversion process runs for a mode: only a request or a
      response with a readable body converts attachments. */
  function AttachmentRun(mode: Conf.Mode, body: Body, f: Foreign, xs: seq<Input>, step: (Input, string) -> Step,
                         ids: nat -> string, issued: nat): Run
  {
    if mode in {Conf.Request, Conf.Response} && GetContent(body, f).Ok? then Iterate(xs, step, ids, issued)
    else Run(Ok([]), issued, [])
  }

  /** The outcome of process for an acknowledgement the broker answered. */
  function AckOutcome(reply: AckReply): (r: Outcome)
    ensures r == Pass <==> reply.AckDone?
  {
    match reply
    case AckDone => Pass
    case AckRefused(why) => Fail(Broker(why))
    case AckCrashed(why) => Fail(Broker(why))
  }

  /** Ack mode: the accepted flag defaults to true; a flag header that does not
      convert to a Boolean cannot be unboxed. */
  lemma AcceptedDefaultsToTrue(h: Headers)
    requires MESSAGE_ACCEPTED !in h
    ensures BoolOr(h, MESSAGE_ACCEPTED, true) == Some(true)
  {
  }

  // ---------------------------------------------------------------------------
  // The producer

  class Smev3Producer {
    const conf: Conf.Smev3Configuration
    const identityService: IdentityService
    const wsTemplate: WsTemplate
    const laTransport: Ftp.ApacheFtpTransport
    /** The local file system file-backed data handlers read from. */
    const fs: FileSystem
    const f: Foreign
    /** The conversion of one attachment entry, as the loop of getAttachments
        performs it: it converts every entry as Convert does with the
        configured transfer settings, signer and FTP client. */
    ghost const convert: (Input, string) -> Step

    /** The large-attachment transport talks to the configured address. */
    ghost predicate Valid() {
      laTransport.address == conf.settings.transfer.address &&
      Converts(convert, conf.settings.transfer, f, laTransport.client.script)
    }

    /** The loop over the producer's conversion is the loop over Convert. */
    lemma ConversionIsConvert(xs: seq<Input>, ids: nat -> string, issued: nat)
      requires Valid()
      ensures Iterate(xs, convert, ids, issued) ==
              Iterate(xs, Stepper(conf.settings.transfer, f, laTransport.client.script), ids, issued)
    {
      StepAgreesWithStepper(xs, convert, conf.settings.transfer, f, laTransport.client.script, ids, issued);
    }

    /** The signer, identity service and broker come from the SDK's
        factories; the transport is built from the (memoised)
        large-attachment transport configuration. */
    constructor (conf: Conf.Smev3Configuration, identityService: IdentityService, wsTemplate: WsTemplate,
                 client: Ftp.FtpClient, fs: FileSystem, f: Foreign)
      requires conf.Valid()
      modifies conf
      ensures Valid() && conf.Valid()
      ensures this.conf == conf && this.identityService == identityService && this.wsTemplate == wsTemplate
      ensures laTransport.client == client && this.fs == fs && this.f == f
    {
      var la := conf.GetLargeAttachmentTransportConfiguration();
      this.conf := conf;
      this.identityService := identityService;
      this.wsTemplate := wsTemplate;
      this.laTransport := new Ftp.ApacheFtpTransport(la.address, client);
      this.fs := fs;
      this.f := f;
      this.convert := Stepper(conf.settings.transfer, f, client.script);
      StepperConverts(conf.settings.transfer, f, client.script);
    }

    /** One iteration of the loop of getAttachments: what `step`, a step that
        converts as Convert does, computes for the entry. */
    method ConvertEntry(e: Entry, ghost x: Input) returns (r: Result<SmevAttachment>)
      requires Valid() && x == InputOf(e, fs)
      modifies identityService, laTransport.client
      ensures var s := convert(x, identityService.source(old(identityService.issued)));
              r == s.out && identityService.issued == old(identityService.issued) + s.generated &&
              laTransport.client.calls == old(laTransport.client.calls) + s.calls
    {
      assert ConvertsAt(convert, conf.settings.transfer, f, laTransport.client.script, x,
                        identityService.source(identityService.issued));
      var t := conf.settings.transfer;
      var h := e.attachment.headers;
      var length := LengthOf(h, t.threshold, f);
      if length.Err? {
        return Err(length.error);
      }
      var name := HeaderText(h, ATTACHMENT_NAME, Some(e.key), f).value;
      var content := ReadContent(e.attachment.dataHandler, fs);
      if content.Err? {
        return Err(content.error);
      }
      r := ConvertBytes(e.attachment.dataHandler, h, name, content.value, length.value);
    }

    /** The rest of an iteration: sign, classify, upload a large attachment
        (reading the data handler a second time). */
    method ConvertBytes(dataHandler: DataHandler, h: map<string, string>, name: string, data: Bytes, length: int)
      returns (r: Result<SmevAttachment>)
      requires Valid() && Content(dataHandler, fs) == Ok(data)
      modifies identityService, laTransport.client
      ensures var s := ConvertData(h, name, data, length, conf.settings.transfer, f, laTransport.client.script,
                                   identityService.source(old(identityService.issued)));
              r == s.out && identityService.issued == old(identityService.issued) + s.generated &&
              laTransport.client.calls == old(laTransport.client.calls) + s.calls
    {
      var t := conf.settings.transfer;
      ghost var start := laTransport.client.calls;
      ghost var s := ConvertData(h, name, data, length, t, f, laTransport.client.script,
                                 identityService.source(identityService.issued));
      var checkSum := f.digest(data);
      var signature := f.signDetached(checkSum);
      var mime := HeaderText(h, ATTACHMENT_MIMETYPE, Some(DEFAULT_MIME_TYPE), f);
      var sig := HeaderBytes(h, ATTACHMENT_SIGNATUREPKCS7, signature, f);
      var passport := HeaderText(h, ATTACHMENT_PASSPORTID, None, f);
      if length >= t.threshold {
        var generated := identityService.Generate();
        var uuid := HeaderUuid(h, ATTACHMENT_UUID, generated, f);
        if uuid.Err? {
          return Err(uuid.error);
        }
        var transport := TransportDetails(Some(t.login), Some(t.password));
        var large := Large(mime, sig, passport, uuid.value, Some(f.textBytes(f.base64Encode(checkSum))), transport, name);
        var again := ReadContent(dataHandler, fs);
        ghost var up := Ftp.UploadSession(laTransport.client.script, t.address, transport, uuid.value, name, data);
        assert s == Step(if up.outcome.Fail? then Err(up.outcome.error) else Ok(large), 1, up.calls);
        var uploaded := laTransport.Upload(transport, uuid.value, name, again.value);
        assert laTransport.client.calls == start + up.calls;
        if uploaded.Fail? {
          return Err(uploaded.error);
        }
        r := Ok(large);
      } else {
        r := Ok(Mtom(mime, sig, passport, name, data));
      }
    }

    /** getAttachments: every entry of the attachment map in iteration order;
        nothing when the message carries no attachments. */
    method GetAttachments(exchange: Exchange) returns (r: Result<seq<SmevAttachment>>)
      requires Valid()
      modifies identityService, laTransport.client
      ensures var xs := if exchange.hasAttachmentMessage then old(InputsOf(exchange.attachmentObjects, fs)) else [];
              var run := Iterate(xs, convert, identityService.source, old(identityService.issued));
              r == run.out && identityService.issued == run.issued &&
              laTransport.client.calls == old(laTransport.client.calls) + run.calls
    {
      if !exchange.hasAttachmentMessage || exchange.attachmentObjects == [] {
        return Ok([]);
      }
      r := ConvertEntries(exchange.attachmentObjects, InputsOf(exchange.attachmentObjects, fs));
    }

    /** The loop of getAttachments: entries in order, the first failure ending the loop. */
    method ConvertEntries(es: seq<Entry>, ghost xs: seq<Input>)
      returns (r: Result<seq<SmevAttachment>>)
      requires Valid()
      requires |xs| == |es| && forall j :: 0 <= j < |es| ==> xs[j] == InputOf(es[j], fs)
      modifies identityService, laTransport.client
      ensures var run := Iterate(xs, convert, identityService.source, old(identityService.issued));
              r == run.out && identityService.issued == run.issued &&
              laTransport.client.calls == old(laTransport.client.calls) + run.calls
    {
      ghost var issued := identityService.issued;
      ghost var startCalls := laTransport.client.calls;
      ghost var made: seq<Ftp.FtpCall> := [];
      var attachments: seq<SmevAttachment> := [];
      var i := 0;
      while i < |es|
        invariant 0 <= i <= |es|
        invariant laTransport.client.calls == startCalls + made
        invariant Iterate(xs[..i], convert, identityService.source, issued) == Run(Ok(attachments), identityService.issued, made)
      {
        assert xs[i] == old(InputOf(es[i], fs));
        var one;
        one, made := ConvertNext(es[i], xs, i, issued, attachments, made, startCalls);
        if one.Err? {
          return Err(one.error);
        }
        attachments := attachments + [one.value];
        i := i + 1;
      }
      assert xs[..i] == xs;
      r := Ok(attachments);
    }

    /** One pass of the loop of getAttachments, stated on the loop's terms:
        the converted prefix grows by the entry, or the whole loop ends with
        the entry's failure. */
    method ConvertNext(e: Entry, ghost xs: seq<Input>, ghost i: nat, ghost issued: nat,
                       ghost atts: seq<SmevAttachment>, ghost made: seq<Ftp.FtpCall>, ghost startCalls: seq<Ftp.FtpCall>)
      returns (r: Result<SmevAttachment>, ghost made': seq<Ftp.FtpCall>)
      requires Valid() && i < |xs| && xs[i] == InputOf(e, fs)
      requires Iterate(xs[..i], convert, identityService.source, issued) == Run(Ok(atts), identityService.issued, made)
      requires laTransport.client.calls == startCalls + made
      modifies identityService, laTransport.client
      ensures laTransport.client.calls == startCalls + made'
      ensures r.Ok? ==> Iterate(xs[..i + 1], convert, identityService.source, issued) ==
                          Run(Ok(atts + [r.value]), identityService.issued, made')
      ensures r.Err? ==> Iterate(xs, convert, identityService.source, issued) ==
                           Run(Err(r.error), identityService.issued, made')
    {
      ghost var drawn := identityService.issued;
      r := ConvertEntry(e, xs[i]);
      ghost var s := convert(xs[i], identityService.source(drawn));
      IterateNext(xs, i, convert, identityService.source, issued, atts, drawn, made);
      ConcatAssoc(startCalls, made, s.calls);
      made' := made + s.calls;
    }

    /** sendAndProcessResult: one send; on success the answer's metadata is
        copied into the headers. */
    method SendAndProcessResult(exchange: Exchange, md: Metadata, content: BusinessContent) returns (r: Outcome)
      modifies exchange, wsTemplate
      ensures var reply := old(wsTemplate.Next()).send;
              wsTemplate.calls == old(wsTemplate.calls) + [Sent(OutgoingMessage(md, content), reply)] &&
              (reply.SendDone? ==> r == Pass && exchange.headers == FilledHeaders(old(exchange.headers), reply.result.metadata)) &&
              (reply.SendFailed? ==> r == Fail(Broker(reply.reason)) && exchange.headers == old(exchange.headers))
      ensures exchange.body == old(exchange.body) && exchange.attachmentObjects == old(exchange.attachmentObjects)
    {
      var reply := wsTemplate.Send(OutgoingMessage(md, content));
      if reply.SendFailed? {
        return Fail(Broker(reply.reason));
      }
      FillExchangeHeaders(exchange, reply.result.metadata);
      r := Pass;
    }

    /** The ack branch of process: the accepted header, true when absent,
        acknowledges the message the metadata names. */
    method Acknowledge(h: Headers, md: Metadata) returns (r: Outcome)
      modifies wsTemplate
      ensures var accepted := BoolOr(h, MESSAGE_ACCEPTED, true);
              (accepted.None? ==> r == Fail(NullPointer) && wsTemplate.calls == old(wsTemplate.calls)) &&
              (accepted.Some? ==> r == AckOutcome(old(wsTemplate.Next()).ack) &&
                                  wsTemplate.calls == old(wsTemplate.calls) + [Acked(Some(md), accepted.value)])
    {
      var accepted := BoolOr(h, MESSAGE_ACCEPTED, true);
      if accepted.None? {
        return Fail(NullPointer);
      }
      var reply := wsTemplate.Ack(Some(md), accepted.value);
      r := AckOutcome(reply);
    }

    /** The business content of a non-ack mode: a request or a response parses
        the body and, when it parses, converts the attachments. */
    method BuildPayload(exchange: Exchange, mode: Conf.Mode, h: Headers, body: Body, ghost xs: seq<Input>, ghost issued: nat)
      returns (payload: Result<BusinessContent>)
      requires Valid() && mode != Conf.Ack && body == exchange.body && issued == identityService.issued
      requires xs == if exchange.hasAttachmentMessage then InputsOf(exchange.attachmentObjects, fs) else []
      modifies identityService, laTransport.client
      ensures var run := AttachmentRun(mode, body, f, xs, convert, identityService.source, issued);
              payload == Payload(mode, h, body, run.out, f) &&
              identityService.issued == run.issued &&
              laTransport.client.calls == old(laTransport.client.calls) + run.calls
    {
      if mode == Conf.Request || mode == Conf.Response {
        var content := GetContent(body, f);
        if content.Err? {
          return Err(content.error);
        }
        var atts := GetAttachments(exchange);
        payload := Payload(mode, h, body, atts, f);
      } else {
        payload := Payload(mode, h, body, Ok([]), f);
      }
    }

    /** process: the branch of the configured mode. A message identifier is
        drawn first in every mode. */
    method Process(exchange: Exchange) returns (r: Outcome, ghost sent: Option<OutgoingMessage>)
      requires Valid()
      modifies exchange, identityService, wsTemplate, laTransport.client
      ensures exchange.body == old(exchange.body) && exchange.attachmentObjects == old(exchange.attachmentObjects)
      ensures var mode := conf.settings.mode;
              var h := old(exchange.headers);
              var md := MetadataFor(mode, h, identityService.source(old(identityService.issued)));
              mode == Conf.Ack ==>
                sent.None? && exchange.headers == h &&
                identityService.issued == old(identityService.issued) + 1 &&
                laTransport.client.calls == old(laTransport.client.calls) &&
                var accepted := BoolOr(h, MESSAGE_ACCEPTED, true);
                (accepted.None? ==> r == Fail(NullPointer) && wsTemplate.calls == old(wsTemplate.calls)) &&
                (accepted.Some? ==> r == AckOutcome(old(wsTemplate.Next()).ack) &&
                                    wsTemplate.calls == old(wsTemplate.calls) + [Acked(Some(md), accepted.value)])
      ensures var mode := conf.settings.mode;
              var h := old(exchange.headers);
              var md := MetadataFor(mode, h, identityService.source(old(identityService.issued)));
              var xs := if exchange.hasAttachmentMessage then old(InputsOf(exchange.attachmentObjects, fs)) else [];
              var run := AttachmentRun(mode, old(exchange.body), f, xs, convert, identityService.source,
                                       old(identityService.issued) + 1);
              mode != Conf.Ack ==>
                identityService.issued == run.issued &&
                laTransport.client.calls == old(laTransport.client.calls) + run.calls &&
                var p := Payload(mode, h, old(exchange.body), run.out, f);
                (p.Err? ==> r == Fail(p.error) && sent.None? &&
                            wsTemplate.calls == old(wsTemplate.calls) && exchange.headers == h) &&
                (p.Ok? ==> var reply := old(wsTemplate.Next()).send;
                           sent == Some(OutgoingMessage(md, p.value)) &&
                           wsTemplate.calls == old(wsTemplate.calls) + [Sent(sent.value, reply)] &&
                           (reply.SendDone? ==> r == Pass && exchange.headers == FilledHeaders(h, reply.result.metadata)) &&
                           (reply.SendFailed? ==> r == Fail(Broker(reply.reason)) && exchange.headers == h))
    {
      sent := None;
      if conf.settings.mode == Conf.Ack {
        r := AcknowledgeExchange(exchange);
      } else {
        r, sent := DeliverExchange(exchange);
      }
    }

    /** The acknowledgement half of process: draw a message id, then ack. */
    method AcknowledgeExchange(exchange: Exchange) returns (r: Outcome)
      requires Valid() && conf.settings.mode == Conf.Ack
      modifies identityService, wsTemplate
      ensures var mode := conf.settings.mode;
              var h := old(exchange.headers);
              var md := MetadataFor(mode, h, identityService.source(old(identityService.issued)));
              identityService.issued == old(identityService.issued) + 1 &&
                var accepted := BoolOr(h, MESSAGE_ACCEPTED, true);
                (accepted.None? ==> r == Fail(NullPointer) && wsTemplate.calls == old(wsTemplate.calls)) &&
                (accepted.Some? ==> r == AckOutcome(old(wsTemplate.Next()).ack) &&
                                    wsTemplate.calls == old(wsTemplate.calls) + [Acked(Some(md), accepted.value)])
    {
      var generated := identityService.Generate();
      var md := MetadataFor(conf.settings.mode, exchange.headers, generated);
      r := Acknowledge(exchange.headers, md);
    }

    /** The sending half of process: draw a message id, then build and send. */
    method DeliverExchange(exchange: Exchange) returns (r: Outcome, ghost sent: Option<OutgoingMessage>)
      requires Valid() && conf.settings.mode != Conf.Ack
      modifies exchange, identityService, wsTemplate, laTransport.client
      ensures exchange.body == old(exchange.body) && exchange.attachmentObjects == old(exchange.attachmentObjects)
      ensures var mode := conf.settings.mode;
              var h := old(exchange.headers);
              var md := MetadataFor(mode, h, identityService.source(old(identityService.issued)));
              var xs := if exchange.hasAttachmentMessage then old(InputsOf(exchange.attachmentObjects, fs)) else [];
              var run := AttachmentRun(mode, old(exchange.body), f, xs, convert, identityService.source,
                                       old(identityService.issued) + 1);
              identityService.issued == run.issued &&
                laTransport.client.calls == old(laTransport.client.calls) + run.calls &&
                var p := Payload(mode, h, old(exchange.body), run.out, f);
                (p.Err? ==> r == Fail(p.error) && sent.None? &&
                            wsTemplate.calls == old(wsTemplate.calls) && exchange.headers == h) &&
                (p.Ok? ==> var reply := old(wsTemplate.Next()).send;
                           sent == Some(OutgoingMessage(md, p.value)) &&
                           wsTemplate.calls == old(wsTemplate.calls) + [Sent(sent.value, reply)] &&
                           (reply.SendDone? ==> r == Pass && exchange.headers == FilledHeaders(h, reply.result.metadata)) &&
                           (reply.SendFailed? ==> r == Fail(Broker(reply.reason)) && exchange.headers == h))
    {
      var mode := conf.settings.mode;
      var body := exchange.body;
      var h := exchange.headers;
      var generated := identityService.Generate();
      var md := MetadataFor(mode, h, generated);
      r, sent := Deliver(exchange, mode, h, md, body,
                         if exchange.hasAttachmentMessage then old(InputsOf(exchange.attachmentObjects, fs)) else [],
                         old(identityService.issued) + 1);
    }

    /** The branch of a non-ack mode: build the content and send it when it builds. */
    method Deliver(exchange: Exchange, mode: Conf.Mode, h: Headers, md: Metadata, body: Body,
                   ghost xs: seq<Input>, ghost issued: nat)
      returns (r: Outcome, ghost sent: Option<OutgoingMessage>)
      requires Valid() && mode != Conf.Ack && body == exchange.body && h == exchange.headers
      requires issued == identityService.issued
      requires xs == if exchange.hasAttachmentMessage then InputsOf(exchange.attachmentObjects, fs) else []
      modifies exchange, identityService, wsTemplate, laTransport.client
      ensures exchange.body == old(exchange.body) && exchange.attachmentObjects == old(exchange.attachmentObjects)
      ensures var run := AttachmentRun(mode, body, f, xs, convert, identityService.source, issued);
              identityService.issued == run.issued &&
              laTransport.client.calls == old(laTransport.client.calls) + run.calls &&
              var p := Payload(mode, h, body, run.out, f);
              (p.Err? ==> r == Fail(p.error) && sent.None? &&
                          wsTemplate.calls == old(wsTemplate.calls) && exchange.headers == h) &&
              (p.Ok? ==> var reply := old(wsTemplate.Next()).send;
                         sent == Some(OutgoingMessage(md, p.value)) &&
                         wsTemplate.calls == old(wsTemplate.calls) + [Sent(sent.value, reply)] &&
                         (reply.SendDone? ==> r == Pass && exchange.headers == FilledHeaders(h, reply.result.metadata)) &&
                         (reply.SendFailed? ==> r == Fail(Broker(reply.reason)) && exchange.headers == h))
    {
      var payload := BuildPayload(exchange, mode, h, body, xs, issued);
      if payload.Err? {
        return Fail(payload.error), None;
      }
      sent := Some(OutgoingMessage(md, payload.value));
      r := SendAndProcessResult(exchange, md, payload.value);
    }
  }
}
