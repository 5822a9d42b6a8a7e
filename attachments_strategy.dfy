/** AttachmentsStrategy: where a received attachment is staged while the route
    handles it. The three kinds of strategy: in memory (the default), in files
    under a store directory, and a bean of the application's own. A bean's
    choices are given as values: what its get hands back for an attachment
    name and ordinal (an exception, null, a buffer or a file), what its process
    answers for an attachment's headers (keep, drop or an exception) and the
    headers it leaves, and, for each handler, how its done ends and which files
    it deletes. The get operation takes the eight arguments the consumer
    passes. */
module AttachmentsStrategy {
  import opened Base
  import opened Camel
  import opened Smev3Constants
  import Mem = InMemoryAttachmentsStrategy
  import Files = FileAttachmentsStrategy

  /** What a bean's get returns: it raises, returns null, or returns a
      handler over a fresh in-memory buffer or over a file. */
  datatype Handed = Raises(error: Error) | Null | Buffer | File(path: string)

  /** What a bean's process does: its answer (or exception) and the headers it leaves on the attachment. */
  datatype Processed = Processed(answer: Result<bool>, headers: map<string, string>)

  /** What a bean's done does with a handler: how it ends and the files it deletes. */
  datatype Finished = Finished(outcome: Outcome, removes: set<string>)

  datatype Strategy =
    | InMemory
    | InFiles(store: string)
    | Custom(get: (string, int) -> Handed, process: map<string, string> -> Processed, done: DataSource -> Finished)

  /** Whether get raises for this request: the file strategy cannot build a
      path from a null message id, and a bean may raise. */
  predicate GetRaises(s: Strategy, messageId: Option<string>, attachmentName: string, current: int) {
    (s.InFiles? && messageId.None?) || (s.Custom? && s.get(attachmentName, current).Raises?)
  }

  /** Whether get hands out a handler (not null) for this request. */
  predicate Supplies(s: Strategy, messageId: Option<string>, attachmentName: string, current: int) {
    !GetRaises(s, messageId, attachmentName, current) && !(s.Custom? && s.get(attachmentName, current).Null?)
  }

  /** Whether process answers true for an attachment with these headers. */
  predicate Keeps(s: Strategy, h: map<string, string>) {
    !s.Custom? || s.process(h).answer == Ok(true)
  }

  /** Whether process raises for an attachment with these headers. */
  predicate ProcessRaises(s: Strategy, h: map<string, string>) {
    s.Custom? && s.process(h).answer.Err?
  }

  /** The bytes a staged handler holds: the buffer's count, or the file's length. */
  function Written(fs: FileSystem, dh: DataHandler): nat
    reads fs, if dh.source.Memory? then {dh.source.buffer.outputStream} else {}
  {
    if dh.source.Memory? then |dh.source.buffer.outputStream.bytes| else fs.Length(dh.source.path)
  }

  /** The headers process leaves on an attachment with headers `h` whose handler
      reads from `source` and holds `size` bytes: the decimal length in memory,
      the path and length for a file, the bean's own choice for a bean, and no
      change when the cast of a built-in strategy fails. */
  function ProcessedHeaders(s: Strategy, h: map<string, string>, source: DataSource, size: nat): map<string, string> {
    match s
    case InMemory => if source.Memory? then AttachmentPut(h, ATTACHMENT_LENGTH, Some(Number(size))) else h
    case InFiles(_) => if source.OnDisk? then Files.ProcessedHeaders(h, source.path, size) else h
    case Custom(_, process, _) => process(h).headers
  }

  /** The files left after done on a handler staged at `source`. */
  function AfterDoneOne(files: map<string, Bytes>, s: Strategy, source: DataSource): map<string, Bytes> {
    match s
    case InMemory => files
    case InFiles(_) => if source.OnDisk? then files - {source.path} else files
    case Custom(_, _, done) => files - done(source).removes
  }

  /** Releasing a handler twice leaves the files as releasing it once, for
      every strategy: a second deletion finds nothing left to delete. */
  lemma ReleaseIdempotent(files: map<string, Bytes>, s: Strategy, source: DataSource)
    ensures AfterDoneOne(AfterDoneOne(files, s, source), s, source) == AfterDoneOne(files, s, source)
  {
    var once := AfterDoneOne(files, s, source);
    match s
    case InMemory =>
    case InFiles(_) =>
      if source.OnDisk? {
        assert once - {source.path} == once;
      }
    case Custom(_, _, done) =>
      assert once - done(source).removes == once;
  }

  /** get: a handler to stage an attachment in, None for a null handler, or the exception raised. */
  method Get(s: Strategy, fs: FileSystem, messageId: Option<string>, attachmentId: string, attachmentName: string,
             mimeType: Option<string>, signature: Option<Bytes>, current: int, total: int)
    returns (r: Result<Option<DataHandler>>)
    ensures r.Err? <==> GetRaises(s, messageId, attachmentName, current)
    ensures r.Ok? && r.value.Some? <==> Supplies(s, messageId, attachmentName, current)
    ensures r.Ok? && r.value.Some? ==> fresh(r.value.value)
    ensures r.Ok? && r.value.Some? && r.value.value.source.Memory? ==>
              fresh(r.value.value.source.buffer) && fresh(r.value.value.source.buffer.outputStream) &&
              r.value.value.source.buffer.outputStream.bytes == []
    ensures s.InMemory? ==> r.Ok? && r.value.Some? && r.value.value.source.Memory? &&
                            r.value.value.source.buffer.name == attachmentName
    ensures s.InFiles? && r.Err? ==> r.error == NullPointer
    ensures s.InFiles? && r.Ok? ==>
              r.value.Some? &&
              r.value.value.source == OnDisk(Files.StagingPath(fs.userDir, s.store, messageId.value, attachmentName))
    ensures s.Custom? && r.Err? ==> r.error == s.get(attachmentName, current).error
    ensures s.Custom? && s.get(attachmentName, current).Buffer? ==> r.Ok? && r.value.Some? && r.value.value.source.Memory?
    ensures s.Custom? && s.get(attachmentName, current).File? ==>
              r.Ok? && r.value.Some? && r.value.value.source == OnDisk(s.get(attachmentName, current).path)
  {
    match s
    case InMemory =>
      var dh := Mem.Get(messageId, attachmentId, attachmentName, mimeType, signature, current, total);
      r := Ok(Some(dh));
    case InFiles(store) =>
      var g := Files.Get(store, fs.userDir, messageId, attachmentId, attachmentName, mimeType, signature, current, total);
      r := if g.Ok? then Ok(Some(g.value)) else Err(g.error);
    case Custom(get, _, _) =>
      match get(attachmentName, current)
      case Raises(e) =>
        r := Err(e);
      case Null =>
        r := Ok(None);
      case Buffer =>
        var dh := Mem.Get(messageId, attachmentId, attachmentName, mimeType, signature, current, total);
        r := Ok(Some(dh));
      case File(path) =>
        var dh := new DataHandler(OnDisk(path));
        r := Ok(Some(dh));
  }

  /** process: whether the attachment is exposed to the route, or the exception raised. */
  method Process(s: Strategy, fs: FileSystem, a: Attachment, dh: DataHandler) returns (r: Result<bool>)
    modifies a
    ensures s.InMemory? && dh.source.Memory? ==> r == Ok(true)
    ensures s.InFiles? && dh.source.OnDisk? ==> r == Ok(true)
    ensures s.Custom? ==> r == s.process(old(a.headers)).answer
    ensures a.headers == ProcessedHeaders(s, old(a.headers), dh.source, Written(fs, dh))
    ensures r == Ok(true) ==> Keeps(s, old(a.headers))
    ensures r.Err? <==> ProcessRaises(s, old(a.headers)) || (s.InMemory? && !dh.source.Memory?) ||
                        (s.InFiles? && !dh.source.OnDisk?)
  {
    match s
    case InMemory =>
      r := Mem.Process(a, dh);
    case InFiles(_) =>
      r := Files.Process(fs, a, dh);
    case Custom(_, process, _) =>
      var p := process(a.headers);
      a.headers := p.headers;
      r := p.answer;
  }

  /** done: release a staged handler. */
  method Done(s: Strategy, fs: FileSystem, dh: DataHandler) returns (r: Outcome)
    modifies fs
    ensures s.InMemory? ==> r == Pass && fs.files == old(fs.files)
    ensures s.InFiles? && dh.source.OnDisk? ==> r == Pass && fs.files == old(fs.files) - {dh.source.path}
    ensures s.InFiles? && !dh.source.OnDisk? ==> r == Fail(ClassCast) && fs.files == old(fs.files)
    ensures s.Custom? ==> r == s.done(dh.source).outcome
    ensures fs.files == AfterDoneOne(old(fs.files), s, dh.source)
  {
    match s
    case InMemory =>
      r := Mem.Done(dh);
    case InFiles(_) =>
      r := Files.Done(fs, dh);
    case Custom(_, _, done) =>
      var d := done(dh.source);
      fs.files := fs.files - d.removes;
      r := d.outcome;
  }
}
