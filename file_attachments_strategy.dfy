/** FileAttachmentsStrategy: every received attachment is staged in a file
    store/messageId/attachmentName, made absolute; processing records the file's path and
    size; releasing deletes the file. */
module FileAttachmentsStrategy {
  import opened Base
  import opened Sdk
  import opened Camel
  import opened Smev3Constants

  /** The store the no-argument constructor chooses: Paths.get(tmpdir, "smev3", "fileattachments"). */
  function DefaultStore(tmpdir: string): (store: string)
    ensures IsNormal(store)
    ensures FileName(store) == "fileattachments"
    ensures IsNormal(tmpdir) && tmpdir != [] && tmpdir != "/" ==> store == tmpdir + "/" + "smev3" + "/" + "fileattachments"
  {
    var store := PathsGet(tmpdir, ["smev3", "fileattachments"]);
    if IsNormal(tmpdir) && tmpdir != [] && tmpdir != "/" then
      PathsGetOfComponents(tmpdir, "smev3", "fileattachments");
      store
    else store
  }

  /** Paths.get(first, a, b) with all three parts non-empty is first/a/b before normalising. */
  lemma JoinedTwo(first: string, a: string, b: string)
    requires first != [] && a != [] && b != []
    ensures Joined(first, [a, b]) == first + "/" + a + "/" + b
  {
    assert [a, b][..1] == [a] && [a][..0] == [];
    assert Joined(first, []) == first;
    assert Joined(first, [a]) == first + "/" + a;
  }

  /** A trailing separator on the temporary directory makes no difference:
      with java.io.tmpdir "/tmp/" the store is "/tmp/smev3/fileattachments". */
  lemma DefaultStoreTrailingSeparator(tmpdir: string)
    requires tmpdir != []
    ensures DefaultStore(tmpdir + "/") == DefaultStore(tmpdir)
  {
    PathsGetTrailingSeparator(tmpdir, "smev3", "fileattachments");
  }

  /** Paths.get(first + "/", a, b) is Paths.get(first, a, b). */
  lemma PathsGetTrailingSeparator(first: string, a: string, b: string)
    requires first != [] && a != [] && b != []
    ensures PathsGet(first + "/", [a, b]) == PathsGet(first, [a, b])
  {
    JoinedTwo(first + "/", a, b);
    JoinedTwo(first, a, b);
    var rest := a + "/" + b;
    assert (first + "/") + "/" + a + "/" + b == first + "//" + rest;
    assert first + "/" + a + "/" + b == first + "/" + rest;
    CollapseDoubleSlash(first, rest);
  }

  /** A single, non-empty path component. */
  predicate IsComponent(c: string) {
    c != [] && '/' !in c
  }

  /** The file that stages an attachment:
      new File(Paths.get(store, messageId, attachmentName).toUri()), which is
      the normalised path made absolute against the working directory `cwd`. */
  function StagingPath(cwd: string, store: string, messageId: string, attachmentName: string): (path: string)
    ensures IsNormal(path)
    ensures cwd != [] && cwd[0] == '/' ==> path != [] && path[0] == '/'
    ensures IsComponent(attachmentName) ==> FileName(path) == attachmentName
  {
    var path := AbsolutePath(cwd, PathsGet(store, [messageId, attachmentName]));
    if IsComponent(attachmentName) then StagingPathName(cwd, store, messageId, attachmentName); path
    else path
  }

  /** The staging file is named after the attachment. */
  lemma StagingPathName(cwd: string, store: string, messageId: string, attachmentName: string)
    requires IsComponent(attachmentName)
    ensures FileName(AbsolutePath(cwd, PathsGet(store, [messageId, attachmentName]))) == attachmentName
  {
    var relative := PathsGet(store, [messageId, attachmentName]);
    FileNameOfComponent(Joined(store, [messageId, attachmentName]), attachmentName);
    var q := if relative != [] && relative[0] == '/' then relative else cwd + "/" + relative;
    if q != relative {
      EndsWithComponentUnder(cwd, relative, attachmentName);
    }
    FileNameOfComponent(q, attachmentName);
    FileNameOfComponent(AbsolutePath(cwd, relative), attachmentName);
  }

  /** With an absolute store in normal form, the staging file is store/messageId/attachmentName. */
  lemma StagingPathUnderAbsoluteStore(cwd: string, store: string, messageId: string, attachmentName: string)
    requires IsNormal(store) && store != "/" && store != [] && store[0] == '/'
    requires IsComponent(messageId) && IsComponent(attachmentName)
    ensures StagingPath(cwd, store, messageId, attachmentName) == store + "/" + messageId + "/" + attachmentName
  {
    var raw := store + "/" + messageId + "/" + attachmentName;
    PathsGetOfComponents(store, messageId, attachmentName);
    assert raw[0] == '/';
    NormalizeOfNormal(raw);
    assert AbsolutePath(cwd, raw) == raw;
  }

  /** A relative store resolves against the working directory:
      with the store "att", the file is <user.dir>/att/messageId/attachmentName. */
  lemma StagingPathUnderRelativeStore(cwd: string, store: string, messageId: string, attachmentName: string)
    requires IsNormal(cwd) && cwd != "/" && cwd != []
    requires IsNormal(store) && store != [] && store[0] != '/'
    requires IsComponent(messageId) && IsComponent(attachmentName)
    ensures StagingPath(cwd, store, messageId, attachmentName) ==
              cwd + "/" + (store + "/" + messageId + "/" + attachmentName)
  {
    var raw := store + "/" + messageId + "/" + attachmentName;
    PathsGetOfComponents(store, messageId, attachmentName);
    NormalExtend(cwd, raw);
    NormalizeOfNormal(cwd + "/" + raw);
    assert raw[0] == store[0];
    assert AbsolutePath(cwd, raw) == cwd + "/" + raw;
  }

  /** Paths.get(store, messageId, attachmentName) of a normal store and two components. */
  lemma PathsGetOfComponents(store: string, messageId: string, attachmentName: string)
    requires IsNormal(store) && store != "/" && store != []
    requires IsComponent(messageId) && IsComponent(attachmentName)
    ensures IsNormal(store + "/" + messageId + "/" + attachmentName)
    ensures PathsGet(store, [messageId, attachmentName]) == store + "/" + messageId + "/" + attachmentName
  {
    var raw := store + "/" + messageId + "/" + attachmentName;
    JoinedTwo(store, messageId, attachmentName);
    NormalizePlain(messageId);
    NormalizePlain(attachmentName);
    NormalExtend(store, messageId);
    NormalExtend(store + "/" + messageId, attachmentName);
    NormalizeOfNormal(raw);
  }

  /** get: a handler on the staging file; the file itself is not created here.
      A null message id makes Paths.get fail. */
  method Get(store: string, cwd: string, messageId: Option<string>, attachmentId: string, attachmentName: string,
             mimeType: Option<string>, signature: Option<Bytes>, current: int, total: int)
    returns (r: Result<DataHandler>)
    ensures messageId.None? <==> r.Err?
    ensures r.Err? ==> r.error == NullPointer
    ensures r.Ok? ==> fresh(r.value) && r.value.source == OnDisk(StagingPath(cwd, store, messageId.value, attachmentName))
  {
    if messageId.None? {
      return Err(NullPointer);
    }
    var dh := new DataHandler(OnDisk(StagingPath(cwd, store, messageId.value, attachmentName)));
    r := Ok(dh);
  }

  /** The headers process adds: the content reference is the file's path and the
      length its size (0 for a file that is not there). */
  function ProcessedHeaders(h: map<string, string>, path: string, size: nat): map<string, string> {
    AttachmentPut(AttachmentPut(h, ATTACHMENT_CONTENT_REF, Some(Text(path))), ATTACHMENT_LENGTH, Some(Number(size)))
  }

  /** process: records path and size; the attachment is always kept. A handler
      that is not file-backed fails the cast. */
  method Process(fs: FileSystem, a: Attachment, dh: DataHandler) returns (r: Result<bool>)
    modifies a
    ensures dh.source.OnDisk? ==> r == Ok(true)
    ensures dh.source.OnDisk? ==> a.headers == ProcessedHeaders(old(a.headers), dh.source.path, fs.Length(dh.source.path))
    ensures !dh.source.OnDisk? ==> r == Err(ClassCast) && a.headers == old(a.headers)
  {
    if !dh.source.OnDisk? {
      return Err(ClassCast);
    }
    var path := dh.source.path;
    AttachmentSet(a, ATTACHMENT_CONTENT_REF, Some(Text(path)));
    AttachmentSet(a, ATTACHMENT_LENGTH, Some(Number(fs.Length(path))));
    r := Ok(true);
  }

  /** done: FileUtils.deleteQuietly removes that one file, if it is there, and never raises. */
  method Done(fs: FileSystem, dh: DataHandler) returns (r: Outcome)
    modifies fs
    ensures dh.source.OnDisk? ==> r == Pass && fs.files == old(fs.files) - {dh.source.path}
    ensures !dh.source.OnDisk? ==> r == Fail(ClassCast) && fs.files == old(fs.files)
  {
    if !dh.source.OnDisk? {
      return Fail(ClassCast);
    }
    fs.Delete(dh.source.path);
    r := Pass;
  }

  /** What process records describes the staged file: the reference is where
      the file is, and the length reads back as its size. */
  lemma {:induction false} ProcessedHeadersDescribeFile(h: map<string, string>, path: string, size: nat,
                                                         d: Option<Typed>, f: Foreign)
    requires size <= INT_MAX
    ensures AttachmentGet(ProcessedHeaders(h, path, size), ATTACHMENT_CONTENT_REF, d, StringType, f) == Ok(Some(Str(path)))
    ensures AttachmentGet(ProcessedHeaders(h, path, size), ATTACHMENT_LENGTH, d, LongType, f) == Ok(Some(Int(size)))
  {
    var h1 := AttachmentPut(h, ATTACHMENT_CONTENT_REF, Some(Text(path)));
    AttachmentNumberRoundTrip(h1, ATTACHMENT_LENGTH, size, d, f);
    assert ATTACHMENT_CONTENT_REF != ATTACHMENT_LENGTH by {
      assert |ATTACHMENT_CONTENT_REF| != |ATTACHMENT_LENGTH|;
    }
  }
}
