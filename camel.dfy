/** The parts of Apache Camel the component touches: the exchange with its
    header map, body and (optional) attachment message; attachments with their
    own text headers and a data handler; the conversions Camel applies when a
    header is read as a given type; and the local file system the file-backed
    data sources live in. */
module Camel {
  import opened Base
  import opened Sdk
  import BA = ByteArrayDataSource

  // ---------------------------------------------------------------------------
  // Header values and their conversions

  /** A header value as the component stores it. `Object(repr)` is any other
      object, carried as its toString text. */
  datatype Value = Text(s: string) | Flag(b: bool) | Number(n: int) | Xml(e: Element) | Object(repr: string)

  type Headers = map<string, Value>

  /** Object.toString of a header value. */
  function ValueText(v: Value): string {
    match v
    case Text(s) => s
    case Flag(b) => if b then "true" else "false"
    case Number(n) => Decimal(n)
    case Xml(e) => e.repr
    case Object(r) => r
  }

  /** getHeader(name, String.class). */
  function AsText(h: Headers, name: string): (r: Option<string>)
    ensures r.Some? <==> name in h
    ensures name in h && h[name].Text? ==> r == Some(h[name].s)
  {
    if name in h then Some(ValueText(h[name])) else None
  }

  /** getHeader(name, Boolean.class): a Boolean as is, the text "true" or "false"
      in any case; anything else converts to null. */
  function AsBool(h: Headers, name: string): (r: Option<bool>)
    ensures name !in h ==> r.None?
    ensures name in h && h[name].Flag? ==> r == Some(h[name].b)
    ensures r.Some? && !h[name].Flag? ==> h[name].Text? && EqualsIgnoreCase(h[name].s, if r.value then "true" else "false")
  {
    if name !in h then None
    else match h[name]
      case Flag(b) => Some(b)
      case Text(s) =>
        if EqualsIgnoreCase(s, "true") then Some(true)
        else if EqualsIgnoreCase(s, "false") then Some(false)
        else None
      case _ => None
  }

  /** getHeader(name, Integer.class): a number narrowed as Number.intValue()
      does, text parsed as Integer.valueOf does, where malformed text makes
      Camel's type conversion raise; any other value converts to null. */
  function AsInt(h: Headers, name: string): (r: Result<Option<int>>)
    ensures name !in h ==> r == Ok(None)
    ensures r.Ok? && r.value.Some? ==> INT_MIN <= r.value.value <= INT_MAX
    ensures name in h && h[name].Number? ==> r.Ok? && r.value.Some? && (r.value.value - h[name].n) % 0x1_0000_0000 == 0
    ensures name in h && h[name].Text? ==>
              (r.Ok? <==> ParseDecimal(h[name].s, INT_MIN, INT_MAX).Some?) &&
              (r.Ok? ==> r.value == ParseDecimal(h[name].s, INT_MIN, INT_MAX))
    ensures r.Err? ==> r.error == Conversion(name)
  {
    if name !in h then Ok(None)
    else match h[name]
      case Number(n) => Ok(Some(IntValue(n)))
      case Text(s) =>
        (match ParseDecimal(s, INT_MIN, INT_MAX)
         case Some(v) => Ok(Some(v))
         case None => Err(Conversion(name)))
      case _ => Ok(None)
  }

  /** getHeader(name, defaultValue, String.class): the default stands in for an
      absent header. */
  function TextOr(h: Headers, name: string, default: string): (r: string)
    ensures name !in h ==> r == default
    ensures name in h ==> Some(r) == AsText(h, name)
  {
    if name in h then ValueText(h[name]) else default
  }

  /** getHeader(name, defaultValue, Boolean.class): the default stands in for
      an absent header; a present one is converted as AsBool does. */
  function BoolOr(h: Headers, name: string, default: bool): (r: Option<bool>)
    ensures name !in h ==> r == Some(default)
    ensures name in h ==> r == AsBool(h, name)
  {
    if name in h then AsBool(h, name) else Some(default)
  }

  /** Formatting a number as a header and reading it back as an Integer gives the number. */
  lemma {:induction false} IntHeaderRoundTrip(h: Headers, name: string, n: int)
    requires INT_MIN <= n <= INT_MAX
    ensures AsInt(h[name := Text(Decimal(n))], name) == Ok(Some(n))
  {
    DecimalRoundTrip(n, INT_MIN, INT_MAX);
  }

  // ---------------------------------------------------------------------------
  // Exchange bodies

  /** The body of an exchange: absent (null), text, a DOM element, a DOM
      document (with its root element), a whole SMEV message, or another object. */
  datatype Body =
    | NoBody
    | TextBody(text: string)
    | ElementBody(element: Element)
    | DocumentBody(root: Element)
    | MessageBody(message: SmevMessage)
    | OtherBody(repr: string)

  // ---------------------------------------------------------------------------
  // Data handlers and attachments

  /** Where a data handler's bytes live: an in-memory buffer, or a file. */
  datatype DataSource = Memory(buffer: BA.ByteArrayDataSource) | OnDisk(path: string)

  class DataHandler {
    const source: DataSource

    constructor (source: DataSource)
      ensures this.source == source
    {
      this.source := source;
    }
  }

  /** DefaultAttachment: a data handler plus text headers. */
  class Attachment {
    const dataHandler: DataHandler
    var headers: map<string, string>

    constructor (dataHandler: DataHandler)
      ensures this.dataHandler == dataHandler && headers == map[]
    {
      this.dataHandler := dataHandler;
      headers := map[];
    }

    /** setHeader(name, value); a null value reads back as absent. */
    method SetHeader(name: string, value: Option<string>)
      modifies this
      ensures headers == SetOrClear(old(headers), name, value)
    {
      headers := SetOrClear(headers, name, value);
    }
  }

  function SetOrClear(h: map<string, string>, name: string, value: Option<string>): (r: map<string, string>)
    ensures value.Some? ==> name in r && r[name] == value.value
    ensures value.None? ==> name !in r
    ensures forall k :: k != name ==> (k in r <==> k in h) && (k in r ==> r[k] == h[k])
  {
    if value.Some? then h[name := value.value] else h - {name}
  }

  // ---------------------------------------------------------------------------
  // The attachment map: an insertion-ordered map from key to attachment

  datatype Entry = Entry(key: string, attachment: Attachment)

  function EntryKeys(es: seq<Entry>): (ks: seq<string>)
    ensures |ks| == |es|
    ensures forall i :: 0 <= i < |es| ==> ks[i] == es[i].key
  {
    if es == [] then [] else [es[0].key] + EntryKeys(es[1..])
  }

  /** The objects an entry list's contents depend on: the attachments and the
      buffers of the in-memory ones. */
  function EntryFrame(es: seq<Entry>): set<object> {
    (set e | e in es :: e.attachment) +
    (set e | e in es && e.attachment.dataHandler.source.Memory? :: e.attachment.dataHandler.source.buffer.outputStream)
  }

  predicate UniqueKeys(es: seq<Entry>) {
    forall i, j :: 0 <= i < j < |es| ==> es[i].key != es[j].key
  }

  /** The attachment stored under a key. */
  function Lookup(es: seq<Entry>, key: string): (r: Option<Attachment>)
    ensures r.None? <==> key !in EntryKeys(es)
  {
    if es == [] then None
    else if es[0].key == key then Some(es[0].attachment)
    else Lookup(es[1..], key)
  }

  /** The key sequence after putting a key: unchanged if present, else appended. */
  function PutKey(ks: seq<string>, key: string): (r: seq<string>)
  {
    if key in ks then ks else ks + [key]
  }

  /** LinkedHashMap.put: an existing key keeps its position and gets the new
      value; a new key goes last. */
  function PutEntry(es: seq<Entry>, key: string, a: Attachment): (r: seq<Entry>)
    ensures |r| == if key in EntryKeys(es) then |es| else |es| + 1
  {
    if es == [] then [Entry(key, a)]
    else if es[0].key == key then [Entry(key, a)] + es[1..]
    else [es[0]] + PutEntry(es[1..], key, a)
  }

  /** The keys after a put: in place if present, appended if not. */
  lemma {:induction false} PutEntryKeys(es: seq<Entry>, key: string, a: Attachment)
    ensures EntryKeys(PutEntry(es, key, a)) == PutKey(EntryKeys(es), key)
  {
    if es != [] && es[0].key != key {
      PutEntryKeys(es[1..], key, a);
      var r := PutEntry(es, key, a);
      assert r[1..] == PutEntry(es[1..], key, a);
      assert EntryKeys(es) == [es[0].key] + EntryKeys(es[1..]);
      assert EntryKeys(r) == [es[0].key] + EntryKeys(r[1..]);
    } else if es != [] {
      var r := PutEntry(es, key, a);
      assert EntryKeys(r) == [key] + EntryKeys(es[1..]);
      assert EntryKeys(es) == [key] + EntryKeys(es[1..]);
    }
  }

  /** After a put the key maps to the new attachment and every other key is unchanged. */
  lemma {:induction false} PutEntryLookup(es: seq<Entry>, key: string, a: Attachment, other: string)
    ensures Lookup(PutEntry(es, key, a), key) == Some(a)
    ensures other != key ==> Lookup(PutEntry(es, key, a), other) == Lookup(es, other)
  {
    if es != [] && es[0].key != key {
      PutEntryLookup(es[1..], key, a, other);
      assert PutEntry(es, key, a)[1..] == PutEntry(es[1..], key, a);
    } else if es != [] {
      assert PutEntry(es, key, a)[1..] == es[1..];
    }
  }

  /** A put adds the new entry and otherwise keeps entries of the old map. */
  lemma {:induction false} PutEntryContents(es: seq<Entry>, key: string, a: Attachment)
    ensures Entry(key, a) in PutEntry(es, key, a)
    ensures forall e :: e in PutEntry(es, key, a) ==> e in es || e == Entry(key, a)
  {
    if es != [] && es[0].key != key {
      PutEntryContents(es[1..], key, a);
      assert PutEntry(es, key, a) == [es[0]] + PutEntry(es[1..], key, a);
    }
  }

  /** A put preserves key uniqueness. */
  lemma {:induction false} PutEntryUnique(es: seq<Entry>, key: string, a: Attachment)
    requires UniqueKeys(es)
    ensures UniqueKeys(PutEntry(es, key, a))
  {
    PutEntryKeys(es, key, a);
    var r := PutEntry(es, key, a);
    var ks := EntryKeys(es);
    forall i, j | 0 <= i < j < |r|
      ensures r[i].key != r[j].key
    {
      assert EntryKeys(r)[i] == r[i].key && EntryKeys(r)[j] == r[j].key;
      if key !in ks {
        assert EntryKeys(r) == ks + [key];
        if j == |ks| {
          assert ks[i] == r[i].key;
        } else {
          assert ks[i] == es[i].key && ks[j] == es[j].key;
        }
      } else {
        assert EntryKeys(r) == ks;
        assert ks[i] == es[i].key && ks[j] == es[j].key;
      }
    }
  }

  class Exchange {
    var headers: Headers
    var body: Body
    /** Whether the in-message is an AttachmentMessage (getIn(AttachmentMessage.class) is non-null). */
    const hasAttachmentMessage: bool
    var attachmentObjects: seq<Entry>

    constructor (hasAttachmentMessage: bool)
      ensures this.hasAttachmentMessage == hasAttachmentMessage
      ensures headers == map[] && body == NoBody && attachmentObjects == []
    {
      this.hasAttachmentMessage := hasAttachmentMessage;
      headers := map[];
      body := NoBody;
      attachmentObjects := [];
    }

    method SetHeader(name: string, value: Value)
      modifies this
      ensures headers == old(headers)[name := value]
      ensures body == old(body) && attachmentObjects == old(attachmentObjects)
    {
      headers := headers[name := value];
    }

    method SetBody(b: Body)
      modifies this
      ensures body == b
      ensures headers == old(headers) && attachmentObjects == old(attachmentObjects)
    {
      body := b;
    }

    method AddAttachmentObject(key: string, a: Attachment)
      modifies this
      ensures attachmentObjects == PutEntry(old(attachmentObjects), key, a)
      ensures headers == old(headers) && body == old(body)
    {
      attachmentObjects := PutEntry(attachmentObjects, key, a);
    }
  }

  // ---------------------------------------------------------------------------
  // The local file system

  /** Files by path, spelt as java.io.File normalises it. `unwritable` are
      the paths a FileOutputStream cannot be opened on; `userDir` is the
      working directory (the user.dir property) relative paths resolve against. */
  class FileSystem {
    var files: map<string, Bytes>
    const unwritable: set<string>
    const userDir: string

    constructor (files: map<string, Bytes>, unwritable: set<string>, userDir: string)
      ensures this.files == files && this.unwritable == unwritable && this.userDir == userDir
    {
      this.files := files;
      this.unwritable := unwritable;
      this.userDir := userDir;
    }

    /** File.length(): 0 for a file that does not exist. */
    function Length(path: string): nat
      reads this
    {
      if path in files then |files[path]| else 0
    }

    /** new FileOutputStream(path): creates or truncates the file. */
    method Open(path: string) returns (ok: bool)
      modifies this
      ensures ok <==> path !in unwritable
      ensures files == if ok then old(files)[path := []] else old(files)
    {
      ok := path !in unwritable;
      if ok {
        files := files[path := []];
      }
    }

    /** A write through an open FileOutputStream. */
    method Append(path: string, data: Bytes)
      requires path in files
      modifies this
      ensures files == old(files)[path := old(files)[path] + data]
    {
      files := files[path := files[path] + data];
    }

    /** new FileInputStream(path), read to the end. */
    method Read(path: string) returns (r: Result<Bytes>)
      ensures path in files ==> r == Ok(files[path])
      ensures path !in files ==> r == Err(Io("file not found"))
    {
      if path in files {
        r := Ok(files[path]);
      } else {
        r := Err(Io("file not found"));
      }
    }

    /** Deleting a file; deleting one that does not exist does nothing. */
    method Delete(path: string)
      modifies this
      ensures files == old(files) - {path}
    {
      files := files - {path};
    }
  }

  /** The bytes a data handler's input stream yields. */
  function Content(dh: DataHandler, fs: FileSystem): (r: Result<Bytes>)
    reads (if dh.source.Memory? then {dh.source.buffer.outputStream} else {}), fs
    ensures dh.source.Memory? ==> r == Ok(dh.source.buffer.outputStream.bytes)
    ensures dh.source.OnDisk? ==> (r.Ok? <==> dh.source.path in fs.files)
  {
    match dh.source
    case Memory(buffer) => Ok(buffer.outputStream.bytes)
    case OnDisk(path) => if path in fs.files then Ok(fs.files[path]) else Err(Io("file not found"))
  }

  /** getInputStream() read to the end. */
  method ReadContent(dh: DataHandler, fs: FileSystem) returns (r: Result<Bytes>)
    ensures r == Content(dh, fs)
  {
    match dh.source
    case Memory(buffer) =>
      var snapshot := buffer.GetInputStream();
      r := Ok(snapshot);
    case OnDisk(path) =>
      r := fs.Read(path);
  }

  /** getOutputStream(): a ByteArrayDataSource hands out its buffer; a file
      source opens a FileOutputStream, which creates or truncates the file. */
  method OpenOutput(dh: DataHandler, fs: FileSystem) returns (r: Outcome)
    modifies fs
    ensures dh.source.Memory? ==> r == Pass && fs.files == old(fs.files)
    ensures dh.source.OnDisk? ==> (r == Pass <==> dh.source.path !in fs.unwritable)
    ensures dh.source.OnDisk? && r == Pass ==> fs.files == old(fs.files)[dh.source.path := []]
    ensures dh.source.OnDisk? && r != Pass ==> fs.files == old(fs.files) && r == Fail(Io("cannot open " + dh.source.path))
  {
    match dh.source
    case Memory(buffer) =>
      r := Pass;
    case OnDisk(path) =>
      var ok := fs.Open(path);
      r := if ok then Pass else Fail(Io("cannot open " + path));
  }

  /** A write through the stream OpenOutput opened. */
  method WriteOutput(dh: DataHandler, fs: FileSystem, data: Bytes)
    requires dh.source.OnDisk? ==> dh.source.path in fs.files
    modifies fs, if dh.source.Memory? then {dh.source.buffer.outputStream} else {}
    ensures dh.source.Memory? ==>
              dh.source.buffer.outputStream.bytes == old(dh.source.buffer.outputStream.bytes) + data &&
              fs.files == old(fs.files)
    ensures dh.source.OnDisk? ==> fs.files == old(fs.files)[dh.source.path := old(fs.files)[dh.source.path] + data]
  {
    match dh.source
    case Memory(buffer) =>
      var out := buffer.GetOutputStream();
      out.Write(data);
    case OnDisk(path) =>
      fs.Append(path, data);
  }

  // ---------------------------------------------------------------------------
  // Unix path text, as java.nio.file.Paths and java.io.File spell it

  /** No two '/' in a row. */
  predicate NoDoubleSlash(s: string) {
    forall i :: 0 <= i < |s| - 1 ==> !(s[i] == '/' && s[i + 1] == '/')
  }

  /** The form UnixPath and java.io.File normalise a path to: no repeated
      separator, and no trailing one except for the root "/" itself. */
  predicate IsNormal(s: string) {
    NoDoubleSlash(s) && (|s| > 1 ==> s[|s| - 1] != '/')
  }

  /** Every run of '/' replaced by one '/'. */
  function Collapse(p: string): (r: string)
    ensures |r| <= |p|
    ensures p != [] ==> r != [] && r[0] == p[0] && r[|r| - 1] == p[|p| - 1]
    ensures NoDoubleSlash(r)
  {
    if |p| <= 1 then p
    else if p[|p| - 1] == '/' && p[|p| - 2] == '/' then Collapse(p[..|p| - 1])
    else
      var init := Collapse(p[..|p| - 1]);
      var r := init + [p[|p| - 1]];
      assert forall i :: 0 <= i < |init| ==> r[i] == init[i];
      r
  }

  /** The normal form of a path: separators collapsed, and a trailing one dropped. */
  function Normalize(p: string): (r: string)
    ensures IsNormal(r)
    ensures p != [] ==> r != [] && r[0] == p[0]
  {
    var c := Collapse(p);
    if |c| > 1 && c[|c| - 1] == '/' then
      var r := c[..|c| - 1];
      assert forall i :: 0 <= i < |r| ==> r[i] == c[i];
      r
    else c
  }

  /** Characters other than '/' appended after a path are kept as they are. */
  lemma {:induction false} CollapseAppendPlain(y: string, c: string)
    requires '/' !in c
    ensures Collapse(y + c) == Collapse(y) + c
    decreases |c|
  {
    if c != [] {
      var init, last := c[..|c| - 1], c[|c| - 1];
      assert c == init + [last];
      assert y + c == (y + init) + [last];
      CollapseAppendPlain(y, init);
      assert (y + c)[..|y + c| - 1] == y + init;
    } else {
      assert y + c == y;
    }
  }

  /** Collapsing changes nothing where no separator repeats. */
  lemma {:induction false} CollapseOfNoDoubleSlash(s: string)
    requires NoDoubleSlash(s)
    ensures Collapse(s) == s
    decreases |s|
  {
    if |s| > 1 {
      var init := s[..|s| - 1];
      assert NoDoubleSlash(init) by {
        assert forall i :: 0 <= i < |init| ==> init[i] == s[i];
      }
      CollapseOfNoDoubleSlash(init);
      assert s == init + [s[|s| - 1]];
    }
  }

  /** Normalising a path already in normal form leaves it as it is. */
  lemma NormalizeOfNormal(s: string)
    requires IsNormal(s)
    ensures Normalize(s) == s
  {
    CollapseOfNoDoubleSlash(s);
  }

  /** A path without any separator is its own normal form. */
  lemma NormalizePlain(c: string)
    requires '/' !in c
    ensures Normalize(c) == c
  {
    forall i | 0 <= i < |c|
      ensures c[i] != '/'
    {
      assert c[i] in c;
    }
    NormalizeOfNormal(c);
  }

  /** A repeated separator anywhere is the same as a single one. */
  lemma {:induction false} CollapseDoubleSlash(a: string, b: string)
    ensures Collapse(a + "//" + b) == Collapse(a + "/" + b)
    decreases |b|
  {
    var x, y := a + "//" + b, a + "/" + b;
    if b == [] {
      assert x[..|x| - 1] == y && y == a + "/";
      assert x[|x| - 1] == '/' && x[|x| - 2] == '/';
    } else {
      var init := b[..|b| - 1];
      assert x[..|x| - 1] == a + "//" + init;
      assert y[..|y| - 1] == a + "/" + init;
      assert x[|x| - 1] == y[|y| - 1];
      assert x[|x| - 2] == y[|y| - 2];
      CollapseDoubleSlash(a, init);
    }
  }

  /** Extending a normal path other than "" and "/" by a separator and a
      normal relative path stays normal. */
  lemma NormalExtend(p: string, s: string)
    requires IsNormal(p) && p != [] && p != "/"
    requires IsNormal(s) && s != [] && s[0] != '/'
    ensures IsNormal(p + "/" + s)
  {
    var r := p + "/" + s;
    forall i | 0 <= i < |r| - 1
      ensures !(r[i] == '/' && r[i + 1] == '/')
    {
      if i + 1 < |p| {
        assert r[i] == p[i] && r[i + 1] == p[i + 1];
      } else if i + 1 == |p| {
        assert r[i] == p[|p| - 1];
      } else if i > |p| {
        assert r[i] == s[i - |p| - 1] && r[i + 1] == s[i - |p|];
      }
    }
  }

  /** java.io.File.getName() of a path in normal form: the text after its last '/'. */
  function LastComponent(path: string): (r: string)
    ensures |r| <= |path|
    ensures '/' !in r
    ensures '/' !in path ==> r == path
  {
    if path == [] then []
    else if path[|path| - 1] == '/' then []
    else LastComponent(path[..|path| - 1]) + [path[|path| - 1]]
  }

  /** The last component after a separator is what follows it. */
  lemma {:induction false} LastComponentAfterSlash(w: string, c: string)
    requires w != [] && w[|w| - 1] == '/' && '/' !in c
    ensures LastComponent(w + c) == c
    decreases |c|
  {
    if c != [] {
      var init, last := c[..|c| - 1], c[|c| - 1];
      assert c == init + [last];
      assert w + c == (w + init) + [last];
      LastComponentAfterSlash(w, init);
      assert (w + c)[..|w + c| - 1] == w + init;
    } else {
      assert w + c == w;
    }
  }

  /** java.io.File.getName(): new File(path) normalises the path, and the
      name is the text after the last '/' of that. */
  function FileName(path: string): (r: string)
    ensures '/' !in r
    ensures '/' !in path ==> r == path
  {
    if '/' !in path then NormalizePlain(path); LastComponent(Normalize(path))
    else LastComponent(Normalize(path))
  }

  /** The path is c itself, or ends in '/' followed by c. */
  predicate EndsWithComponent(s: string, c: string) {
    s == c || (|s| > |c| && s[|s| - |c| - 1] == '/' && s[|s| - |c|..] == c)
  }

  /** A path ending in '/' and one component is a prefix, the '/' and that component. */
  lemma SplitComponent(s: string, c: string) returns (y: string)
    requires EndsWithComponent(s, c) && s != c
    ensures s == y + "/" + c
  {
    y := s[..|s| - |c| - 1];
    assert s == y + [s[|s| - |c| - 1]] + s[|s| - |c|..];
  }

  /** Normalising keeps the last component of a path that ends in one. */
  lemma NormalizeKeepsComponent(s: string, c: string) returns (w: string)
    requires c != [] && '/' !in c && EndsWithComponent(s, c) && s != c
    ensures w != [] && w[|w| - 1] == '/' && Normalize(s) == w + c
  {
    var y := SplitComponent(s, c);
    assert s == (y + "/") + c;
    CollapseAppendPlain(y + "/", c);
    w := Collapse(y + "/");
  }

  /** The name of a path ending in one component is that component, and
      normalising keeps that last component. */
  lemma FileNameOfComponent(s: string, c: string)
    requires c != [] && '/' !in c && EndsWithComponent(s, c)
    ensures EndsWithComponent(Normalize(s), c)
    ensures FileName(s) == c
  {
    if s == c {
      NormalizePlain(c);
    } else {
      var w := NormalizeKeepsComponent(s, c);
      var n := w + c;
      assert n[|n| - |c| - 1] == w[|w| - 1];
      assert n[|n| - |c|..] == c;
      LastComponentAfterSlash(w, c);
    }
  }

  /** A path ending in a component still does after a prefix and a separator. */
  lemma EndsWithComponentUnder(pre: string, s: string, c: string)
    requires c != [] && EndsWithComponent(s, c)
    ensures EndsWithComponent(pre + "/" + s, c)
  {
    var r := pre + "/" + s;
    assert r[|r| - |c|..] == s[|s| - |c|..];
    if s == c {
      assert r[|r| - |c| - 1] == '/';
    } else {
      assert r[|r| - |c| - 1] == s[|s| - |c| - 1];
    }
  }

  /** The text Paths.get(first, more...) builds before normalising: every
      non-empty further segment is appended after a '/', none when the text
      so far is empty. */
  function Joined(first: string, more: seq<string>): (r: string)
    ensures more != [] && more[|more| - 1] != [] && '/' !in more[|more| - 1] ==> EndsWithComponent(r, more[|more| - 1])
  {
    if more == [] then first
    else
      var init, seg := Joined(first, more[..|more| - 1]), more[|more| - 1];
      if seg == [] then init
      else if init == [] then seg
      else
        var r := init + "/" + seg;
        assert r[|r| - |seg|..] == seg && r[|r| - |seg| - 1] == '/';
        r
  }

  /** Paths.get(first, more...) as text. */
  function PathsGet(first: string, more: seq<string>): (r: string)
    ensures IsNormal(r)
    ensures more != [] && more[|more| - 1] != [] && '/' !in more[|more| - 1] ==> FileName(r) == more[|more| - 1]
  {
    var r := Normalize(Joined(first, more));
    if more != [] && more[|more| - 1] != [] && '/' !in more[|more| - 1] then
      FileNameOfComponent(Joined(first, more), more[|more| - 1]);
      FileNameOfComponent(r, more[|more| - 1]);
      r
    else r
  }

  /** Paths.get(parent, child) as text. */
  function JoinPath(parent: string, child: string): (r: string)
    ensures IsNormal(r)
    ensures child != [] && '/' !in child ==> FileName(r) == child
  {
    PathsGet(parent, [child])
  }

  /** new File(Paths.get(p).toUri()).getPath(): a relative path is resolved
      against the working directory `cwd` (the user.dir property), and the
      result is normalised. */
  function AbsolutePath(cwd: string, p: string): (r: string)
    ensures IsNormal(r)
    ensures cwd != [] && cwd[0] == '/' ==> r != [] && r[0] == '/'
  {
    Normalize(if p != [] && p[0] == '/' then p else cwd + "/" + p)
  }

  /** The name of a joined path is the child, when the child is a single component. */
  lemma FileNameOfJoin(parent: string, child: string)
    requires child != [] && '/' !in child
    ensures FileName(JoinPath(parent, child)) == child
  {
  }

  /** A trailing separator on the parent makes no difference to the join. */
  lemma JoinPathTrailingSeparator(parent: string, child: string)
    requires parent != [] && child != []
    ensures JoinPath(parent + "/", child) == JoinPath(parent, child)
  {
    assert [child][..0] == [];
    assert Joined(parent + "/", [child]) == parent + "//" + child;
    assert Joined(parent, [child]) == parent + "/" + child;
    CollapseDoubleSlash(parent, child);
  }

  /** Joining onto a normal parent other than "" and "/" is plain concatenation. */
  lemma JoinPathOfNormal(parent: string, child: string)
    requires IsNormal(parent) && parent != [] && parent != "/"
    requires child != [] && '/' !in child
    ensures JoinPath(parent, child) == parent + "/" + child
  {
    assert [child][..0] == [];
    var r := parent + "/" + child;
    assert Joined(parent, [child]) == r;
    NormalizePlain(child);
    NormalExtend(parent, child);
    NormalizeOfNormal(r);
  }

  /** A trailing separator does not change a file's name: new File("dir/a.txt/") is named "a.txt". */
  lemma FileNameTrailingSeparator(path: string)
    requires path != []
    ensures FileName(path + "/") == FileName(path)
  {
    var c := Collapse(path);
    if path[|path| - 1] == '/' {
      assert (path + "/")[..|path + "/"| - 1] == path;
      assert Collapse(path + "/") == c;
    } else {
      assert (path + "/")[..|path + "/"| - 1] == path;
      assert Collapse(path + "/") == c + "/";
      assert (c + "/")[..|c + "/"| - 1] == c;
      assert Normalize(path + "/") == Normalize(path);
    }
  }
}
