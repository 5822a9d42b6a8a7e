/** ByteArrayDataSource: the in-memory buffer behind an attachment. It owns one
    output stream for its whole life; everything written through it is
    appended, and every input stream is a snapshot of what was written so far. */
module ByteArrayDataSource {
  import opened Base

  const DEFAULT_CONTENT_TYPE: string := "application/octet-stream"

  /** java.io.ByteArrayOutputStream: an append-only byte buffer. */
  class ByteArrayOutputStream {
    var bytes: Bytes

    constructor ()
      ensures bytes == []
    {
      bytes := [];
    }

    method Write(data: Bytes)
      modifies this
      ensures bytes == old(bytes) + data
    {
      bytes := bytes + data;
    }
  }

  class ByteArrayDataSource {
    const name: string
    const contentType: Option<string>
    const outputStream: ByteArrayOutputStream

    constructor (name: string, contentType: Option<string>)
      ensures this.name == name && this.contentType == contentType
      ensures fresh(outputStream) && outputStream.bytes == []
    {
      this.name := name;
      this.contentType := contentType;
      outputStream := new ByteArrayOutputStream();
    }

    /** The declared content type, or the generic binary type when none was given. */
    function GetContentType(): (r: string)
      ensures contentType.Some? ==> r == contentType.value
      ensures contentType.None? ==> r == DEFAULT_CONTENT_TYPE
    {
      if contentType.None? then DEFAULT_CONTENT_TYPE else contentType.value
    }

    /** A new stream over a copy of the bytes written so far. */
    method GetInputStream() returns (snapshot: Bytes)
      ensures snapshot == outputStream.bytes
    {
      snapshot := outputStream.bytes;
    }

    function GetName(): string {
      name
    }

    /** Always the same stream object. */
    method GetOutputStream() returns (s: ByteArrayOutputStream)
      ensures s == outputStream
    {
      s := outputStream;
    }
  }

  /** A fresh source is empty and named as constructed; two writes through
      separately obtained output streams append in order; a snapshot taken
      between them keeps only the first write. */
  method WriteReadScenario(name: string, first: Bytes, second: Bytes)
    returns (sourceName: string, early: Bytes, late: Bytes)
    ensures sourceName == name
    ensures early == first
    ensures late == first + second
  {
    var source := new ByteArrayDataSource(name, None);
    sourceName := source.GetName();
    var out1 := source.GetOutputStream();
    out1.Write(first);
    early := source.GetInputStream();
    var out2 := source.GetOutputStream();
    out2.Write(second);
    late := source.GetInputStream();
  }
}
