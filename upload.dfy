/** The image upload path of `entryUpdate`: the file is read through a
    buffered stream in pieces of at most 8192 bytes and collected in a
    growing byte buffer before it is encoded. */
module Upload {
  import opened Wire

  /** Size of the intermediate read buffer (and of the initial sink). */
  const BufferSize: nat := 8192

  /** What one successful `read(temp)` into an 8192-byte buffer delivers. */
  type Chunk = c: seq<Byte> | 0 < |c| <= BufferSize witness [0]

  /** The file handed to `entryUpdate`, as the stream will deliver it.
      `Missing`: it cannot be opened. `Readable`: each read returns the next
      chunk; after the last one the stream reports its end, or throws when
      `readFails` holds. */
  datatype ImageFile = Missing | Readable(chunks: seq<Chunk>, readFails: bool)

  /** The bytes of a sequence of chunks, in order. */
  function Flatten(chunks: seq<seq<Byte>>): seq<Byte>
  {
    if chunks == [] then [] else chunks[0] + Flatten(chunks[1..])
  }

  /** The whole content of a readable file. */
  function FileBytes(f: ImageFile): seq<Byte>
    requires f.Readable?
  {
    Flatten(f.chunks)
  }

  /** Appending one chunk appends its bytes: the step the read loop takes. */
  lemma {:induction false} FlattenAppend(chunks: seq<seq<Byte>>, c: seq<Byte>)
    ensures Flatten(chunks + [c]) == Flatten(chunks) + c
  {
    if chunks == [] {
      assert [] + [c] == [c];
    } else {
      assert (chunks + [c])[1..] == chunks[1..] + [c];
      FlattenAppend(chunks[1..], c);
    }
  }

  /** Each read delivers between 1 and 8192 bytes, so a file of n bytes takes
      between n / 8192 and n reads that return data. */
  lemma {:induction false} FlattenBounds(chunks: seq<Chunk>)
    ensures |chunks| <= |Flatten(chunks)| <= BufferSize * |chunks|
  {
    if chunks != [] {
      FlattenBounds(chunks[1..]);
    }
  }

  /** Concatenating the pieces read so far never reorders or drops bytes:
      byte k of chunk j sits at offset |Flatten(chunks[..j])| + k. */
  lemma {:induction false} FlattenPlacesChunk(chunks: seq<seq<Byte>>, j: nat, k: nat)
    requires j < |chunks| && k < |chunks[j]|
    ensures |Flatten(chunks[..j])| + k < |Flatten(chunks)|
    ensures Flatten(chunks)[|Flatten(chunks[..j])| + k] == chunks[j][k]
  {
    if j == 0 {
      assert chunks[..0] == [];
    } else {
      assert chunks[1..][..j - 1] == chunks[1..j];
      assert chunks[..j] == [chunks[0]] + chunks[1..j];
      assert Flatten(chunks[..j]) == chunks[0] + Flatten(chunks[1..j]);
      FlattenPlacesChunk(chunks[1..], j - 1, k);
    }
  }

  /** The `BufferedInputStream` over the opened file. */
  class ChunkStream {
    const chunks: seq<Chunk>
    const readFails: bool
    var next: nat

    ghost predicate Valid()
      reads this
    {
      next <= |chunks|
    }

    constructor (chunks: seq<Chunk>, readFails: bool)
      ensures Valid() && this.chunks == chunks && this.readFails == readFails && next == 0
    {
      this.chunks := chunks;
      this.readFails := readFails;
      next := 0;
    }

    /** `read(temp)`: copies the next chunk to the front of `temp` and returns
        its length; returns -1 at the end of the stream; throws (as
        `ReadFailed`) at the end when the file cannot be read completely. */
    method Read(temp: array<Byte>) returns (r: ReadOutcome)
      requires Valid() && temp.Length == BufferSize
      modifies this, temp
      ensures Valid()
      ensures old(next) < |chunks| ==>
        next == old(next) + 1 && r == BytesRead(|chunks[old(next)]|) &&
        temp[..|chunks[old(next)]|] == chunks[old(next)]
      ensures old(next) == |chunks| ==>
        next == old(next) && r == (if readFails then ReadFailed else BytesRead(-1))
    {
      if next < |chunks| {
        var c := chunks[next];
        forall i | 0 <= i < |c| {
          temp[i] := c[i];
        }
        next := next + 1;
        r := BytesRead(|c|);
      } else if readFails {
        r := ReadFailed;
      } else {
        r := BytesRead(-1);
      }
    }
  }

  /** Opens the file, reads it through an 8192-byte buffer until the end of
      the stream, appending exactly the bytes each read delivered, and returns
      the collected buffer: the whole file, in order. Failing to open or to
      read the file is an `IOError`. */
  method ReadImage(imageData: ImageFile) returns (bytes: Result<seq<Byte>>)
    ensures imageData.Missing? || imageData.readFails ==> bytes == Failure(IOError)
    ensures imageData.Readable? && !imageData.readFails ==> bytes == Success(FileBytes(imageData))
  {
    if imageData.Missing? {
      return Failure(IOError);
    }
    var input := new ChunkStream(imageData.chunks, imageData.readFails);
    var output := new ByteSink();
    var temp := new Byte[BufferSize];
    var r := input.Read(temp);
    while r.BytesRead? && r.count != -1
      invariant input.Valid() && temp.Length == BufferSize
      invariant input.chunks == imageData.chunks && input.readFails == imageData.readFails
      invariant r.BytesRead? && r.count != -1 ==>
        0 < input.next && r.count == |input.chunks[input.next - 1]| &&
        temp[..r.count] == input.chunks[input.next - 1] &&
        output.written == Flatten(input.chunks[..input.next - 1])
      invariant r.ReadFailed? ==> input.next == |input.chunks| && input.readFails
      invariant r == BytesRead(-1) ==>
        input.next == |input.chunks| && !input.readFails && output.written == Flatten(input.chunks)
      decreases |input.chunks| - input.next, if r.BytesRead? && r.count != -1 then 1 else 0
    {
      ghost var done := input.chunks[..input.next - 1];
      ghost var last := input.chunks[input.next - 1];
      output.Write(temp, 0, r.count);
      FlattenAppend(done, last);
      assert input.chunks[..input.next] == done + [last];
      r := input.Read(temp);
      assert input.next == |input.chunks| ==> input.chunks[..input.next] == input.chunks;
    }
    if r.ReadFailed? {
      return Failure(IOError);
    }
    var buffer := output.ToByteArray();
    bytes := Success(buffer);
  }

  /** What a `read` call ends in: a byte count (-1 at end of stream) or an
      `IOException`. */
  datatype ReadOutcome = BytesRead(count: int) | ReadFailed

  /** The `ByteArrayOutputStream` the file is collected in. */
  class ByteSink {
    var written: seq<Byte>

    constructor ()
      ensures written == []
    {
      written := [];
    }

    /** `write(b, off, len)`: appends `len` bytes of `b` starting at `off`. */
    method Write(b: array<Byte>, off: nat, len: nat)
      requires off + len <= b.Length
      modifies this
      ensures written == old(written) + b[off..off + len]
    {
      written := written + b[off..off + len];
    }

    /** `toByteArray()`: a copy of everything written so far. */
    method ToByteArray() returns (bytes: seq<Byte>)
      ensures bytes == written
    {
      bytes := written;
    }
  }
}
