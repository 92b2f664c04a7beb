/**
 * The byte streams the codecs read from and write to, and `std::io::Error`.
 * A stream is a finite byte sequence with a read cursor; running out of bytes
 * is end of file.
 */
module Io {
  import opened Wrappers
  import opened Bytes
  import opened Json

  datatype ErrorKind = InvalidData | UnexpectedEof | Other

  /** The payload of an `io::Error`: a message, or a wrapped serde error. */
  datatype Payload = Message(text: seq<byte>) | Wrapped(cause: JsonError)

  datatype IoError = IoError(kind: ErrorKind, payload: Payload)

  function InvalidDataError(msg: string): IoError
  {
    IoError(InvalidData, Message(Ascii(msg)))
  }

  /** What `read_exact` fails with when the stream ends first. */
  const UNEXPECTED_EOF: IoError := IoError(UnexpectedEof, Message(Ascii("failed to fill whole buffer")))

  /** The reading half of a stream (`BufRead`). */
  class ByteReader {
    const data: seq<byte>
    var pos: nat

    ghost predicate Valid()
      reads this
    {
      pos <= |data|
    }

    /** The bytes not read yet. */
    function Rest(): seq<byte>
      reads this
      requires Valid()
    {
      data[pos..]
    }

    constructor (input: seq<byte>)
      ensures Valid() && data == input && pos == 0
    {
      data := input;
      pos := 0;
    }

    /** `read_until(d, buf)`: reads through the first `d`, or to end of file. */
    method ReadUntil(d: byte) returns (buf: seq<byte>)
      requires Valid()
      modifies this
      ensures Valid()
      ensures buf == UntilDelim(old(Rest()), d)
      ensures pos == old(pos) + |buf|
    {
      buf := UntilDelim(data[pos..], d);
      pos := pos + |buf|;
    }

    /**
     * `read_exact` into a buffer of `n` bytes. At end of file it fails and,
     * as the in-memory reader does, leaves nothing unread.
     */
    method ReadExact(n: nat) returns (r: Option<seq<byte>>)
      requires Valid()
      modifies this
      ensures Valid()
      ensures n <= |old(Rest())| ==> r == Some(old(Rest())[..n]) && pos == old(pos) + n
      ensures n > |old(Rest())| ==> r == None && pos == |data|
    {
      if n <= |data| - pos {
        r := Some(data[pos..pos + n]);
        assert data[pos..pos + n] == data[pos..][..n];
        pos := pos + n;
      } else {
        r := None;
        pos := |data|;
      }
    }
  }

  /** The writing half of a stream (`Write`): everything written so far. */
  class ByteWriter {
    var written: seq<byte>

    constructor ()
      ensures written == []
    {
      written := [];
    }

    /** `write_all`. */
    method WriteAll(b: seq<byte>)
      modifies this
      ensures written == old(written) + b
    {
      written := written + b;
    }
  }
}
