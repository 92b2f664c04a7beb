/**
 * The `<decimal-length>:<payload>` framing of the Marionette stream
 * (`readframe` and `sendframe`). The length counts payload bytes; the
 * payload must be UTF-8.
 */
module Framing {
  import opened Wrappers
  import opened Bytes
  import opened Io

  datatype FrameError =
    | EmptyFrame         // nothing left to read
    | MissingDelimiter   // the stream ended before any ':'
    | LengthNotUtf8
    | BadLength          // not a decimal usize
    | Truncated          // fewer payload bytes than announced
    | PayloadNotUtf8

  /** The `io::Error` each failure becomes. */
  function FrameIoError(e: FrameError): (r: IoError)
    ensures r.kind == (if e.Truncated? then UnexpectedEof else InvalidData)
  {
    match e
    case EmptyFrame => InvalidDataError("Invalid frame")
    case MissingDelimiter => InvalidDataError("Invalid frame")
    case LengthNotUtf8 => InvalidDataError("Invalid utf8 in frame length")
    case BadLength => InvalidDataError("Invalid frame length")
    case Truncated => UNEXPECTED_EOF
    case PayloadNotUtf8 => InvalidDataError("Invalid utf8 in frame data")
  }

  /** The bytes `sendframe` writes for `data`. */
  function EncodeFrame(data: seq<byte>): seq<byte>
  {
    Ascii(DecimalString(|data|) + ":") + data
  }

  /**
   * `readframe` as written: it drops the last byte of what
   * `read_until(':')` returned, whether or not that byte is the ':'.
   */
  function ParseFrameAsWritten(s: seq<byte>): (p: Parsed<Text, FrameError>)
    ensures p.consumed <= |s|
    ensures s != [] ==> p.consumed >= 1
  {
    if s == [] then Parsed(Err(EmptyFrame), 0)
    else
      var head := UntilDelim(s, COLON);
      var lenText := head[..|head| - 1];
      if !ValidUtf8(lenText) then Parsed(Err(LengthNotUtf8), |head|)
      else match ParseUsize(lenText)
        case None => Parsed(Err(BadLength), |head|)
        case Some(n) =>
          if |s| - |head| < n then Parsed(Err(Truncated), |s|)
          else
            var payload := s[|head|..|head| + n];
            if ValidUtf8(payload) then Parsed(Ok(payload), |head| + n)
            else Parsed(Err(PayloadNotUtf8), |head| + n)
  }

  /** `readframe` as intended: a stream that ends before any ':' holds no frame. */
  function ParseFrame(s: seq<byte>): (p: Parsed<Text, FrameError>)
    ensures p.consumed <= |s|
    ensures s != [] ==> p.consumed >= 1
    ensures s == [] ==> p.result == Err(EmptyFrame)
  {
    if s != [] && COLON !in s then Parsed(Err(MissingDelimiter), |s|)
    else ParseFrameAsWritten(s)
  }

  /** Writes the length prefix and the payload. */
  method SendFrame(w: ByteWriter, data: Text)
    modifies w
    ensures w.written == old(w.written) + EncodeFrame(data)
  {
    w.WriteAll(Ascii(DecimalString(|data|) + ":"));
    w.WriteAll(data);
  }

  /** Reads one frame; on success the cursor sits just after its payload. */
  method ReadFrame(r: ByteReader) returns (res: Result<Text, FrameError>)
    requires r.Valid()
    modifies r
    ensures r.Valid()
    ensures res == ParseFrame(old(r.Rest())).result
    ensures r.pos == old(r.pos) + ParseFrame(old(r.Rest())).consumed
  {
    ghost var s := r.Rest();
    var lenbuf := r.ReadUntil(COLON);
    if |lenbuf| == 0 {
      return Err(EmptyFrame);
    }
    if lenbuf[|lenbuf| - 1] != COLON {
      return Err(MissingDelimiter);
    }
    var lenText := lenbuf[..|lenbuf| - 1];
    if !ValidUtf8(lenText) {
      return Err(LengthNotUtf8);
    }
    var len := ParseUsize(lenText);
    if len.None? {
      return Err(BadLength);
    }
    var buf := r.ReadExact(len.value);
    if buf.None? {
      return Err(Truncated);
    }
    assert buf.value == s[|lenbuf|..|lenbuf| + len.value];
    if !ValidUtf8(buf.value) {
      return Err(PayloadNotUtf8);
    }
    res := Ok(buf.value);
  }

  /** What `sendframe` writes, `readframe` reads back, consuming exactly those bytes. */
  lemma FrameRoundTrip(data: Text, rest: seq<byte>)
    requires |data| <= USIZE_MAX
    ensures ParseFrame(EncodeFrame(data) + rest) == Parsed(Ok(data), |EncodeFrame(data)|)
  {
    var digits := Ascii(DecimalString(|data|));
    AsciiConcat(DecimalString(|data|), ":");
    DecimalHasNo(|data|, COLON);
    var s := EncodeFrame(data) + rest;
    assert s == digits + [COLON] + (data + rest);
    UntilDelimAfter(digits, COLON, data + rest);
    assert COLON in s;
    var head := digits + [COLON];
    assert head[..|head| - 1] == digits;
    ParseDecimal(|data|);
    assert s[|head|..|head| + |data|] == data;
  }

  /**
   * Every frame `ParseFrame` accepts is `<digits>:<payload>` with the digits
   * giving the payload's length.
   */
  lemma AcceptedFrameIsWellFormed(s: seq<byte>)
    requires ParseFrame(s).result.Ok?
    ensures var t := ParseFrame(s).result.value; var n := ParseFrame(s).consumed;
      n == |s[..n - |t| - 1]| + 1 + |t| &&
      s[n - |t| - 1] == COLON &&
      s[n - |t|..n] == t &&
      ParseUsize(s[..n - |t| - 1]) == Some(|t|)
  {
    var head := UntilDelim(s, COLON);
    assert COLON in head by {
      var i := IndexOf(s, COLON);
      assert i < |s|;
      assert head[i] == COLON;
    }
    var t := ParseFrame(s).result.value;
    assert ParseFrame(s).consumed == |head| + |t|;
    assert s[..|head| - 1] == head[..|head| - 1];
  }

  /** Finding: the code as written reads the frame `0` + any byte, with no ':', as an empty payload. */
  lemma AsWrittenAcceptsMissingDelimiter()
    ensures COLON !in Ascii("00")
    ensures ParseFrameAsWritten(Ascii("00")) == Parsed(Ok([]), 2)
    ensures ParseFrame(Ascii("00")).result == Err(MissingDelimiter)
  {
    var s := Ascii("00");
    assert s == [0x30, 0x30];
    assert UntilDelim(s, COLON) == s;
    assert s[..1] == [0x30];
    assert DigitsValue([0x30]) == 0 by { assert [0x30][..0] == []; }
  }

  /** The two readings differ only on a stream that holds no ':'. */
  lemma AsWrittenAgreesWithDelimiter(s: seq<byte>)
    requires COLON in s
    ensures ParseFrameAsWritten(s) == ParseFrame(s)
  {
  }

  /** A length prefix that is not a decimal usize is an error. */
  lemma BadLengthRejected(s: seq<byte>, rest: seq<byte>)
    requires ParseUsize(s) == None && COLON !in s
    ensures ParseFrame(s + [COLON] + rest).result.Err?
  {
    UntilDelimAfter(s, COLON, rest);
    assert (s + [COLON] + rest)[|s|] == COLON;
    assert (s + [COLON])[..|s|] == s;
  }

  /** A payload shorter than its announced length is an error. */
  lemma ShortPayloadRejected(n: nat, rest: seq<byte>)
    requires |rest| < n <= USIZE_MAX
    ensures ParseFrame(Ascii(DecimalString(n)) + [COLON] + rest).result == Err(Truncated)
  {
    var t := Ascii(DecimalString(n));
    DecimalHasNo(n, COLON);
    UntilDelimAfter(t, COLON, rest);
    assert (t + [COLON])[..|t|] == t;
    ParseDecimal(n);
    assert (t + [COLON] + rest)[|t|] == COLON;
  }
}
