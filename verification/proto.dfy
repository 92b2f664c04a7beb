/**
 * The Firefox remote debugging protocol's packet layer
 * (remotemozdbg/src/proto.rs): a JSON packet is `<length>:<json>`, a bulk
 * packet is `bulk <actor> <type> <length>:<bytes>`.
 */
module DebugProtocol {
  import opened Wrappers
  import opened Bytes
  import opened Json
  import opened Io

  datatype Packet =
    | JsonPacket(value: Json)
    | BulkData(actor: Text, typ: Text, data: seq<byte>)

  const BULK: seq<byte> := Ascii("bulk")

  predicate StartsWith(s: seq<byte>, p: seq<byte>)
  {
    |p| <= |s| && s[..|p|] == p
  }

  /**
   * The header of a bulk packet (the bytes before the ':'), cut at every
   * space: the word `bulk`, then actor, type and length; any further words
   * are ignored.
   */
  function ParseBulkHeader(header: seq<byte>): (r: Result<(Text, Text, nat), IoError>)
    ensures var toks := Split(header, SPACE);
      r.Ok? <==> |toks| >= 4 && toks[0] == BULK && ValidUtf8(toks[1]) && ValidUtf8(toks[2]) &&
                 ValidUtf8(toks[3]) && ParseUsize(toks[3]).Some?
    ensures r.Ok? ==> var toks := Split(header, SPACE);
      |toks| >= 4 && toks[0] == BULK &&
      r.value.0 == toks[1] && r.value.1 == toks[2] && ParseUsize(toks[3]) == Some(r.value.2)
    ensures r.Err? ==> r.error.kind == InvalidData
  {
    var toks := Split(header, SPACE);
    if toks[0] != BULK then Err(InvalidDataError("Invalid bulk packet preamble"))
    else if |toks| < 2 then Err(InvalidDataError("Bulk packet has no actor"))
    else if !ValidUtf8(toks[1]) then Err(InvalidDataError("Bulk packet has no invalid actor"))
    else if |toks| < 3 then Err(InvalidDataError("Bulk packet has no type"))
    else if !ValidUtf8(toks[2]) then Err(InvalidDataError("Bulk packet has no invalid type"))
    else if |toks| < 4 then Err(InvalidDataError("Bulk packet has no length"))
    else if !ValidUtf8(toks[3]) then Err(InvalidDataError("Bulk packet has no invalid utf8 in length"))
    else match ParseUsize(toks[3])
      case None => Err(InvalidDataError("Bulk packet has invalid length"))
      case Some(n) => Ok((toks[1], toks[2], n))
  }

  /** `to_value(s)` for a `String`: the payload becomes a JSON string. */
  const AS_JSON_STRING: Text -> Result<Json, IoError> := (t: Text) => Ok(Str(t))

  /** `from_str(s)`: the payload is parsed as JSON text. */
  function ParseJsonBody(parse: Text -> Result<Json, JsonError>, t: Text): (r: Result<Json, IoError>)
    ensures r.Ok? <==> parse(t).Ok?
    ensures r.Ok? ==> r.value == parse(t).value
  {
    match parse(t)
    case Ok(v) => Ok(v)
    case Err(_) => Err(InvalidDataError("Invalid json packet"))
  }

  /** A bulk packet after its header: `n` raw bytes. `consumed` counts bytes of `rest`. */
  function ParseBulkBody(header: seq<byte>, rest: seq<byte>): (p: Parsed<Packet, IoError>)
    ensures p.consumed <= |rest|
  {
    match ParseBulkHeader(header)
    case Err(e) => Parsed(Err(e), 0)
    case Ok((actor, typ, n)) =>
      if |rest| < n then Parsed(Err(UNEXPECTED_EOF), |rest|)
      else Parsed(Ok(BulkData(actor, typ, rest[..n])), n)
  }

  /** A JSON packet after its length prefix: `n` bytes of UTF-8 that `body` turns into a value. */
  function ParseJsonPayload(lenText: seq<byte>, rest: seq<byte>, body: Text -> Result<Json, IoError>): (p: Parsed<Packet, IoError>)
    ensures p.consumed <= |rest|
  {
    if !ValidUtf8(lenText) then Parsed(Err(InvalidDataError("Invalid utf8 in packet length")), 0)
    else match ParseUsize(lenText)
      case None => Parsed(Err(InvalidDataError("Invalid packet length")), 0)
      case Some(n) =>
        if |rest| < n then Parsed(Err(UNEXPECTED_EOF), |rest|)
        else
          var payload := rest[..n];
          if !ValidUtf8(payload) then Parsed(Err(InvalidDataError("Invalid utf8 in Json payload")), n)
          else match body(payload)
            case Ok(v) => Parsed(Ok(JsonPacket(v)), n)
            case Err(e) => Parsed(Err(e), n)
  }

  /**
   * The packet grammar shared by both readings of `readpacket`; `body`
   * turns a JSON packet's payload into its value. Like `readframe`, it
   * drops the last byte of what `read_until(':')` returned without
   * checking that it is the ':'.
   */
  function ParsePacketWith(s: seq<byte>, body: Text -> Result<Json, IoError>): (p: Parsed<Packet, IoError>)
    ensures p.consumed <= |s|
    ensures s == [] ==> p.result.Err?
  {
    if s == [] then Parsed(Err(InvalidDataError("Invalid json packet")), 0)
    else
      var head := UntilDelim(s, COLON);
      var rest := s[|head|..];
      var tail :=
        if StartsWith(head, BULK) then ParseBulkBody(head[..|head| - 1], rest)
        else ParseJsonPayload(head[..|head| - 1], rest, body);
      Parsed(tail.result, |head| + tail.consumed)
  }

  /** `readpacket` as written: the JSON payload is kept as a JSON string. */
  function ParsePacketAsWritten(s: seq<byte>): (p: Parsed<Packet, IoError>)
    ensures p.consumed <= |s|
  {
    ParsePacketWith(s, AS_JSON_STRING)
  }

  /**
   * `readpacket` as intended: a stream that ends before any ':' holds no
   * packet, and a JSON payload is parsed as JSON.
   */
  function ParsePacket(s: seq<byte>, parse: Text -> Result<Json, JsonError>): (p: Parsed<Packet, IoError>)
    ensures p.consumed <= |s|
    ensures s == [] ==> p.result.Err?
    ensures p.result.Ok? ==> COLON in s
  {
    if s != [] && COLON !in s then Parsed(Err(InvalidDataError("Invalid json packet")), |s|)
    else ParsePacketWith(s, (t: Text) => ParseJsonBody(parse, t))
  }

  /** The bytes `sendpacket` writes. */
  function EncodePacket(p: Packet, render: Json -> Text): seq<byte>
  {
    match p
    case JsonPacket(v) => Ascii(DecimalString(|render(v)|) + ":") + render(v)
    case BulkData(actor, typ, data) =>
      Ascii("bulk ") + actor + [SPACE] + typ + [SPACE] + Ascii(DecimalString(|data|) + ":") + data
  }

  /** Reads the body of a bulk packet whose header has been read. */
  method ReadBulkBody(r: ByteReader, header: seq<byte>) returns (res: Result<Packet, IoError>)
    requires r.Valid()
    modifies r
    ensures r.Valid()
    ensures res == ParseBulkBody(header, old(r.Rest())).result
    ensures r.pos == old(r.pos) + ParseBulkBody(header, old(r.Rest())).consumed
  {
    var h := ParseBulkHeader(header);
    if h.Err? {
      return Err(h.error);
    }
    var (actor, typ, len) := h.value;
    var buf := r.ReadExact(len);
    if buf.None? {
      return Err(UNEXPECTED_EOF);
    }
    res := Ok(BulkData(actor, typ, buf.value));
  }

  /** Reads the payload of a JSON packet whose length prefix has been read. */
  method ReadJsonPayload(r: ByteReader, lenText: seq<byte>, parse: Text -> Result<Json, JsonError>) returns (res: Result<Packet, IoError>)
    requires r.Valid()
    modifies r
    ensures r.Valid()
    ensures res == ParseJsonPayload(lenText, old(r.Rest()), (t: Text) => ParseJsonBody(parse, t)).result
    ensures r.pos == old(r.pos) + ParseJsonPayload(lenText, old(r.Rest()), (t: Text) => ParseJsonBody(parse, t)).consumed
  {
    if !ValidUtf8(lenText) {
      return Err(InvalidDataError("Invalid utf8 in packet length"));
    }
    var len := ParseUsize(lenText);
    if len.None? {
      return Err(InvalidDataError("Invalid packet length"));
    }
    var buf := r.ReadExact(len.value);
    if buf.None? {
      return Err(UNEXPECTED_EOF);
    }
    if !ValidUtf8(buf.value) {
      return Err(InvalidDataError("Invalid utf8 in Json payload"));
    }
    var v := ParseJsonBody(parse, buf.value);
    if v.Err? {
      return Err(v.error);
    }
    res := Ok(JsonPacket(v.value));
  }

  /** Reads one packet. */
  method ReadPacket(r: ByteReader, parse: Text -> Result<Json, JsonError>) returns (res: Result<Packet, IoError>)
    requires r.Valid()
    modifies r
    ensures r.Valid()
    ensures res == ParsePacket(old(r.Rest()), parse).result
    ensures r.pos == old(r.pos) + ParsePacket(old(r.Rest()), parse).consumed
  {
    ghost var s := r.Rest();
    var prefix := r.ReadUntil(COLON);
    if |prefix| == 0 {
      return Err(InvalidDataError("Invalid json packet"));
    }
    if prefix[|prefix| - 1] != COLON {
      return Err(InvalidDataError("Invalid json packet"));
    }
    assert COLON in s;
    assert r.Rest() == s[|prefix|..];
    if StartsWith(prefix, BULK) {
      res := ReadBulkBody(r, prefix[..|prefix| - 1]);
    } else {
      res := ReadJsonPayload(r, prefix[..|prefix| - 1], parse);
    }
  }

  /** Writes one packet: the header, then the payload. */
  method SendPacket(w: ByteWriter, p: Packet, render: Json -> Text)
    modifies w
    ensures w.written == old(w.written) + EncodePacket(p, render)
  {
    match p {
      case JsonPacket(v) =>
        var data := render(v);
        w.WriteAll(Ascii(DecimalString(|data|) + ":"));
        w.WriteAll(data);
      case BulkData(actor, typ, data) =>
        w.WriteAll(Ascii("bulk ") + actor + [SPACE] + typ + [SPACE] + Ascii(DecimalString(|data|) + ":"));
        w.WriteAll(data);
    }
  }

  /** `ListTabsRequest::new()` as sent: `{"to": "root", "type": "listTabs"}`. */
  function ListTabsRequest(): (v: Json)
    ensures v.Object? && v.fields.Keys == {Ascii("to"), Ascii("type")}
    ensures v.fields[Ascii("to")] == Str(Ascii("root")) && v.fields[Ascii("type")] == Str(Ascii("listTabs"))
  {
    Object(map[Ascii("to") := Str(Ascii("root")), Ascii("type") := Str(Ascii("listTabs"))])
  }

  /** The bytes of the word `bulk`. */
  lemma BulkWord()
    ensures BULK == [0x62, 0x75, 0x6C, 0x6B]
    ensures SPACE !in BULK && COLON !in BULK
  {
  }

  /** Four words joined by a separator that none of them holds split back into those words. */
  lemma FourWords(w: seq<byte>, actor: seq<byte>, typ: seq<byte>, digits: seq<byte>, sep: byte)
    requires sep !in w && sep !in actor && sep !in typ && sep !in digits
    ensures Split(w + [sep] + (actor + [sep] + (typ + [sep] + digits)), sep) == [w, actor, typ, digits]
  {
    var x3 := typ + [sep] + digits;
    assert Split(x3, sep) == [typ, digits] by {
      SplitAfter(typ, sep, digits);
      SplitNone(digits, sep);
    }
    var x2 := actor + [sep] + x3;
    assert Split(x2, sep) == [actor, typ, digits] by {
      SplitAfter(actor, sep, x3);
    }
    SplitAfter(w, sep, x2);
  }

  /** The header `bulk <actor> <type> <digits>` cuts into exactly those four words. */
  lemma BulkHeaderWords(actor: seq<byte>, typ: seq<byte>, digits: seq<byte>)
    requires SPACE !in actor && SPACE !in typ && SPACE !in digits
    ensures Split(BULK + [SPACE] + (actor + [SPACE] + (typ + [SPACE] + digits)), SPACE) == [BULK, actor, typ, digits]
  {
    BulkWord();
    FourWords(BULK, actor, typ, digits, SPACE);
  }

  /** A stream that starts with `header:` is read according to the header. */
  lemma ParseAfterHeader(header: seq<byte>, rest: seq<byte>, body: Text -> Result<Json, IoError>)
    requires COLON !in header
    ensures var head := header + [COLON];
      var tail := if StartsWith(head, BULK) then ParseBulkBody(header, rest) else ParseJsonPayload(header, rest, body);
      ParsePacketWith(header + [COLON] + rest, body) == Parsed(tail.result, |head| + tail.consumed)
  {
    UntilDelimAfter(header, COLON, rest);
    assert (header + [COLON])[..|header|] == header;
    assert (header + [COLON] + rest)[|header| + 1..] == rest;
  }

  lemma Regroup(w: seq<byte>, a: seq<byte>, t: seq<byte>, d: seq<byte>, data: seq<byte>, sp: byte, c: byte)
    ensures (w + [sp]) + a + [sp] + t + [sp] + (d + [c]) + data == (w + [sp] + (a + [sp] + (t + [sp] + d))) + [c] + data
  {
  }

  lemma BulkPrefix()
    ensures Ascii("bulk ") == BULK + [SPACE]
  {
    AsciiConcat("bulk", " ");
  }

  lemma LengthPrefix(n: nat)
    ensures Ascii(DecimalString(n) + ":") == Ascii(DecimalString(n)) + [COLON]
  {
    AsciiConcat(DecimalString(n), ":");
  }

  /** The layout of an encoded bulk packet. */
  lemma BulkLayout(actor: Text, typ: Text, data: seq<byte>, render: Json -> Text)
    ensures EncodePacket(BulkData(actor, typ, data), render) ==
      (BULK + [SPACE] + (actor + [SPACE] + (typ + [SPACE] + Ascii(DecimalString(|data|))))) + [COLON] + data
  {
    BulkPrefix();
    LengthPrefix(|data|);
    Regroup(BULK, actor, typ, Ascii(DecimalString(|data|)), data, SPACE, COLON);
  }

  /** The header written for a bulk packet reads back as its actor, type and length. */
  lemma BulkBodyRoundTrip(actor: Text, typ: Text, data: seq<byte>, rest: seq<byte>)
    requires SPACE !in actor && SPACE !in typ
    requires |data| <= USIZE_MAX
    ensures ParseBulkBody(BULK + [SPACE] + (actor + [SPACE] + (typ + [SPACE] + Ascii(DecimalString(|data|)))), data + rest) ==
      Parsed(Ok(BulkData(actor, typ, data)), |data|)
  {
    DecimalHasNo(|data|, SPACE);
    BulkHeaderWords(actor, typ, Ascii(DecimalString(|data|)));
    ParseDecimal(|data|);
    assert (data + rest)[..|data|] == data;
  }

  /**
   * A bulk packet whose actor and type hold no space and no ':' reads back
   * as itself, in both readings, consuming exactly its own bytes.
   */
  lemma BulkRoundTrip(actor: Text, typ: Text, data: seq<byte>, rest: seq<byte>, parse: Text -> Result<Json, JsonError>, render: Json -> Text)
    requires SPACE !in actor && SPACE !in typ && COLON !in actor && COLON !in typ
    requires |data| <= USIZE_MAX
    ensures var p := BulkData(actor, typ, data); var e := EncodePacket(p, render);
      ParsePacket(e + rest, parse) == Parsed(Ok(p), |e|) &&
      ParsePacketAsWritten(e + rest) == Parsed(Ok(p), |e|)
  {
    var header := BULK + [SPACE] + (actor + [SPACE] + (typ + [SPACE] + Ascii(DecimalString(|data|))));
    BulkLayout(actor, typ, data, render);
    BulkWord();
    DecimalHasNo(|data|, COLON);
    assert COLON !in header;
    var e := EncodePacket(BulkData(actor, typ, data), render);
    assert e + rest == header + [COLON] + (data + rest);
    assert (header + [COLON])[..|BULK|] == BULK;
    ParseAfterHeader(header, data + rest, (t: Text) => ParseJsonBody(parse, t));
    ParseAfterHeader(header, data + rest, AS_JSON_STRING);
    BulkBodyRoundTrip(actor, typ, data, rest);
    assert (e + rest)[|header|] == COLON;
  }

  /** A length prefix starts with a digit, so it never opens a bulk packet. */
  lemma LengthPrefixIsNotBulk(n: nat)
    ensures !StartsWith(Ascii(DecimalString(n)) + [COLON], BULK)
  {
    DecimalValue(n);
    BulkWord();
    var head := Ascii(DecimalString(n)) + [COLON];
    assert IsDigit(head[0]);
    if |BULK| <= |head| {
      assert head[..|BULK|][0] == head[0];
    }
  }

  /** The payload after a length prefix of its own length is read whole, and `body` decides. */
  lemma JsonPayloadRoundTrip(t: Text, rest: seq<byte>, body: Text -> Result<Json, IoError>)
    requires |t| <= USIZE_MAX
    ensures ParseJsonPayload(Ascii(DecimalString(|t|)), t + rest, body) ==
      match body(t) case Ok(v) => Parsed(Ok(JsonPacket(v)), |t|) case Err(e) => Parsed(Err(e), |t|)
  {
    ParseDecimal(|t|);
    assert (t + rest)[..|t|] == t;
  }

  /** The layout of an encoded JSON packet. */
  lemma JsonLayout(v: Json, rest: seq<byte>, render: Json -> Text)
    ensures EncodePacket(JsonPacket(v), render) + rest == Ascii(DecimalString(|render(v)|)) + [COLON] + (render(v) + rest)
  {
    LengthPrefix(|render(v)|);
  }

  /** On a stream that holds a ':', the intended reading is the shared grammar with JSON parsing. */
  lemma ParseDelimited(s: seq<byte>, parse: Text -> Result<Json, JsonError>)
    requires COLON in s
    ensures ParsePacket(s, parse) == ParsePacketWith(s, (t: Text) => ParseJsonBody(parse, t))
  {
  }

  /**
   * A JSON packet reads back as the same value, consuming exactly its own
   * bytes, whenever the JSON text it is written as parses back to it.
   */
  lemma JsonRoundTrip(v: Json, rest: seq<byte>, parse: Text -> Result<Json, JsonError>, render: Json -> Text)
    requires parse(render(v)) == Ok(v)
    requires |render(v)| <= USIZE_MAX
    ensures var e := EncodePacket(JsonPacket(v), render);
      ParsePacket(e + rest, parse) == Parsed(Ok(JsonPacket(v)), |e|)
  {
    var t := render(v);
    var digits := Ascii(DecimalString(|t|));
    var s := EncodePacket(JsonPacket(v), render) + rest;
    JsonLayout(v, rest, render);
    DecimalHasNo(|t|, COLON);
    assert s[|digits|] == COLON;
    ParseDelimited(s, parse);
    var body := (t: Text) => ParseJsonBody(parse, t);
    ParseAfterHeader(digits, t + rest, body);
    LengthPrefixIsNotBulk(|t|);
    JsonPayloadRoundTrip(t, rest, body);
  }

  const BULK_EXAMPLE: seq<byte> :=
    [0x62, 0x75, 0x6C, 0x6B, 0x20, 0x61, 0x63, 0x74, 0x6F, 0x72, 0x20, 0x74, 0x79, 0x70, 0x65, 0x20, 0x33, 0x3A, 0x31, 0x32, 0x33]

  lemma BulkExampleLiteral()
    ensures Ascii("bulk actor type 3:123") == BULK_EXAMPLE
  {
    AsciiConcat("bulk actor", " type 3:123");
    assert Ascii("bulk actor") == BULK_EXAMPLE[..10];
    assert Ascii(" type 3:123") == BULK_EXAMPLE[10..];
  }

  lemma BulkExampleType()
    ensures Ascii("type") + [SPACE] + Ascii(DecimalString(3)) == BULK_EXAMPLE[11..17]
  {
    assert DecimalString(3) == "3";
    assert Ascii("type") == [0x74, 0x79, 0x70, 0x65];
    assert Ascii("3") == [0x33];
  }

  lemma BulkExampleActor()
    ensures Ascii("actor") + [SPACE] + BULK_EXAMPLE[11..17] == BULK_EXAMPLE[5..17]
  {
    assert Ascii("actor") == [0x61, 0x63, 0x74, 0x6F, 0x72];
  }

  lemma BulkExampleHeader()
    ensures BULK + [SPACE] + BULK_EXAMPLE[5..17] == BULK_EXAMPLE[..17]
  {
    BulkWord();
  }

  lemma BulkExampleWords()
    ensures (BULK + [SPACE] + (Ascii("actor") + [SPACE] + (Ascii("type") + [SPACE] + Ascii(DecimalString(3))))) + [COLON] + Ascii("123") == BULK_EXAMPLE
  {
    BulkExampleType();
    BulkExampleActor();
    BulkExampleHeader();
    assert Ascii("123") == [0x31, 0x32, 0x33];
    assert BULK_EXAMPLE[..17] + [COLON] + [0x31, 0x32, 0x33] == BULK_EXAMPLE;
  }

  /** The bytes of remotemozdbg's `bulk_packet` test packet, word by word. */
  lemma BulkExampleBytes()
    ensures Ascii("bulk actor type 3:123") ==
      (BULK + [SPACE] + (Ascii("actor") + [SPACE] + (Ascii("type") + [SPACE] + Ascii(DecimalString(3))))) + [COLON] + Ascii("123")
  {
    BulkExampleLiteral();
    BulkExampleWords();
  }

  /** The packet of remotemozdbg's `bulk_packet` test reads as actor, type and three bytes, and is written back unchanged. */
  lemma BulkPacketExample(parse: Text -> Result<Json, JsonError>, render: Json -> Text)
    ensures var p := BulkData(Ascii("actor"), Ascii("type"), Ascii("123"));
      ParsePacket(Ascii("bulk actor type 3:123"), parse).result == Ok(p) &&
      EncodePacket(p, render) == Ascii("bulk actor type 3:123")
  {
    var p := BulkData(Ascii("actor"), Ascii("type"), Ascii("123"));
    assert SPACE !in Ascii("actor") && COLON !in Ascii("actor");
    assert SPACE !in Ascii("type") && COLON !in Ascii("type");
    BulkLayout(Ascii("actor"), Ascii("type"), Ascii("123"), render);
    BulkExampleBytes();
    var e := EncodePacket(p, render);
    BulkRoundTrip(Ascii("actor"), Ascii("type"), Ascii("123"), [], parse, render);
    assert e + [] == e;
  }

  /**
   * Finding: as written, the payload of `2:{}` becomes the JSON string
   * `"{}"`, not the empty object remotemozdbg's `json_packet` test expects;
   * parsing the payload gives the object.
   */
  lemma JsonPacketExample(parse: Text -> Result<Json, JsonError>)
    requires parse(Ascii("{}")) == Ok(EMPTY_OBJECT)
    ensures ParsePacketAsWritten(Ascii("2:{}")).result == Ok(JsonPacket(Str(Ascii("{}"))))
    ensures ParsePacketAsWritten(Ascii("2:{}")).result != Ok(JsonPacket(EMPTY_OBJECT))
    ensures ParsePacket(Ascii("2:{}"), parse).result == Ok(JsonPacket(EMPTY_OBJECT))
  {
    var s := Ascii("2:{}");
    assert s == [0x32, COLON] + Ascii("{}");
    UntilDelimAfter([0x32], COLON, Ascii("{}"));
    assert UntilDelim(s, COLON) == [0x32, COLON];
    assert !StartsWith([0x32, COLON], BULK);
    assert [0x32, COLON][..1] == [0x32];
    assert ParseUsize([0x32]) == Some(2) by {
      assert [0x32][..0] == [];
    }
    assert s[2..][..2] == Ascii("{}");
    assert COLON in s by { assert s[1] == COLON; }
  }

  /**
   * Finding, for every JSON packet: as written, a packet reads back as its
   * JSON text wrapped in a JSON string, consuming exactly its own bytes.
   */
  lemma JsonAsWrittenIsString(v: Json, rest: seq<byte>, render: Json -> Text)
    requires |render(v)| <= USIZE_MAX
    ensures var e := EncodePacket(JsonPacket(v), render);
      ParsePacketAsWritten(e + rest) == Parsed(Ok(JsonPacket(Str(render(v)))), |e|)
  {
    var t := render(v);
    var digits := Ascii(DecimalString(|t|));
    JsonLayout(v, rest, render);
    DecimalHasNo(|t|, COLON);
    ParseAfterHeader(digits, t + rest, AS_JSON_STRING);
    LengthPrefixIsNotBulk(|t|);
    JsonPayloadRoundTrip(t, rest, AS_JSON_STRING);
  }

  /** Finding: as written, `00` with no ':' reads as a JSON packet holding the empty string. */
  lemma PacketAsWrittenAcceptsMissingDelimiter(parse: Text -> Result<Json, JsonError>)
    ensures COLON !in Ascii("00")
    ensures ParsePacketAsWritten(Ascii("00")) == Parsed(Ok(JsonPacket(Str([]))), 2)
    ensures ParsePacket(Ascii("00"), parse).result.Err?
  {
    var s := Ascii("00");
    assert s == [0x30, 0x30];
    assert UntilDelim(s, COLON) == s;
    assert !StartsWith(s, BULK);
    assert s[..1] == [0x30];
    assert DigitsValue([0x30]) == 0 by { assert [0x30][..0] == []; }
  }
}
