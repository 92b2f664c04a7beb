/**
 * The synchronous Marionette v3 client (marionette/src/lib.rs): the call
 * dispatcher that sends `[0, id, name, args]` and waits for the response
 * `[1, id, error, result]` with the same id, the session set-up on connect,
 * the typed commands built on the dispatcher, and the context mappings.
 */
module Marionette {
  import opened Wrappers
  import opened Bytes
  import opened Json
  import opened Io
  import opened Messages
  import opened Framing

  /** How a call can fail. */
  datatype CallError =
    | Io(err: IoError)
    | JsonErr(cause: JsonError)
    | Call(obj: ErrorObject)
    | UnexpectedType
    | InvalidMsgId
    | InvalidResponseArray
    | InvalidErrorObject

  predicate IsProtocolViolation(e: CallError)
  {
    e.UnexpectedType? || e.InvalidMsgId? || e.InvalidResponseArray? || e.InvalidErrorObject?
  }

  /** `CallError::into_err`. */
  function IntoErr(e: CallError): (r: IoError)
    ensures e.Io? ==> r == e.err
    ensures e.JsonErr? ==> r == IoError(InvalidData, Wrapped(e.cause))
    ensures e.Call? ==> r.kind == Other && r.payload.Message?
    ensures e.Call? ==> var t := r.payload.text;
      |t| == |e.obj.error| + 2 + |e.obj.message| &&
      t[..|e.obj.error|] == e.obj.error && t[|t| - |e.obj.message|..] == e.obj.message
    ensures IsProtocolViolation(e) ==> r == InvalidDataError("Invalid response message")
  {
    match e
    case Io(err) => err
    case JsonErr(cause) => IoError(InvalidData, Wrapped(cause))
    case Call(obj) => IoError(Other, Message(obj.error + Ascii(": ") + obj.message))
    case _ => InvalidDataError("Invalid response message")
  }

  /** `.map_err(CallError::into_err)`. */
  function IoResult<T>(r: Result<T, CallError>): Result<T, IoError>
  {
    match r
    case Ok(v) => Ok(v)
    case Err(e) => Err(IntoErr(e))
  }

  /** The execution context. */
  datatype Context = Content | Chrome

  const CHROME: Text := Ascii("chrome")
  const CONTENT: Text := Ascii("content")

  /** `Context::from_value`. */
  function ContextFromValue(v: ContextValue): (r: Result<Context, IoError>)
    ensures r == Ok(Chrome) <==> v.value == CHROME
    ensures r == Ok(Content) <==> v.value == CONTENT
    ensures r.Err? ==> r.error.kind == InvalidData
  {
    assert CHROME != CONTENT by { assert CHROME[1] != CONTENT[1]; }
    if v.value == CHROME then Ok(Chrome)
    else if v.value == CONTENT then Ok(Content)
    else Err(IoError(InvalidData, Message(Ascii("Unsupported context ") + v.value)))
  }

  /** `Into<ContextValue> for Context`. */
  function ContextToValue(c: Context): (v: ContextValue)
    ensures v.value == CHROME || v.value == CONTENT
  {
    match c
    case Content => ContextValue(CONTENT)
    case Chrome => ContextValue(CHROME)
  }

  lemma ContextRoundTrip(c: Context)
    ensures ContextFromValue(ContextToValue(c)) == Ok(c)
  {
    assert CHROME != CONTENT by { assert CHROME[1] != CONTENT[1]; }
  }

  lemma ContextValueRoundTrip(v: ContextValue)
    requires ContextFromValue(v).Ok?
    ensures ContextToValue(ContextFromValue(v).value) == v
  {
    assert CHROME != CONTENT by { assert CHROME[1] != CONTENT[1]; }
  }

  /** The request envelope. */
  function Request(id: nat, name: Text, args: Json): Json
  {
    Array([Int(0), Int(id), Str(name), args])
  }

  /** The response envelope a server builds. */
  function Response(id: nat, error: Json, result: Json): Json
  {
    Array([Int(1), Int(id), error, result])
  }

  /** What one received message means for the call waiting on `id`. */
  datatype Step = Skip | Fail(err: CallError) | Payload(value: Json)

  /** The checks `call` makes on each received message, in the order it makes them. */
  function Correlate(v: Json, id: nat): (st: Step)
    ensures st == Fail(UnexpectedType) <==> !v.Array? || |v.elems| == 0 || AsU64(v.elems[0]) != Some(1)
    ensures st == Fail(InvalidMsgId) <==>
      v.Array? && |v.elems| >= 1 && AsU64(v.elems[0]) == Some(1) && (|v.elems| == 1 || AsU64(v.elems[1]).None?)
    ensures st == Skip <==>
      v.Array? && |v.elems| >= 2 && AsU64(v.elems[0]) == Some(1) && AsU64(v.elems[1]).Some? && AsU64(v.elems[1]) != Some(id)
    ensures st.Payload? <==>
      v.Array? && |v.elems| >= 4 && AsU64(v.elems[0]) == Some(1) && AsU64(v.elems[1]) == Some(id) && v.elems[2] == Null
    ensures st.Payload? ==> st.value == v.elems[3]
    ensures st.Fail? && st.err.Call? ==>
      v.Array? && |v.elems| >= 3 && AsU64(v.elems[1]) == Some(id) && v.elems[2] != Null && DecodeErrorObject(v.elems[2]) == Ok(st.err.obj)
    ensures st.Fail? ==> st.err.Call? || IsProtocolViolation(st.err)
  {
    if !v.Array? || |v.elems| == 0 || AsU64(v.elems[0]) != Some(1) then Fail(UnexpectedType)
    else if |v.elems| == 1 || AsU64(v.elems[1]).None? then Fail(InvalidMsgId)
    else if AsU64(v.elems[1]) != Some(id) then Skip
    else if |v.elems| == 2 then Fail(InvalidResponseArray)
    else if v.elems[2] != Null then
      match DecodeErrorObject(v.elems[2])
      case Ok(obj) => Fail(Call(obj))
      case Err(_) => Fail(InvalidErrorObject)
    else if |v.elems| == 3 then Fail(InvalidResponseArray)
    else Payload(v.elems[3])
  }

  /** How a response carrying our id fails: a missing slot, an undecodable error object, or the server's error. */
  lemma CorrelateFailures(v: Json, id: nat)
    ensures Correlate(v, id) == Fail(InvalidResponseArray) <==>
      v.Array? && |v.elems| >= 2 && AsU64(v.elems[0]) == Some(1) && AsU64(v.elems[1]) == Some(id) &&
      (|v.elems| == 2 || (|v.elems| == 3 && v.elems[2] == Null))
    ensures Correlate(v, id) == Fail(InvalidErrorObject) <==>
      v.Array? && |v.elems| >= 3 && AsU64(v.elems[0]) == Some(1) && AsU64(v.elems[1]) == Some(id) &&
      v.elems[2] != Null && DecodeErrorObject(v.elems[2]).Err?
    ensures (Correlate(v, id).Fail? && Correlate(v, id).err.Call?) <==>
      v.Array? && |v.elems| >= 3 && AsU64(v.elems[0]) == Some(1) && AsU64(v.elems[1]) == Some(id) &&
      v.elems[2] != Null && DecodeErrorObject(v.elems[2]).Ok?
    ensures Correlate(v, id).Fail? && Correlate(v, id).err.Call? ==> DecodeErrorObject(v.elems[2]) == Ok(Correlate(v, id).err.obj)
  {
  }

  /** A server's answer to request `id` is taken by the call waiting on `id` and skipped by any other. */
  lemma ResponseCorrelates(id: nat, waiting: nat, error: Json, result: Json)
    requires id <= USIZE_MAX
    ensures id != waiting ==> Correlate(Response(id, error, result), waiting) == Skip
    ensures id == waiting && error == Null ==> Correlate(Response(id, error, result), waiting) == Payload(result)
    ensures id == waiting && error != Null ==>
      Correlate(Response(id, error, result), waiting) ==
        (match DecodeErrorObject(error) case Ok(obj) => Fail(Call(obj)) case Err(_) => Fail(InvalidErrorObject))
  {
  }

  /** A request echoed back is never mistaken for a response. */
  lemma RequestIsNotResponse(id: nat, name: Text, args: Json, waiting: nat)
    ensures Correlate(Request(id, name, args), waiting) == Fail(UnexpectedType)
  {
  }

  function DecodeWith<D>(x: Json, decode: Json -> Result<D, JsonError>): Result<D, CallError>
  {
    match decode(x)
    case Ok(d) => Ok(d)
    case Err(e) => Err(JsonErr(e))
  }

  /** One frame read off the stream and parsed as JSON. */
  function NextMessage(s: seq<byte>, serde: Serde): (m: Parsed<Json, CallError>)
    ensures m.consumed == ParseFrame(s).consumed
    ensures m.result.Ok? ==> m.consumed >= 1
    ensures m.result.Ok? ==> ParseFrame(s).result.Ok? && serde.parse(ParseFrame(s).result.value) == Ok(m.result.value)
  {
    var f := ParseFrame(s);
    match f.result
    case Err(e) => Parsed(Err(Io(FrameIoError(e))), f.consumed)
    case Ok(text) =>
      match serde.parse(text)
      case Err(e) => Parsed(Err(JsonErr(e)), f.consumed)
      case Ok(v) => Parsed(Ok(v), f.consumed)
  }

  /**
   * What `call` reads from the stream `s` while waiting on `id`: the frames
   * up to and including the first one that answers, and the answer.
   */
  function Await<D>(s: seq<byte>, id: nat, serde: Serde, decode: Json -> Result<D, JsonError>): (a: Parsed<D, CallError>)
    ensures a.consumed <= |s|
    decreases |s|
  {
    var m := NextMessage(s, serde);
    match m.result
    case Err(e) => Parsed(Err(e), m.consumed)
    case Ok(v) =>
      match Correlate(v, id)
      case Skip =>
        var rest := Await(s[m.consumed..], id, serde, decode);
        Parsed(rest.result, m.consumed + rest.consumed)
      case Fail(e) => Parsed(Err(e), m.consumed)
      case Payload(x) => Parsed(DecodeWith(x, decode), m.consumed)
  }

  /** One step of `Await`: the first message decides, or is skipped. */
  lemma AwaitStep<D>(s: seq<byte>, id: nat, serde: Serde, decode: Json -> Result<D, JsonError>)
    requires NextMessage(s, serde).result.Ok?
    ensures var c := NextMessage(s, serde).consumed;
      match Correlate(NextMessage(s, serde).result.value, id)
      case Skip => Await(s, id, serde, decode) == Parsed(Await(s[c..], id, serde, decode).result, c + Await(s[c..], id, serde, decode).consumed)
      case Fail(e) => Await(s, id, serde, decode) == Parsed(Err(e), c)
      case Payload(x) => Await(s, id, serde, decode) == Parsed(DecodeWith(x, decode), c)
  {
  }

  /** A response for another id is read and discarded; the wait goes on with the next frame. */
  lemma {:induction false} AwaitSkips<D>(t: Text, rest: seq<byte>, id: nat, serde: Serde, decode: Json -> Result<D, JsonError>)
    requires |t| <= USIZE_MAX
    requires serde.parse(t).Ok? && Correlate(serde.parse(t).value, id) == Skip
    ensures Await(EncodeFrame(t) + rest, id, serde, decode) ==
      Parsed(Await(rest, id, serde, decode).result, |EncodeFrame(t)| + Await(rest, id, serde, decode).consumed)
  {
    FrameRoundTrip(t, rest);
    assert (EncodeFrame(t) + rest)[|EncodeFrame(t)|..] == rest;
  }

  /** The first matching response ends the wait, and its result slot is the answer. */
  lemma {:induction false} AwaitAnswers<D>(t: Text, rest: seq<byte>, id: nat, serde: Serde, decode: Json -> Result<D, JsonError>)
    requires |t| <= USIZE_MAX
    requires serde.parse(t).Ok? && Correlate(serde.parse(t).value, id).Payload?
    ensures Await(EncodeFrame(t) + rest, id, serde, decode) ==
      Parsed(DecodeWith(Correlate(serde.parse(t).value, id).value, decode), |EncodeFrame(t)|)
  {
    FrameRoundTrip(t, rest);
  }

  /**
   * A stale response followed by the one for `id`: the call returns the
   * second one's result and has consumed both frames.
   */
  lemma {:induction false} AwaitCorrelates<D>(stale: Text, answer: Text, rest: seq<byte>, id: nat, serde: Serde,
                                               decode: Json -> Result<D, JsonError>, result: Json)
    requires |stale| <= USIZE_MAX && |answer| <= USIZE_MAX
    requires serde.parse(stale).Ok? && Correlate(serde.parse(stale).value, id) == Skip
    requires serde.parse(answer) == Ok(Response(id, Null, result)) && id <= USIZE_MAX
    ensures Await(EncodeFrame(stale) + EncodeFrame(answer) + rest, id, serde, decode) ==
      Parsed(DecodeWith(result, decode), |EncodeFrame(stale)| + |EncodeFrame(answer)|)
  {
    assert EncodeFrame(stale) + EncodeFrame(answer) + rest == EncodeFrame(stale) + (EncodeFrame(answer) + rest);
    AwaitSkips(stale, EncodeFrame(answer) + rest, id, serde, decode);
    ResponseCorrelates(id, id, Null, result);
    AwaitAnswers(answer, rest, id, serde, decode);
  }

  /** The bytes of the requests written so far, one frame each. */
  function Frames(reqs: seq<Json>, render: Json -> Text): seq<byte>
  {
    if reqs == [] then [] else Frames(reqs[..|reqs| - 1], render) + EncodeFrame(render(reqs[|reqs| - 1]))
  }

  /** The greeting frame read on connect, as a `ServerInfo`. */
  function Greeting(input: seq<byte>, serde: Serde): (g: Parsed<ServerInfo, IoError>)
    ensures g.consumed <= |input|
  {
    var f := ParseFrame(input);
    match f.result
    case Err(e) => Parsed(Err(FrameIoError(e)), f.consumed)
    case Ok(t) =>
      match serde.parse(t)
      case Err(_) => Parsed(Err(InvalidDataError("Invalid JSON in server info")), f.consumed)
      case Ok(v) =>
        match DecodeServerInfo(v)
        case Err(_) => Parsed(Err(InvalidDataError("Invalid JSON in server info")), f.consumed)
        case Ok(info) => Parsed(Ok(info), f.consumed)
  }

  /** The protocol-version gate of `connect`: only version 3 is spoken. */
  function ProtocolGate(info: ServerInfo): (r: Result<(), IoError>)
    ensures r.Ok? <==> info.marionetteProtocol == 3
    ensures r.Err? ==> r.error.kind == InvalidData
  {
    if info.marionetteProtocol == 3 then Ok(())
    else Err(InvalidDataError("Unsupported marionette protocol version"))
  }

  const NEW_SESSION: Text := Ascii("newSession")

  class Connection {
    const reader: ByteReader
    const writer: ByteWriter
    const serde: Serde
    var msgid: nat
    /** The request envelopes written so far, in order. */
    ghost var sent: seq<Json>

    /** Ids are handed out from 0 without reuse: request `i` carries id `i`, and the stream holds exactly those requests. */
    ghost predicate Valid()
      reads this, reader, writer
    {
      reader.Valid() &&
      |sent| == msgid &&
      (forall i :: 0 <= i < |sent| ==> sent[i].Array? && |sent[i].elems| == 4 && sent[i].elems[1] == Int(i)) &&
      writer.written == Frames(sent, serde.render)
    }

    constructor (reader: ByteReader, serde: Serde)
      requires reader.Valid()
      ensures Valid() && fresh(writer)
      ensures this.reader == reader && this.serde == serde && msgid == 0 && sent == []
    {
      this.reader := reader;
      this.writer := new ByteWriter();
      this.serde := serde;
      msgid := 0;
      sent := [];
    }

    /** `next_msgid`: the current counter, which then moves on by one. */
    method NextMsgId() returns (id: nat)
      modifies this`msgid
      ensures id == old(msgid) && msgid == old(msgid) + 1
    {
      id := msgid;
      msgid := msgid + 1;
    }

    /** Reads one frame and parses it as JSON. */
    method ReadMessage() returns (m: Result<Json, CallError>)
      requires reader.Valid()
      modifies reader
      ensures reader.Valid()
      ensures m == NextMessage(old(reader.Rest()), serde).result
      ensures reader.pos == old(reader.pos) + NextMessage(old(reader.Rest()), serde).consumed
    {
      var frame := ReadFrame(reader);
      if frame.Err? {
        return Err(Io(FrameIoError(frame.error)));
      }
      var parsed := serde.parse(frame.value);
      if parsed.Err? {
        return Err(JsonErr(parsed.error));
      }
      return Ok(parsed.value);
    }

    /** The sending half of `call`: the request goes out under the next id. */
    method SendRequest(name: Text, args: Json) returns (id: nat)
      requires Valid()
      modifies this, writer
      ensures Valid()
      ensures id == old(msgid) && msgid == old(msgid) + 1
      ensures sent == old(sent) + [Request(id, name, args)]
    {
      id := NextMsgId();
      var msg := Request(id, name, args);
      SendFrame(writer, serde.render(msg));
      sent := sent + [msg];
      assert sent[..|sent| - 1] == old(sent);
    }

    /** The receiving half of `call`: frames are read until one answers `id`. */
    method AwaitResponse<D>(id: nat, decode: Json -> Result<D, JsonError>) returns (r: Result<D, CallError>)
      requires reader.Valid()
      modifies reader
      ensures reader.Valid()
      ensures r == Await(old(reader.Rest()), id, serde, decode).result
      ensures reader.pos == old(reader.pos) + Await(old(reader.Rest()), id, serde, decode).consumed
    {
      ghost var s0 := reader.Rest();
      ghost var p0 := reader.pos;
      while true
        invariant reader.Valid() && p0 <= reader.pos
        invariant Await(s0, id, serde, decode) ==
          Parsed(Await(reader.Rest(), id, serde, decode).result, reader.pos - p0 + Await(reader.Rest(), id, serde, decode).consumed)
        decreases |reader.data| - reader.pos
      {
        ghost var s := reader.Rest();
        var msg := ReadMessage();
        if msg.Err? {
          return Err(msg.error);
        }
        AwaitStep(s, id, serde, decode);
        var step := Correlate(msg.value, id);
        match step {
          case Skip =>
            assert reader.Rest() == s[NextMessage(s, serde).consumed..];
          case Fail(e) =>
            return Err(e);
          case Payload(x) =>
            var d := decode(x);
            if d.Err? {
              return Err(JsonErr(d.error));
            }
            return Ok(d.value);
        }
      }
    }

    /** `call`: one request with a fresh id, then frames until the answer to that id. */
    method Call<D>(name: Text, args: Json, decode: Json -> Result<D, JsonError>) returns (r: Result<D, CallError>)
      requires Valid()
      modifies this, reader, writer
      ensures Valid()
      ensures msgid == old(msgid) + 1
      ensures sent == old(sent) + [Request(old(msgid), name, args)]
      ensures r == Await(old(reader.Rest()), old(msgid), serde, decode).result
      ensures reader.pos == old(reader.pos) + Await(old(reader.Rest()), old(msgid), serde, decode).consumed
    {
      var id := SendRequest(name, args);
      r := AwaitResponse(id, decode);
    }

    /** The call just made sent `name` with `args` under the next id and its answer, mapped to `io::Error`, is `r`. */
    ghost predicate Exchanged<D>(rest0: seq<byte>, pos0: nat, sent0: seq<Json>, name: Text, args: Json,
                                decode: Json -> Result<D, JsonError>, r: Result<D, IoError>)
      reads this, reader
    {
      var a := Await(rest0, |sent0|, serde, decode);
      sent == sent0 + [Request(|sent0|, name, args)] && reader.pos == pos0 + a.consumed && r == IoResult(a.result)
    }

    /** `connect`: read the greeting, accept protocol 3 only, then open a session with id 0. */
    static method Connect(input: seq<byte>, serde: Serde) returns (r: Result<Connection, IoError>)
      ensures Greeting(input, serde).result.Err? ==> r == Err(Greeting(input, serde).result.error)
      ensures Greeting(input, serde).result.Ok? && ProtocolGate(Greeting(input, serde).result.value).Err? ==>
        r == Err(ProtocolGate(Greeting(input, serde).result.value).error)
      ensures r.Ok? ==> Greeting(input, serde).result.Ok? && Greeting(input, serde).result.value.marionetteProtocol == 3
      ensures Greeting(input, serde).result.Ok? && Greeting(input, serde).result.value.marionetteProtocol == 3 ==>
        var g := Greeting(input, serde).consumed;
        var a := Await(input[g..], 0, serde, DecodeNewSession);
        (r.Err? <==> a.result.Err?) && (r.Err? ==> r.error == IntoErr(a.result.error)) &&
        (r.Ok? ==> fresh(r.value) && r.value.Valid() && r.value.serde == serde && r.value.msgid == 1 &&
                   r.value.sent == [Request(0, NEW_SESSION, EMPTY_OBJECT)] &&
                   r.value.reader.data == input && r.value.reader.pos == g + a.consumed)
    {
      var reader := new ByteReader(input);
      var frame := ReadFrame(reader);
      if frame.Err? {
        return Err(FrameIoError(frame.error));
      }
      var parsed := serde.parse(frame.value);
      if parsed.Err? {
        return Err(InvalidDataError("Invalid JSON in server info"));
      }
      var info := DecodeServerInfo(parsed.value);
      if info.Err? {
        return Err(InvalidDataError("Invalid JSON in server info"));
      }
      if info.value.marionetteProtocol == 3 {
        var conn := new Connection(reader, serde);
        var session := conn.NewSession();
        if session.Err? {
          return Err(session.error);
        }
        return Ok(conn);
      } else {
        return Err(InvalidDataError("Unsupported marionette protocol version"));
      }
    }

    method NewSession() returns (r: Result<NewSessionResponse, IoError>)
      requires Valid()
      modifies this, reader, writer
      ensures Valid()
      ensures Exchanged(old(reader.Rest()), old(reader.pos), old(sent), NEW_SESSION, EMPTY_OBJECT, DecodeNewSession, r)
    {
      var resp := Call(NEW_SESSION, EMPTY_OBJECT, DecodeNewSession);
      r := IoResult(resp);
    }

    method Refresh() returns (r: Result<(), IoError>)
      requires Valid()
      modifies this, reader, writer
      ensures Valid()
      ensures Exchanged(old(reader.Rest()), old(reader.pos), old(sent), Ascii("refresh"), EMPTY_OBJECT, DecodeEmpty, r)
    {
      var resp := Call(Ascii("refresh"), EMPTY_OBJECT, DecodeEmpty);
      r := IoResult(resp);
    }

    method GoBack() returns (r: Result<(), IoError>)
      requires Valid()
      modifies this, reader, writer
      ensures Valid()
      ensures Exchanged(old(reader.Rest()), old(reader.pos), old(sent), Ascii("goBack"), EMPTY_OBJECT, DecodeEmpty, r)
    {
      var resp := Call(Ascii("goBack"), EMPTY_OBJECT, DecodeEmpty);
      r := IoResult(resp);
    }

    method GoForward() returns (r: Result<(), IoError>)
      requires Valid()
      modifies this, reader, writer
      ensures Valid()
      ensures Exchanged(old(reader.Rest()), old(reader.pos), old(sent), Ascii("goForward"), EMPTY_OBJECT, DecodeEmpty, r)
    {
      var resp := Call(Ascii("goForward"), EMPTY_OBJECT, DecodeEmpty);
      r := IoResult(resp);
    }

    method GetTitle() returns (r: Result<Text, IoError>)
      requires Valid()
      modifies this, reader, writer
      ensures Valid()
      ensures Exchanged(old(reader.Rest()), old(reader.pos), old(sent), Ascii("getTitle"), EMPTY_OBJECT, ValueOf(DecodeString), r)
    {
      var resp := Call(Ascii("getTitle"), EMPTY_OBJECT, ValueOf(DecodeString));
      r := IoResult(resp);
    }

    /** Navigates to `url`, sent as `{"url": url}`. */
    method Get(url: Text) returns (r: Result<(), IoError>)
      requires Valid()
      modifies this, reader, writer
      ensures Valid()
      ensures Exchanged(old(reader.Rest()), old(reader.pos), old(sent), Ascii("get"), GetCommandJson(GetCommand(url)), DecodeEmpty, r)
    {
      var resp := Call(Ascii("get"), GetCommandJson(GetCommand(url)), DecodeEmpty);
      r := IoResult(resp);
    }

    method GetUrl() returns (r: Result<Text, IoError>)
      requires Valid()
      modifies this, reader, writer
      ensures Valid()
      ensures Exchanged(old(reader.Rest()), old(reader.pos), old(sent), Ascii("getCurrentUrl"), EMPTY_OBJECT, ValueOf(DecodeString), r)
    {
      var resp := Call(Ascii("getCurrentUrl"), EMPTY_OBJECT, ValueOf(DecodeString));
      r := IoResult(resp);
    }

    method GetWindowHandle() returns (r: Result<WindowHandle, IoError>)
      requires Valid()
      modifies this, reader, writer
      ensures Valid()
      ensures Exchanged(old(reader.Rest()), old(reader.pos), old(sent), Ascii("getWindowHandle"), EMPTY_OBJECT, ValueOf(serde.decodeWindowHandle), r)
    {
      var resp := Call(Ascii("getWindowHandle"), EMPTY_OBJECT, ValueOf(serde.decodeWindowHandle));
      r := IoResult(resp);
    }

    /** The handles come back as a bare array, not wrapped in `{"value": ...}`. */
    method GetWindowHandles() returns (r: Result<seq<WindowHandle>, IoError>)
      requires Valid()
      modifies this, reader, writer
      ensures Valid()
      ensures Exchanged(old(reader.Rest()), old(reader.pos), old(sent), Ascii("getWindowHandles"), EMPTY_OBJECT, VecOf(serde.decodeWindowHandle), r)
    {
      var resp := Call(Ascii("getWindowHandles"), EMPTY_OBJECT, VecOf(serde.decodeWindowHandle));
      r := IoResult(resp);
    }

    method SwitchToWindow(win: WindowHandle) returns (r: Result<(), IoError>)
      requires Valid()
      modifies this, reader, writer
      ensures Valid()
      ensures Exchanged(old(reader.Rest()), old(reader.pos), old(sent), Ascii("switchToWindow"), serde.windowHandle(win), DecodeEmpty, r)
    {
      var resp := Call(Ascii("switchToWindow"), serde.windowHandle(win), DecodeEmpty);
      r := IoResult(resp);
    }

    /** The context name the server answers is mapped by `ContextFromValue`. */
    method GetContext() returns (r: Result<Context, IoError>)
      requires Valid()
      modifies this, reader, writer
      ensures Valid()
      ensures var a := Await(old(reader.Rest()), old(msgid), serde, serde.decodeContextValue);
        sent == old(sent) + [Request(old(msgid), Ascii("getContext"), EMPTY_OBJECT)] &&
        reader.pos == old(reader.pos) + a.consumed &&
        r == (match a.result case Ok(cv) => ContextFromValue(cv) case Err(e) => Err(IntoErr(e)))
    {
      var resp := Call(Ascii("getContext"), EMPTY_OBJECT, serde.decodeContextValue);
      if resp.Err? {
        return Err(IntoErr(resp.error));
      }
      r := ContextFromValue(resp.value);
    }

    method SetContext(ctx: Context) returns (r: Result<(), IoError>)
      requires Valid()
      modifies this, reader, writer
      ensures Valid()
      ensures Exchanged(old(reader.Rest()), old(reader.pos), old(sent), Ascii("setContext"), serde.contextValue(ContextToValue(ctx)), DecodeEmpty, r)
    {
      var resp := Call(Ascii("setContext"), serde.contextValue(ContextToValue(ctx)), DecodeEmpty);
      r := IoResult(resp);
    }

    /** `script` is the serialised `Script` argument; the answer is any JSON value. */
    method ExecuteScript(script: Json) returns (r: Result<Json, IoError>)
      requires Valid()
      modifies this, reader, writer
      ensures Valid()
      ensures Exchanged(old(reader.Rest()), old(reader.pos), old(sent), Ascii("executeScript"), script, ValueOf(ANY_VALUE), r)
    {
      var resp := Call(Ascii("executeScript"), script, ValueOf(ANY_VALUE));
      r := IoResult(resp);
    }

    method GetPageSource() returns (r: Result<Text, IoError>)
      requires Valid()
      modifies this, reader, writer
      ensures Valid()
      ensures Exchanged(old(reader.Rest()), old(reader.pos), old(sent), Ascii("getPageSource"), EMPTY_OBJECT, ValueOf(DecodeString), r)
    {
      var resp := Call(Ascii("getPageSource"), EMPTY_OBJECT, ValueOf(DecodeString));
      r := IoResult(resp);
    }

    /** Elements matching `target`, searched inside `inside` when one is given. */
    method FindElements(using: QueryMethod, target: Text, inside: Option<ElementRef>) returns (r: Result<seq<ElementRef>, IoError>)
      requires Valid()
      modifies this, reader, writer
      ensures Valid()
      ensures Exchanged(old(reader.Rest()), old(reader.pos), old(sent), Ascii("findElements"),
        serde.findQuery(FindElementQuery(target, using, if inside.Some? then Some(inside.value.reference) else None)),
        VecOf(serde.decodeElementRef), r)
    {
      var query := FindElementQuery(target, using, if inside.Some? then Some(inside.value.reference) else None);
      var resp := Call(Ascii("findElements"), serde.findQuery(query), VecOf(serde.decodeElementRef));
      r := IoResult(resp);
    }

    method GetElementAttribute(elem: ElementRef, name: Text) returns (r: Result<Text, IoError>)
      requires Valid()
      modifies this, reader, writer
      ensures Valid()
      ensures Exchanged(old(reader.Rest()), old(reader.pos), old(sent), Ascii("getElementAttribute"),
        serde.elementOp(ElementOp(elem.reference, Some(name))), ValueOf(DecodeString), r)
    {
      var resp := Call(Ascii("getElementAttribute"), serde.elementOp(ElementOp(elem.reference, Some(name))), ValueOf(DecodeString));
      r := IoResult(resp);
    }

    method GetElementProperty(elem: ElementRef, name: Text) returns (r: Result<Json, IoError>)
      requires Valid()
      modifies this, reader, writer
      ensures Valid()
      ensures Exchanged(old(reader.Rest()), old(reader.pos), old(sent), Ascii("getElementProperty"),
        serde.elementOp(ElementOp(elem.reference, Some(name))), ValueOf(ANY_VALUE), r)
    {
      var resp := Call(Ascii("getElementProperty"), serde.elementOp(ElementOp(elem.reference, Some(name))), ValueOf(ANY_VALUE));
      r := IoResult(resp);
    }

    method GetElementText(elem: ElementRef) returns (r: Result<Text, IoError>)
      requires Valid()
      modifies this, reader, writer
      ensures Valid()
      ensures Exchanged(old(reader.Rest()), old(reader.pos), old(sent), Ascii("getElementText"),
        serde.elementOp(ElementOp(elem.reference, None)), ValueOf(DecodeString), r)
    {
      var resp := Call(Ascii("getElementText"), serde.elementOp(ElementOp(elem.reference, None)), ValueOf(DecodeString));
      r := IoResult(resp);
    }

    /** Closes the application; the connection is not used afterwards. */
    method Quit() returns (r: Result<(), IoError>)
      requires Valid()
      modifies this, reader, writer
      ensures Valid()
      ensures Exchanged(old(reader.Rest()), old(reader.pos), old(sent), Ascii("quitApplication"), EMPTY_OBJECT, DecodeEmpty, r)
    {
      var resp := Call(Ascii("quitApplication"), EMPTY_OBJECT, DecodeEmpty);
      r := IoResult(resp);
    }
  }

  /** An element reference bound to the connection it came from; every operation is the connection's own. */
  class Element {
    const connection: Connection
    const id: ElementRef

    constructor (connection: Connection, element: ElementRef)
      ensures this.connection == connection && id == element
    {
      this.connection := connection;
      id := element;
    }

    method Attr(name: Text) returns (r: Result<Text, IoError>)
      requires connection.Valid()
      modifies connection, connection.reader, connection.writer
      ensures connection.Valid()
      ensures connection.Exchanged(old(connection.reader.Rest()), old(connection.reader.pos), old(connection.sent),
        Ascii("getElementAttribute"), connection.serde.elementOp(ElementOp(id.reference, Some(name))), ValueOf(DecodeString), r)
    {
      r := connection.GetElementAttribute(id, name);
    }

    method Property(name: Text) returns (r: Result<Json, IoError>)
      requires connection.Valid()
      modifies connection, connection.reader, connection.writer
      ensures connection.Valid()
      ensures connection.Exchanged(old(connection.reader.Rest()), old(connection.reader.pos), old(connection.sent),
        Ascii("getElementProperty"), connection.serde.elementOp(ElementOp(id.reference, Some(name))), ValueOf(ANY_VALUE), r)
    {
      r := connection.GetElementProperty(id, name);
    }

    method Text() returns (r: Result<Text, IoError>)
      requires connection.Valid()
      modifies connection, connection.reader, connection.writer
      ensures connection.Valid()
      ensures connection.Exchanged(old(connection.reader.Rest()), old(connection.reader.pos), old(connection.sent),
        Ascii("getElementText"), connection.serde.elementOp(ElementOp(id.reference, None)), ValueOf(DecodeString), r)
    {
      r := connection.GetElementText(id);
    }

    method FindElements(using: QueryMethod, target: Text) returns (r: Result<seq<ElementRef>, IoError>)
      requires connection.Valid()
      modifies connection, connection.reader, connection.writer
      ensures connection.Valid()
      ensures connection.Exchanged(old(connection.reader.Rest()), old(connection.reader.pos), old(connection.sent),
        Ascii("findElements"), connection.serde.findQuery(FindElementQuery(target, using, Some(id.reference))),
        VecOf(connection.serde.decodeElementRef), r)
    {
      r := connection.FindElements(using, target, Some(id));
    }
  }
}
