/**
 * The message shapes of the Marionette client (marionette/src/messages.rs),
 * with serde's derived behaviour for them written out: a struct decodes from
 * a JSON object holding each of its fields (unknown keys are ignored) or from
 * an array holding exactly its fields in declaration order.
 *
 * The element, window, context and query types are used by the client but
 * their definitions are not part of this model; they are kept as the
 * identifiers they carry, and their serde impls are fields of `Serde`.
 */
module Messages {
  import opened Wrappers
  import opened Bytes
  import opened Json

  /** The greeting the server sends on connect. */
  datatype ServerInfo = ServerInfo(marionetteProtocol: nat)

  /** The error slot of a failed response. */
  datatype ErrorObject = ErrorObject(error: Text, message: Text, stacktrace: Text)

  datatype NewSessionResponse = NewSessionResponse(sessionId: Text)

  /** `GetCommand::from(url)`: the argument of the navigation command. */
  datatype GetCommand = GetCommand(url: Text)

  datatype ElementRef = ElementRef(reference: Text)
  datatype WindowHandle = WindowHandle(id: Text)
  datatype ContextValue = ContextValue(value: Text)
  datatype QueryMethod = Id | Name | ClassName | TagName | CssSelector | LinkText | PartialLinkText | XPath
  datatype ElementOp = ElementOp(id: Text, name: Option<Text>)
  datatype FindElementQuery = FindElementQuery(value: Text, using: QueryMethod, element: Option<Text>)

  /**
   * serde_json as the client uses it: text encoding and decoding of JSON
   * values, and the serde impls of the types whose definitions are not
   * part of this model.
   */
  datatype Serde = Serde(
    render: Json -> Text,
    parse: Text -> Result<Json, JsonError>,
    windowHandle: WindowHandle -> Json,
    decodeWindowHandle: Json -> Result<WindowHandle, JsonError>,
    decodeElementRef: Json -> Result<ElementRef, JsonError>,
    contextValue: ContextValue -> Json,
    decodeContextValue: Json -> Result<ContextValue, JsonError>,
    elementOp: ElementOp -> Json,
    findQuery: FindElementQuery -> Json)

  /** The value of field number `pos` (named `name`) of a struct with `n` fields. */
  function StructField(v: Json, name: Text, pos: nat, n: nat): (r: Result<Json, JsonError>)
    requires pos < n
    ensures r.Ok? <==> (v.Object? && name in v.fields) || (v.Array? && |v.elems| == n)
    ensures r.Ok? && v.Object? ==> r.value == v.fields[name]
    ensures r.Ok? && v.Array? ==> r.value == v.elems[pos]
  {
    match v
    case Object(fields) => if name in fields then Ok(fields[name]) else Err(MissingField(name))
    case Array(elems) => if |elems| == n then Ok(elems[pos]) else Err(InvalidLength(|elems|))
    case _ => Err(InvalidType)
  }

  function DecodeString(v: Json): (r: Result<Text, JsonError>)
    ensures r.Ok? <==> v.Str?
    ensures r.Ok? ==> r.value == v.s
  {
    if v.Str? then Ok(v.s) else Err(InvalidType)
  }

  function DecodeU64(v: Json): (r: Result<nat, JsonError>)
    ensures r.Ok? <==> AsU64(v).Some?
    ensures r.Ok? ==> Int(r.value) == v
  {
    match AsU64(v)
    case Some(n) => Ok(n)
    case None => Err(InvalidType)
  }

  /** Deserialize for `ServerInfo`. */
  function DecodeServerInfo(v: Json): (r: Result<ServerInfo, JsonError>)
    ensures r.Ok? ==> r.value.marionetteProtocol <= USIZE_MAX
    ensures v.Object? ==> (r.Ok? <==> Ascii("marionetteProtocol") in v.fields && AsU64(v.fields[Ascii("marionetteProtocol")]).Some?)
    ensures r.Ok? && v.Object? ==> Int(r.value.marionetteProtocol) == v.fields[Ascii("marionetteProtocol")]
  {
    match StructField(v, Ascii("marionetteProtocol"), 0, 1)
    case Err(e) => Err(e)
    case Ok(p) =>
      match DecodeU64(p)
      case Err(e) => Err(e)
      case Ok(n) => Ok(ServerInfo(n))
  }

  /** Deserialize for `ErrorObject`: three string fields, none optional. */
  function DecodeErrorObject(v: Json): (r: Result<ErrorObject, JsonError>)
    ensures r.Ok? ==> v.Object? || (v.Array? && |v.elems| == 3)
    ensures v.Object? ==>
      (r.Ok? <==> (forall k :: k in {Ascii("error"), Ascii("message"), Ascii("stacktrace")} ==> k in v.fields && v.fields[k].Str?))
    ensures r.Ok? && v.Object? ==>
      r.value == ErrorObject(v.fields[Ascii("error")].s, v.fields[Ascii("message")].s, v.fields[Ascii("stacktrace")].s)
  {
    match StructField(v, Ascii("error"), 0, 3)
    case Err(e) => Err(e)
    case Ok(e0) =>
      match DecodeString(e0)
      case Err(e) => Err(e)
      case Ok(error) =>
        match StructField(v, Ascii("message"), 1, 3)
        case Err(e) => Err(e)
        case Ok(e1) =>
          match DecodeString(e1)
          case Err(e) => Err(e)
          case Ok(message) =>
            match StructField(v, Ascii("stacktrace"), 2, 3)
            case Err(e) => Err(e)
            case Ok(e2) =>
              match DecodeString(e2)
              case Err(e) => Err(e)
              case Ok(stacktrace) => Ok(ErrorObject(error, message, stacktrace))
  }

  function DecodeNewSession(v: Json): (r: Result<NewSessionResponse, JsonError>)
    ensures v.Object? ==> (r.Ok? <==> Ascii("sessionId") in v.fields && v.fields[Ascii("sessionId")].Str?)
    ensures r.Ok? && v.Object? ==> r.value.sessionId == v.fields[Ascii("sessionId")].s
    ensures r.Ok? && v.Array? ==> |v.elems| == 1 && v.elems[0] == Str(r.value.sessionId)
  {
    match StructField(v, Ascii("sessionId"), 0, 1)
    case Err(e) => Err(e)
    case Ok(s) =>
      match DecodeString(s)
      case Err(e) => Err(e)
      case Ok(id) => Ok(NewSessionResponse(id))
  }

  /** Deserialize for `Empty {}`: any object, or the empty array; nothing else. */
  function DecodeEmpty(v: Json): (r: Result<(), JsonError>)
    ensures r.Ok? <==> v.Object? || v == Array([])
  {
    match v
    case Object(_) => Ok(())
    case Array(elems) => if elems == [] then Ok(()) else Err(InvalidLength(|elems|))
    case _ => Err(InvalidType)
  }

  /** Deserialize for `ResponseValue<T>`, giving the inner `value` itself. */
  function DecodeResponseValue<T>(v: Json, inner: Json -> Result<T, JsonError>): (r: Result<T, JsonError>)
    ensures v.Object? ==> (r.Ok? ==> Ascii("value") in v.fields && r == inner(v.fields[Ascii("value")]))
    ensures v.Object? && Ascii("value") in v.fields ==> r == inner(v.fields[Ascii("value")])
    ensures !v.Object? && !v.Array? ==> r.Err?
  {
    match StructField(v, Ascii("value"), 0, 1)
    case Err(e) => Err(e)
    case Ok(x) => inner(x)
  }

  /** The decoder of `ResponseValue<T>` for a given decoder of `T`. */
  function ValueOf<T>(inner: Json -> Result<T, JsonError>): Json -> Result<T, JsonError>
  {
    v => DecodeResponseValue(v, inner)
  }

  /** The decoder of `Vec<T>` for a given decoder of `T`. */
  function VecOf<T>(elem: Json -> Result<T, JsonError>): Json -> Result<seq<T>, JsonError>
  {
    v => DecodeVec(v, elem)
  }

  /** Deserialize for `serde_json::Value`: every value is accepted as it is. */
  const ANY_VALUE: Json -> Result<Json, JsonError> := (v: Json) => Ok(v)

  /** Deserialize for `Vec<T>`: an array whose every element decodes, in order. */
  function DecodeVec<T>(v: Json, elem: Json -> Result<T, JsonError>): (r: Result<seq<T>, JsonError>)
    ensures r.Ok? ==> v.Array? && |r.value| == |v.elems|
    ensures r.Ok? ==> forall i :: 0 <= i < |v.elems| ==> elem(v.elems[i]) == Ok(r.value[i])
  {
    if !v.Array? then Err(InvalidType) else DecodeElems(v.elems, elem)
  }

  function DecodeElems<T>(xs: seq<Json>, elem: Json -> Result<T, JsonError>): (r: Result<seq<T>, JsonError>)
    ensures r.Ok? ==> |r.value| == |xs|
    ensures r.Ok? ==> forall i :: 0 <= i < |xs| ==> elem(xs[i]) == Ok(r.value[i])
    ensures (forall i :: 0 <= i < |xs| ==> elem(xs[i]).Ok?) ==> r.Ok?
    decreases |xs|
  {
    if xs == [] then Ok([])
    else match elem(xs[0])
      case Err(e) => Err(e)
      case Ok(x) =>
        match DecodeElems(xs[1..], elem)
        case Err(e) => Err(e)
        case Ok(rest) =>
          assert forall i :: 1 <= i < |xs| ==> xs[i] == xs[1..][i - 1];
          Ok([x] + rest)
  }

  /** Serialize for `GetCommand`: `{"url": url}`. */
  function GetCommandJson(c: GetCommand): (v: Json)
    ensures v.Object? && v.fields.Keys == {Ascii("url")}
    ensures DecodeString(v.fields[Ascii("url")]) == Ok(c.url)
  {
    Object(map[Ascii("url") := Str(c.url)])
  }

  /** The error object a server sends, as an object with the three fields. */
  function ErrorObjectJson(e: ErrorObject): Json
  {
    Object(map[Ascii("error") := Str(e.error), Ascii("message") := Str(e.message), Ascii("stacktrace") := Str(e.stacktrace)])
  }

  lemma ErrorObjectRoundTrip(e: ErrorObject)
    ensures DecodeErrorObject(ErrorObjectJson(e)) == Ok(e)
  {
    var v := ErrorObjectJson(e);
    assert Ascii("error") != Ascii("message") by { assert Ascii("error")[0] != Ascii("message")[0]; }
    assert Ascii("error") != Ascii("stacktrace") by { assert Ascii("error")[0] != Ascii("stacktrace")[0]; }
    assert Ascii("message") != Ascii("stacktrace") by { assert Ascii("message")[0] != Ascii("stacktrace")[0]; }
    assert v.fields[Ascii("error")] == Str(e.error);
    assert v.fields[Ascii("message")] == Str(e.message);
  }
}
