# ffcli in Dafny

A verified model of the core of `ffcli`, a command-line tool that drives a running
Firefox. The tool talks to Firefox over two wire protocols, and the model covers both:

- the **Marionette** protocol: length-prefixed JSON frames `len:payload`. It covers the
  greeting and protocol-version gate, message ids, and request/response correlation by
  message id. It also covers the decoding of replies into typed messages
  (`ServerInfo`, `ErrorObject`, `ResponseValue`, `Empty`, `NewSessionResponse`), the
  `GetCommand` argument of `get`, the mapping of call errors to I/O errors, and the window, frame and
  element commands built on `call`.
- the **Firefox remote debugging protocol** (`remotemozdbg`): JSON packets `len:json`
  and bulk packets `bulk actor type len:data`, read and written on a byte stream, and the
  `listTabs` request.

It also covers the `ff` command-line logic built on those commands:

- the retry loop that waits for a freshly started browser;
- the instance file that records a running instance;
- the arguments passed to the forked child;
- the walk over every frame of a page (`text`, `attr`, `property`, `exec`), including the
  rule that a non-fatal script error does not stop `exec`;
- printing JSON values;
- listing windows and restoring the selected one;
- switching window by handle or by index;
- the older traversal in `ff/src/bin/ff.rs`.

Layout (one module per file):

- `wrappers.dfy`: `Option` and `Result`.
- `bytes.dfy`: the `byte` type and Rust strings as valid UTF-8 byte sequences
  (`Text`). It also holds the decimal rendering and parsing of `usize`
  (`from_str`, which accepts a leading `+`), delimiter search and splitting.
- `json.dfy`: JSON values as a datatype. The text encoding (`serde_json`) is a pair of
  functions passed in as parameters.
- `io.dfy`: a byte reader over the bytes the peer will send, and a byte writer that
  records what was written (the socket).
- `messages.dfy`: the Marionette message structs and their serde decoding. It decodes both
  the object form and the sequence form that serde derive accepts.
- `framing.dfy`: `readframe` and `sendframe`.
- `marionette.dfy`: `MarionetteConnection` as a class (`Connection`) with its message-id
  counter, the request log and the reader. It holds `call`, `connect`, every command
  method and `Element`.
- `proto.dfy`: `Packet`, `readpacket`, `sendpacket` and `ListTabsRequest`.
- `instances.dfy`: `check_connection` and `create_instance_file`.
- `session.dfy`: the browser as the CLI sees it. It has a page whose frames form a tree,
  the selected window, and a failure oracle. A `Session` class holds the current frame, the
  call counter and the printed lines.
- `cli.dfy`: `ff/src/main.rs`, with `foreach_frame`, `foreach_element`, `print_json_value`,
  the element commands, `exec`, `windows`, `switch`, and the child arguments of `start`.
- `old_cli.dfy`: the frame traversal of `ff/src/bin/ff.rs`.

Every method that reads or changes state is proved equal to a specification function of
the old state. The properties are proved about those functions:

- round trips for frames, packets, contexts and instance files;
- correlation of responses by message id;
- the window being restored after `windows`;
- the exact pre-order output of the frame walk, and the frame being reset to the top
  afterwards.

## Model

| member | source | states |
|---|---|---|
| Bytes.DecimalString | marionette/src/lib.rs:387 | `format!("{}", n)` is a nonempty string of decimal digits. |
| Bytes.ParseUsize | marionette/src/lib.rs:374-375 | A successful `usize::from_str_radix` starts with a digit or `+` and fits in 64 bits; `ParseUsizeMeaning` gives the full grammar and value. |
| Bytes.ParseUsizeMeaning | marionette/src/lib.rs:374-375 | `usize::from_str_radix(s, 10)` succeeds iff, after one optional `+`, `s` is a nonempty run of decimal digits whose value fits in `usize`, and its value is then the value of those digits. |
| Bytes.ParseUsizePlus | marionette/src/lib.rs:374-375 | A leading `+` is accepted and does not change the value read. |
| Bytes.ParseDecimal | marionette/src/lib.rs:374-387 | Parsing the decimal rendering of any `n` up to `usize::MAX` gives back `n`. |
| Bytes.UntilDelim | marionette/src/lib.rs:366-368 | `read_until` returns a prefix of the input that ends at the first delimiter, or all the input if there is none. |
| Bytes.UntilDelimAfter | marionette/src/lib.rs:366-368 | `read_until` on `a + [d] + rest` with `d` not in `a` returns exactly `a + [d]`. |
| Json.AsU64 | marionette/src/messages.rs:8 | A JSON value reads as a `u64` exactly when it is an integer in `0..=u64::MAX`, and then it is that integer. |
| Io.ByteReader.ReadUntil | marionette/src/lib.rs:366-368 | Consumes and returns exactly `UntilDelim` of the remaining input. |
| Io.ByteReader.ReadExact | marionette/src/lib.rs:377-379 | `read_exact` returns the next `n` bytes, or fails with nothing usable when fewer remain. |
| Io.ByteWriter.WriteAll | marionette/src/lib.rs:386-389 | Appends the bytes to what was written. |
| Messages.StructField | marionette/src/messages.rs:7-41 | A derived struct field is found by name in an object or by position in a sequence of the struct's exact length. |
| Messages.DecodeString | marionette/src/messages.rs:20 | A JSON string decodes to its text; anything else is rejected. |
| Messages.DecodeU64 | marionette/src/messages.rs:8 | Accepts exactly the JSON integers in `u64` range, and the result renders back to the input. |
| Messages.DecodeServerInfo | marionette/src/messages.rs:6-9 | For an object, succeeds iff `marionetteProtocol` is present and a `u64`, with that value. |
| Messages.DecodeErrorObject | marionette/src/messages.rs:11-16 | Succeeds only on an object or a 3-element sequence; on an object, iff `error`, `message` and `stacktrace` are strings, and the fields are those strings. |
| Messages.DecodeNewSession | marionette/src/messages.rs:18-21 | For an object, succeeds iff `sessionId` is a string, and the session id is that string; the sequence form is a one-element sequence holding it. |
| Messages.DecodeEmpty | marionette/src/messages.rs:23-24 | `Empty` accepts exactly an object or an empty sequence. |
| Messages.DecodeResponseValue | marionette/src/messages.rs:26-31 | For an object, the result is the inner decoder applied to the `value` field; a scalar is rejected. |
| Messages.DecodeVec | marionette/src/lib.rs:219-222 | A `Vec` decodes from an array of the same length, element by element. |
| Messages.DecodeElems | marionette/src/lib.rs:219-222 | Succeeds iff every element decodes, and the results line up with the elements. |
| Messages.GetCommandJson | marionette/src/messages.rs:33-41 | `GetCommand` serializes to an object with the single key `url`, which decodes back to the url. |
| Messages.ErrorObjectRoundTrip | marionette/src/messages.rs:11-16 | Decoding the serialized form of any `ErrorObject` gives it back. |
| Framing.FrameIoError | marionette/src/lib.rs:364-382 | A truncated payload maps to `UnexpectedEof` and every other framing failure to `InvalidData`. |
| Framing.ParseFrameAsWritten | marionette/src/lib.rs:364-382 | `readframe` as written consumes at least one byte of a nonempty input and never more than the input. |
| Framing.ParseFrame | marionette/src/lib.rs:364-382 | The corrected `readframe`: an empty input is an `EmptyFrame` error; consumption is bounded as above. |
| Framing.SendFrame | marionette/src/lib.rs:385-390 | `sendframe` writes exactly `EncodeFrame(data)`: the decimal length, `:`, and the payload. |
| Framing.ReadFrame | marionette/src/lib.rs:364-382 | The corrected `readframe` of the Findings table: reads exactly what `ParseFrame` consumes and returns its result. |
| Framing.FrameRoundTrip | marionette/src/lib.rs:364-390 | Reading a frame that was sent returns the payload and consumes exactly the frame, whatever follows it. |
| Framing.AcceptedFrameIsWellFormed | marionette/src/lib.rs:364-382 | An accepted frame is the decimal length of the payload, `:`, and the payload. |
| Framing.AsWrittenAcceptsMissingDelimiter | marionette/src/lib.rs:365-375 | `readframe` as written accepts `00`, which has no `:`, as an empty frame of 2 bytes; the corrected reader rejects it. |
| Framing.AsWrittenAgreesWithDelimiter | marionette/src/lib.rs:364-382 | When the input contains `:`, the as-written and the corrected reader agree. |
| Framing.BadLengthRejected | marionette/src/lib.rs:372-375 | A length prefix that does not parse as `usize` makes the frame an error. |
| Framing.ShortPayloadRejected | marionette/src/lib.rs:377-379 | For every announced length `n` up to `usize::MAX` and every payload shorter than `n`, the frame is a `Truncated` error. |
| Marionette.IntoErr | marionette/src/lib.rs:38-46 | I/O errors pass through; JSON errors become `InvalidData` wrapping the cause; a server error becomes `Other` with the error and message text; protocol violations become "Invalid response message". |
| Marionette.ContextToValue | marionette/src/lib.rs:354-360 | A context becomes one of the two wire names `chrome` and `content`. It is the inverse of `ContextFromValue` in both directions (`ContextRoundTrip`, `ContextValueRoundTrip`). |
| Marionette.ContextFromValue | marionette/src/lib.rs:345-351 | `chrome` and `content` map to their contexts, and any other value is an `InvalidData` error. |
| Marionette.ContextRoundTrip | marionette/src/lib.rs:344-360 | Converting a context to its value and back is the identity. |
| Marionette.ContextValueRoundTrip | marionette/src/lib.rs:344-360 | An accepted context value converts back to itself. |
| Marionette.Correlate | marionette/src/lib.rs:113-151 | A message that is not `[1, …]` is an unexpected type. A non-integer id is an invalid id. Another id is skipped. A null error with a result slot carries that result. A server error is the decoded error object of our own response. Every other failure is a protocol violation. |
| Marionette.CorrelateFailures | marionette/src/lib.rs:135-147 | For our id: exactly two slots, or a null error with no result slot, is `InvalidResponseArray`. A non-null error that does not decode is `InvalidErrorObject`. A non-null error that decodes is the server's error, carrying the decoded object. Each is an if-and-only-if. |
| Marionette.ResponseCorrelates | marionette/src/lib.rs:110-152 | A response with another id is skipped; ours yields its result or its error. |
| Marionette.RequestIsNotResponse | marionette/src/lib.rs:100-121 | A request echoed back (type 0) is rejected as an unexpected type. |
| Marionette.NextMessage | marionette/src/lib.rs:111-113 | A message read is a complete frame, read by the corrected `ParseFrame`, whose payload parses as that JSON; it consumes exactly the bytes of that frame read, whether the message parses or not. |
| Marionette.Await | marionette/src/lib.rs:110-152 | The response loop never consumes more than the input. |
| Marionette.AwaitStep | marionette/src/lib.rs:110-152 | The one-step unfolding of `Await` that the loop of `AwaitResponse` relies on: a skipped message is consumed and the wait continues on the rest. |
| Marionette.AwaitSkips | marionette/src/lib.rs:117-121 | A frame carrying another id is skipped. |
| Marionette.AwaitAnswers | marionette/src/lib.rs:122-148 | A frame carrying our id ends the loop with its decoded value. |
| Marionette.AwaitCorrelates | marionette/src/lib.rs:110-152 | A stale response followed by ours yields ours, consuming both frames. |
| Marionette.Greeting | marionette/src/lib.rs:74-77 | The greeting read never consumes more than the input. |
| Marionette.ProtocolGate | marionette/src/lib.rs:78-89 | Only protocol version 3 is accepted; any other version is an `InvalidData` error. |
| Marionette.Connection.constructor | marionette/src/lib.rs:79-83 | A new connection starts with message id 0 and nothing sent. |
| Marionette.Connection.NextMsgId | marionette/src/lib.rs:92-96 | Returns the current id and increments it. |
| Marionette.Connection.ReadMessage | marionette/src/lib.rs:111-113 | Reads one frame with the corrected reader and parses it as `NextMessage` says. |
| Marionette.Connection.SendRequest | marionette/src/lib.rs:100-108 | Sends `[0, id, name, args]` under the next id, which is then incremented. |
| Marionette.Connection.AwaitResponse | marionette/src/lib.rs:110-152 | The loop returns `Await`'s result and consumes exactly what it consumes. |
| Marionette.Connection.Call | marionette/src/lib.rs:98-153 | Sends one request under the current id and returns the correlated, decoded response. |
| Marionette.Connection.Connect | marionette/src/lib.rs:71-90 | A bad greeting or a protocol other than 3 fails. Otherwise the connection opens a session with message id 0, and succeeds iff that call does. |
| Marionette.Connection.NewSession | marionette/src/lib.rs:156-159 | One `newSession` call with an empty object, decoded as `NewSessionResponse`. |
| Marionette.Connection.Refresh | marionette/src/lib.rs:162-165 | One `refresh` call expecting `Empty`. |
| Marionette.Connection.GoBack | marionette/src/lib.rs:168-171 | One `goBack` call expecting `Empty`. |
| Marionette.Connection.GoForward | marionette/src/lib.rs:174-177 | One `goForward` call expecting `Empty`. |
| Marionette.Connection.GetTitle | marionette/src/lib.rs:180-183 | One `getTitle` call returning the string in `value`. |
| Marionette.Connection.Get | marionette/src/lib.rs:186-192 | One `get` call carrying `{url}`. |
| Marionette.Connection.GetUrl | marionette/src/lib.rs:195-198 | One `getCurrentUrl` call returning the string in `value`. |
| Marionette.Connection.GetWindowHandle | marionette/src/lib.rs:213-216 | One `getWindowHandle` call returning the handle in `value`. |
| Marionette.Connection.GetWindowHandles | marionette/src/lib.rs:219-222 | One `getWindowHandles` call returning the decoded handle array: the bare result, with no `value` wrapper. |
| Marionette.Connection.SwitchToWindow | marionette/src/lib.rs:225-228 | One `switchToWindow` call carrying the handle. |
| Marionette.Connection.GetContext | marionette/src/lib.rs:230-233 | One `getContext` call whose value is converted by `Context::from_value`. |
| Marionette.Connection.SetContext | marionette/src/lib.rs:235-239 | One `setContext` call carrying the context's value. |
| Marionette.Connection.ExecuteScript | marionette/src/lib.rs:244-247 | One `executeScript` call returning the JSON in `value`. |
| Marionette.Connection.GetPageSource | marionette/src/lib.rs:250-253 | One `getPageSource` call returning the string in `value`. |
| Marionette.Connection.FindElements | marionette/src/lib.rs:256-264 | One `findElements` call with the query and optional root element. |
| Marionette.Connection.GetElementAttribute | marionette/src/lib.rs:266-273 | One `getElementAttribute` call returning the string in `value`. |
| Marionette.Connection.GetElementProperty | marionette/src/lib.rs:275-282 | One `getElementProperty` call returning the JSON in `value`. |
| Marionette.Connection.GetElementText | marionette/src/lib.rs:284-291 | One `getElementText` call returning the string in `value`. |
| Marionette.Connection.Quit | marionette/src/lib.rs:294-297 | One `quitApplication` call expecting `Empty`. |
| Marionette.Element.constructor | marionette/src/lib.rs:307-312 | An element borrows the connection and keeps its reference. |
| Marionette.Element.Attr | marionette/src/lib.rs:315-317 | Exactly the connection's `getElementAttribute` call for this element. |
| Marionette.Element.Property | marionette/src/lib.rs:320-322 | Exactly the connection's `getElementProperty` call for this element. |
| Marionette.Element.Text | marionette/src/lib.rs:325-327 | Exactly the connection's `getElementText` call for this element. |
| Marionette.Element.FindElements | marionette/src/lib.rs:330-332 | Exactly the connection's `findElements` call rooted at this element. |
| DebugProtocol.ParseBulkHeader | remotemozdbg/src/proto.rs:45-75 | A bulk header is accepted iff it has at least four space-separated words, the first `bulk`, the next three UTF-8, the fourth a `usize`; any further words are ignored. Actor, type and length are the second to fourth words, and every rejection is `InvalidData`. |
| DebugProtocol.ParseJsonBody | remotemozdbg/src/proto.rs:82-97 | The corrected JSON branch succeeds iff the payload parses as JSON, with that value. |
| DebugProtocol.ParseBulkBody | remotemozdbg/src/proto.rs:44-80 | The bulk branch never consumes more than the input. |
| DebugProtocol.ParseJsonPayload | remotemozdbg/src/proto.rs:82-97 | The JSON branch never consumes more than the input. |
| DebugProtocol.ParsePacketWith | remotemozdbg/src/proto.rs:36-99 | An empty input is an error; consumption is bounded. |
| DebugProtocol.ParsePacketAsWritten | remotemozdbg/src/proto.rs:36-99 | `readpacket` as written never consumes more than its input. |
| DebugProtocol.ParsePacket | remotemozdbg/src/proto.rs:36-99 | The corrected `readpacket` rejects the empty input and accepts only input holding `:`. |
| DebugProtocol.ReadBulkBody | remotemozdbg/src/proto.rs:44-80 | Reads exactly what `ParseBulkBody` consumes and returns its result. |
| DebugProtocol.ReadJsonPayload | remotemozdbg/src/proto.rs:82-97 | The corrected JSON branch (payload parsed as JSON): reads exactly what `ParseJsonPayload` consumes and returns its result. |
| DebugProtocol.ReadPacket | remotemozdbg/src/proto.rs:36-99 | The corrected `readpacket` of the Findings table: reads exactly what `ParsePacket` consumes and returns its result. |
| DebugProtocol.SendPacket | remotemozdbg/src/proto.rs:102-117 | `sendpacket` writes exactly `EncodePacket(p)`. |
| DebugProtocol.ListTabsRequest | remotemozdbg/src/proto.rs:127-139 | The request is `{"to": "root", "type": "listTabs"}` and nothing else. |
| DebugProtocol.BulkHeaderWords | remotemozdbg/src/proto.rs:45-75 | A header built from `bulk`, actor, type and length splits back into those words. |
| DebugProtocol.BulkLayout | remotemozdbg/src/proto.rs:111-114 | A sent bulk packet is `bulk actor type len:data`. |
| DebugProtocol.BulkBodyRoundTrip | remotemozdbg/src/proto.rs:44-80 | The bulk branch reads back the actor, type and data that were written. |
| DebugProtocol.BulkRoundTrip | remotemozdbg/src/proto.rs:36-117 | `readpacket` returns any bulk packet `sendpacket` wrote (space- and colon-free actor and type), consuming exactly it. |
| DebugProtocol.LengthPrefixIsNotBulk | remotemozdbg/src/proto.rs:44-81 | A JSON packet's length prefix never starts with `bulk`. |
| DebugProtocol.JsonPayloadRoundTrip | remotemozdbg/src/proto.rs:82-97 | The JSON branch reads back exactly the announced payload. |
| DebugProtocol.JsonLayout | remotemozdbg/src/proto.rs:106-110 | A sent JSON packet is `len:json`. |
| DebugProtocol.ParseDelimited | remotemozdbg/src/proto.rs:36-99 | On input holding `:`, the corrected parser is the shared parser with the JSON body decoded. |
| DebugProtocol.JsonRoundTrip | remotemozdbg/src/proto.rs:36-117 | The corrected `readpacket` returns any JSON packet `sendpacket` wrote, consuming exactly it. |
| DebugProtocol.BulkPacketExample | remotemozdbg/src/proto.rs:146-157 | Test `bulk_packet`: `bulk actor type 3:123` reads as that bulk packet, as written and corrected. |
| DebugProtocol.JsonAsWrittenIsString | remotemozdbg/src/proto.rs:81-98 | As written, every JSON packet reads back as its JSON text wrapped in a JSON string, consuming exactly its own bytes. |
| DebugProtocol.JsonPacketExample | remotemozdbg/src/proto.rs:159-170 | Test `json_packet`: as written, `2:{}` reads as the string `"{}"` rather than the empty object; the corrected reader yields the object. |
| DebugProtocol.PacketAsWrittenAcceptsMissingDelimiter | remotemozdbg/src/proto.rs:36-85 | `readpacket` as written accepts `00` (no `:`) as an empty JSON string; the corrected reader rejects it. |
| Instances.CheckConnection | ff/src/lib.rs:97-113 | Up to 4 attempts, sleeping `2*n` seconds before attempt `n`. It succeeds iff some attempt succeeds and stops at the first success, returning the last error after 4 failures. |
| Instances.InstanceRoot | ff/src/lib.rs:62-68 | Without a home directory, an `Other` error; otherwise `home/.ff/instances`. |
| Instances.CreateInstanceFile | ff/src/lib.rs:70-78 | Fails without a home directory or on a filesystem error. Otherwise it writes `home/.ff/instances/<port>` with the instance's port and name. |
| Instances.InstanceContentRoundTrip | ff/src/lib.rs:70-78 | The port and name can be read back from the file contents. |
| Instances.InstanceFilesDistinct | ff/src/lib.rs:70-78 | Instances on different ports have different files. |
| Browser.Reply | marionette/src/lib.rs:98-153 | One command costs one call; it fails iff the oracle fails that call, and otherwise returns the value. |
| Browser.FindFramesStep | ff/src/main.rs:175 | Finding `iframe, frame` yields one reference per child frame of the current frame, in document order. |
| Browser.SwitchToFrameStep | ff/src/main.rs:176 | One call. On success the current frame is the target, or the top frame for `None`. On failure it is unchanged, and the error is the oracle's or "no such frame" for a non-child target. |
| Browser.SwitchToParentFrameStep | ff/src/main.rs:178 | One call. On success the current frame is the parent (the top frame stays the top frame); on failure it is unchanged. |
| Browser.SwitchToWindowStep | marionette/src/lib.rs:225-228 | One call. On success the selected window is the target; on failure it is unchanged. |
| Browser.Session.constructor | ff/src/main.rs:393 | A new session starts at the top frame with nothing printed and no calls made. |
| Browser.Session.Call | marionette/src/lib.rs:98-153 | Behaves as `Reply`. |
| Browser.Session.FindMatches | ff/src/main.rs:187 | Behaves as `FindMatchesStep`. |
| Browser.Session.FindFrames | ff/src/main.rs:175 | Behaves as `FindFramesStep`. |
| Browser.Session.SwitchToFrame | ff/src/main.rs:176 | Behaves as `SwitchToFrameStep`. |
| Browser.Session.SwitchToParentFrame | ff/src/main.rs:178 | Behaves as `SwitchToParentFrameStep`. |
| Browser.Session.SwitchToWindow | ff/src/main.rs:160 | Behaves as `SwitchToWindowStep`. |
| Browser.Session.Print | ff/src/main.rs:162 | Appends the lines to the output. |
| Cli.StrLines | ff/src/main.rs:397-400 | A text is printed iff it is nonempty. |
| Cli.PrintJsonValue | ff/src/main.rs:193-201 | At most one line. With `--filter-str` only strings print, as their raw text. Otherwise everything but `null` prints, as JSON. |
| Cli.ScriptOutcome | ff/src/main.rs:458-462 | Script results print. A non-fatal error is tolerated and prints nothing, and only a fatal error stops `exec`, with that error. |
| Cli.ElementStep | ff/src/main.rs:396-402 | One element costs one call and prints the action's lines unless that call fails. |
| Cli.VisitElements | ff/src/main.rs:187-189 | The element loop keeps the frame and, without failures, prints each element's lines in order. |
| Cli.ForeachElementSpec | ff/src/main.rs:184-191 | Without failures, every match in the current frame is printed in order. |
| Cli.ScriptStep | ff/src/main.rs:452-463 | Without failures, prints the script's value in the current frame. |
| Cli.Visit | ff/src/main.rs:395-403 | Without failures, prints the current frame's lines. |
| Cli.Walk | ff/src/main.rs:172-181 | `foreach_frame` keeps the window, stops at the first error returned by its closure or by a protocol call, and on success ends in the frame it started from. |
| Cli.WalkChildren | ff/src/main.rs:175-179 | The child loop keeps the window and ends in the frame it started from. |
| Cli.ChildStep | ff/src/main.rs:176-178 | Switching into a child, walking it and switching to the parent returns to the frame it started from. |
| Cli.CommandSpec | ff/src/main.rs:392-405 | The command switches to the top frame, walks, and always ends at the top frame on success. |
| Cli.WalkPreorder | ff/src/main.rs:172-181 | Without failures, `foreach_frame` succeeds and prints the pre-order of the frame tree below the current frame. |
| Cli.WalkChildrenPreorder | ff/src/main.rs:175-179 | Without failures, the child loop prints the pre-order of the remaining children. |
| Cli.ChildStepPreorder | ff/src/main.rs:176-178 | Without failures, one child prints its subtree in pre-order. |
| Cli.CommandPreorder | ff/src/main.rs:392-405 | Without failures, `text`, `attr`, `property` and `exec` print the whole page in pre-order and end at the top frame. |
| Cli.ApplyToElement | ff/src/main.rs:396-402 | Behaves as `ElementStep`. |
| Cli.ForeachElement | ff/src/main.rs:184-191 | Behaves as `ForeachElementSpec`. |
| Cli.RunScriptHere | ff/src/main.rs:452-463 | Behaves as `ScriptStep`. |
| Cli.VisitFrame | ff/src/main.rs:395-403 | Behaves as `Visit`. |
| Cli.ForeachFrame | ff/src/main.rs:172-181 | Behaves as `Walk`. |
| Cli.VisitChildren | ff/src/main.rs:175-179 | Behaves as `WalkChildren`. |
| Cli.VisitChild | ff/src/main.rs:176-178 | Behaves as `ChildStep`. |
| Cli.RunCommand | ff/src/main.rs:392-466 | Behaves as `CommandSpec`. |
| Cli.WindowLines | ff/src/main.rs:159-163 | One line per window, in order, with its handle and title (identical in ff/src/bin/ff.rs:86-90). |
| Cli.WindowsLoop | ff/src/main.rs:159-163 | The window loop keeps the frame and, without failures, prints the remaining windows (identical in ff/src/bin/ff.rs:86-90). |
| Cli.WindowsSpec | ff/src/main.rs:156-167 | `windows` restores the previously selected window on success and, without failures, prints every window with its title. `cmd_windows` in ff/src/bin/ff.rs:83-94 is the same code. |
| Cli.CmdWindows | ff/src/main.rs:156-167 | Behaves as `WindowsSpec`; also models ff/src/bin/ff.rs:83-94, which is the same code. |
| Cli.Nth | ff/src/main.rs:499-501 | `drain(..).nth(idx)` is the handle at `idx`, and absent exactly when `idx` is out of range. |
| Cli.SwitchTo | ff/src/main.rs:506-507 | A failed switch is "Unable to switch window" and leaves the window unchanged. |
| Cli.SwitchSpec | ff/src/main.rs:492-508 | An unparsable index is rejected. On success the window is the handle at that index, or the handle parsed from the argument; on error it is unchanged. |
| Cli.CmdSwitch | ff/src/main.rs:492-508 | Behaves as `SwitchSpec`. |
| Cli.ChildArgs | ff/src/main.rs:97-102 | The child gets the original arguments, `--no-fork`, and `--port <n>` when no port was given. ff/src/bin/ff.rs:44-49 builds the same arguments. |
| Cli.ChildPortRoundTrip | ff/src/main.rs:99-101 | The `--port` value the child receives parses back to the port number. |
| OldCli.OldWalk | ff/src/bin/ff.rs:99-117 | The old traversal keeps the window, stays within the page, and stops at the first error. |
| OldCli.OldChildren | ff/src/bin/ff.rs:111-115 | The old child loop keeps the window and stops at the first error. |
| OldCli.OldChildStep | ff/src/bin/ff.rs:112-114 | After a child, the old traversal is at the top frame. |
| OldCli.OldCommandSpec | ff/src/bin/ff.rs:243-259 | The old commands keep the window and end at the top frame on success. |
| OldCli.GetElementData | ff/src/bin/ff.rs:99-137 | Behaves as `OldWalk`. |
| OldCli.GetFramesData | ff/src/bin/ff.rs:111-115 | Behaves as `OldChildren`. |
| OldCli.GetFrameData | ff/src/bin/ff.rs:112-114 | Behaves as `OldChildStep`. |
| OldCli.OldRunCommand | ff/src/bin/ff.rs:243-259 | Behaves as `OldCommandSpec`. |
| OldCli.OldWalkPasses | ff/src/bin/ff.rs:99-117 | Without failures, the old traversal succeeds iff every child frame of the starting frame is a chain (no frame in it has two child frames). The starting frame itself may have several children only when it is the top frame. |
| OldCli.OldChildrenPass | ff/src/bin/ff.rs:111-115 | The old child loop succeeds iff the remaining children pass. |
| OldCli.OldChildStepPasses | ff/src/bin/ff.rs:112-114 | One child succeeds iff it starts at the base and its subtree is a chain. |
| OldCli.OldWalkOutput | ff/src/bin/ff.rs:99-117 | When the old traversal succeeds, it printed the same pre-order as the current one and is at the top frame if there were children. |
| OldCli.OldChildrenOutput | ff/src/bin/ff.rs:111-115 | When the old child loop succeeds, it printed the remaining children in pre-order. |
| OldCli.OldChildStepOutput | ff/src/bin/ff.rs:112-114 | When one child succeeds, it printed its subtree in pre-order. |
| OldCli.OldCommandNarrow | ff/src/bin/ff.rs:243-259 | Without failures, the old commands succeed iff every child frame of the current frame is a chain, and the current frame has at most one child frame unless it is the top frame. They then print the pre-order. |
| OldCli.NestedPageDefeatsOldWalk | ff/src/bin/ff.rs:111-115 | On a page with a frame holding two frames, the old commands fail with "no such frame" where the current ones succeed. |

## Left out

- `log` and `get_logs` (marionette/src/lib.rs:201-210): `LogMsg` and `LogEntry` are not part of this model.
- `IntoPacket` (remotemozdbg/src/proto.rs:18-34): a conversion trait with no logic beyond building a `Packet`.
- Sockets, threads and `sleep`. The peer's bytes are the reader's input, what is written is recorded, and `check_connection` returns its sleep durations.
- The JSON text encoding. `serde_json::to_string` / `from_str` and the serde impls of `WindowHandle`, `ElementRef`, `ContextValue`, `QueryMethod` and `Script` are parameters of `Messages.Serde`.
- `Script`'s wire form: the script is passed as JSON. `execute_async_script` is modelled as the same single call as `execute_script`.
- `instances()`, `check_tcp_port`, `Browser::start`, the Firefox runner, profiles, preferences, add-on install, downloads, `convert_url` and `cmd_go`: filesystem, process and URL-library work outside the modelled core.
- Error reporting to stderr (`error!` for a tolerated script error, `unwrap_or_exit`): an error is returned as a value instead of exiting the process.
- Browser.SwitchToFrameStep: the browser is assumed to reject a frame reference that is not a child of the current frame with an invalid-data error ("no such frame"). The actual error text comes from Firefox, which is not part of this model.
- Browser.Server: the browser's answers (element text, attributes, properties, script values, titles) are fixed per page and frame. Page changes caused by scripts are not modelled.
- Cli.SwitchSpec: `WindowHandle::from_str` is a parameter.
- Cli.SwitchSpec: a failed `get_window_handles` is "Unable to get window list" and a missing index is "Index is invalid". Process exit and its status are not modelled.
- Framing.ReadFrame: implements the corrected reader `ParseFrame` of the Findings table, not `readframe` as written. A stream that ends before any `:` fails with `MissingDelimiter`. As written, `00` reads as an empty frame and `12` fails with `UnexpectedEof`; `ParseFrameAsWritten` states that behaviour, and no stateful reader runs it.
- Marionette.NextMessage: built on the corrected `ParseFrame`, so it inherits the difference described for `Framing.ReadFrame`.
- Marionette.Connection.ReadMessage: reads through the corrected `ParseFrame`, like `NextMessage`. `AwaitResponse`, `Call`, `Connect` and the command methods inherit this.
- DebugProtocol.ReadPacket: implements the corrected reader `ParsePacket` of the Findings table, not `readpacket` as written. A stream without `:` is an error, and a JSON packet's payload is parsed as JSON. As written, `00` reads as the packet `""` and `2:{}` as the string `"{}"`; `ParsePacketAsWritten` states that behaviour, and no stateful reader runs it.
- DebugProtocol.ReadJsonPayload: parses the payload as JSON (the corrected branch), where the code as written wraps the text as a JSON string.
- Framing.ParseFrameAsWritten: `Vec::with_capacity(len)` panics or aborts on allocation for a huge announced length (such as `18446744073709551615:`) before anything is read. The model has no allocation and reports `Truncated` instead. The same holds for `Framing.ParseFrame`.
- DebugProtocol.ParseBulkBody: the same allocation failure for a huge bulk length is not modelled; the result is `UnexpectedEof`.
- DebugProtocol.ParseJsonPayload: the same allocation failure for a huge JSON length is not modelled; the result is `UnexpectedEof`.
- DebugProtocol.ParseBulkHeader: the "Invalid bulk packet preamble" message omits the `{:?}` rendering of the first word that remotemozdbg/src/proto.rs:48 appends.
- Marionette.Connection.NextMsgId: the message id is an unbounded number, where the `u64` of marionette/src/lib.rs:67 and 92-95 would overflow after 2^64 calls.
- Bytes.Utf8Width: UTF-8 validity is checked on the byte level only; code points are not decoded.

## Findings

| source | as written | input that shows it | evidently intended | confidence | as-written member | corrected member |
|---|---|---|---|---|---|---|
| marionette/src/lib.rs:367-375 | `readframe` drops the last byte of what `read_until(':')` returned without checking that it is `:`. | The stream `00` (no `:`, then EOF) reads as an empty frame, consuming 2 bytes. | A frame without `:` is rejected. | not executed | Framing.AsWrittenAcceptsMissingDelimiter | Framing.ParseFrame |
| remotemozdbg/src/proto.rs:82-85 | `readpacket` likewise drops the last byte of the header without checking it is `:`. | The stream `00` reads as the JSON packet `""`. | A header without `:` is rejected. | not executed | DebugProtocol.PacketAsWrittenAcceptsMissingDelimiter | DebugProtocol.ParsePacket |
| remotemozdbg/src/proto.rs:95-97 | The JSON payload is converted with `to_value` of the text, giving a JSON string. | `2:{}` reads as the string `"{}"`, while test `json_packet` (lines 159-170) expects the empty object. | The payload is parsed as JSON. | not executed | DebugProtocol.JsonPacketExample | DebugProtocol.ParsePacket |
| ff/src/bin/ff.rs:111-115 | After visiting a child frame the old traversal switches to the top frame, not back to the parent. | A page whose one frame holds two frames: the second inner frame is not a child of the top frame, so switching to it fails. | Return to the parent frame, as ff/src/main.rs:178 does. | not executed | OldCli.NestedPageDefeatsOldWalk | Cli.CommandPreorder |
