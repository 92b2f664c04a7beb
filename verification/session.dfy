/**
 * The browser as the `ff` command line sees it through a Marionette
 * connection: a tree of frames with a current frame, a current window, and
 * the lines printed so far. Every protocol call is numbered; a call fails
 * exactly when its number is in the server's failure table.
 */
module Browser {
  import opened Wrappers
  import opened Bytes
  import opened Json
  import opened Io
  import opened Messages

  /**
   * A frame of the page: the elements that match the command's selector, in
   * document order, and the child frames (`iframe, frame`), in document order.
   */
  datatype Frame = Frame(matches: seq<ElementRef>, children: seq<Frame>)

  /** The frame reached from `f` by following child indices. */
  function FrameAt(f: Frame, path: seq<nat>): Option<Frame>
    decreases |path|
  {
    if path == [] then Some(f)
    else if path[0] < |f.children| then FrameAt(f.children[path[0]], path[1..])
    else None
  }

  lemma {:induction false} FrameAtChild(f: Frame, path: seq<nat>, i: nat)
    requires FrameAt(f, path).Some?
    ensures FrameAt(f, path + [i]) == if i < |FrameAt(f, path).value.children| then Some(FrameAt(f, path).value.children[i]) else None
    decreases |path|
  {
    if path != [] {
      assert (path + [i])[1..] == path[1..] + [i];
      FrameAtChild(f.children[path[0]], path[1..], i);
    }
  }

  /** A reference to a frame element, naming the frame it leads to. */
  datatype FrameRef = FrameRef(path: seq<nat>)

  /** An error from the browser; `fatal` is what `is_fatal` answers for it. */
  datatype Failure = Failure(err: IoError, fatal: bool)

  /** What the server answers to a switch to a frame element that is not in the current frame. */
  const NO_SUCH_FRAME: Failure := Failure(InvalidDataError("no such frame"), true)

  /** A printed line. */
  datatype Line =
    | TextLine(text: Text)
    | JsonLine(value: Json)
    | WindowLine(handle: WindowHandle, title: Text)

  /** The browser behind the connection. */
  datatype Server = Server(
    page: Frame,
    failures: map<nat, Failure>,
    text: ElementRef -> Text,
    attribute: (ElementRef, Text) -> Text,
    property: (ElementRef, Text) -> Json,
    script: seq<nat> -> Json,
    windows: seq<WindowHandle>,
    title: WindowHandle -> Text)

  /** The state the commands change: current frame and window, calls made, lines printed. */
  datatype St = St(current: seq<nat>, window: WindowHandle, calls: nat, out: seq<Line>)

  datatype Outcome<T> = Outcome(result: Result<T, Failure>, st: St)

  predicate InPage(srv: Server, st: St)
  {
    FrameAt(srv.page, st.current).Some?
  }

  /** The last call made before reaching `o` is the one that failed, with the error returned. */
  predicate FailedAtLastCall<T>(srv: Server, o: Outcome<T>)
  {
    o.result.Err? ==> o.st.calls >= 1 && o.st.calls - 1 in srv.failures && srv.failures[o.st.calls - 1] == o.result.error
  }

  /** One protocol call whose answer, when it does not fail, is `value`. */
  function Reply<T>(srv: Server, st: St, value: T): (o: Outcome<T>)
    ensures o.st == st.(calls := st.calls + 1)
    ensures o.result.Err? <==> st.calls in srv.failures
    ensures o.result.Ok? ==> o.result.value == value
    ensures FailedAtLastCall(srv, o)
  {
    var next := st.(calls := st.calls + 1);
    if st.calls in srv.failures then Outcome(Err(srv.failures[st.calls]), next) else Outcome(Ok(value), next)
  }

  /** `find_elements(CssSelector, SELECTOR, None)` in the current frame. */
  function FindMatchesStep(srv: Server, st: St): Outcome<seq<ElementRef>>
    requires InPage(srv, st)
  {
    Reply(srv, st, FrameAt(srv.page, st.current).value.matches)
  }

  /** `find_elements(CssSelector, "iframe, frame", None)` in the current frame. */
  function FindFramesStep(srv: Server, st: St): (o: Outcome<seq<FrameRef>>)
    requires InPage(srv, st)
    ensures o.result.Ok? ==> |o.result.value| == |FrameAt(srv.page, st.current).value.children|
    ensures o.result.Ok? ==> forall j :: 0 <= j < |o.result.value| ==> o.result.value[j] == FrameRef(st.current + [j])
  {
    var n := |FrameAt(srv.page, st.current).value.children|;
    Reply(srv, st, seq(n, (j: nat) => FrameRef(st.current + [j])))
  }

  /** `switch_to_frame`: to the top frame, or into a frame element of the current frame. */
  function SwitchToFrameStep(srv: Server, st: St, target: Option<FrameRef>): (o: Outcome<()>)
    ensures o.st.calls == st.calls + 1 && o.st.out == st.out && o.st.window == st.window
    ensures o.result.Ok? ==> o.st.current == (if target.Some? then target.value.path else [])
    ensures o.result.Err? ==> o.st.current == st.current
    ensures target.None? ==> FailedAtLastCall(srv, o)
    ensures o.result.Err? ==> FailedAtLastCall(srv, o) || o.result.error == NO_SUCH_FRAME
    ensures InPage(srv, st) ==> InPage(srv, o.st)
  {
    var o := Reply(srv, st, ());
    if o.result.Err? then o
    else match target
      case None => Outcome(Ok(()), o.st.(current := []))
      case Some(ref) =>
        if |ref.path| == |st.current| + 1 && ref.path[..|st.current|] == st.current && FrameAt(srv.page, ref.path).Some?
        then Outcome(Ok(()), o.st.(current := ref.path))
        else Outcome(Err(NO_SUCH_FRAME), o.st)
  }

  /** `switch_to_parent_frame`; at the top frame it stays there. */
  function SwitchToParentFrameStep(srv: Server, st: St): (o: Outcome<()>)
    ensures o.st.calls == st.calls + 1 && o.st.out == st.out && o.st.window == st.window
    ensures o.result.Ok? ==> o.st.current == if st.current == [] then [] else st.current[..|st.current| - 1]
    ensures o.result.Err? ==> o.st.current == st.current
    ensures FailedAtLastCall(srv, o)
  {
    var o := Reply(srv, st, ());
    if o.result.Err? then o
    else Outcome(Ok(()), o.st.(current := if st.current == [] then [] else st.current[..|st.current| - 1]))
  }

  /** `switch_to_window`. */
  function SwitchToWindowStep(srv: Server, st: St, w: WindowHandle): (o: Outcome<()>)
    ensures o.st.calls == st.calls + 1 && o.st.out == st.out && o.st.current == st.current
    ensures o.st.window == if o.result.Ok? then w else st.window
    ensures FailedAtLastCall(srv, o)
  {
    var o := Reply(srv, st, ());
    if o.result.Err? then o else Outcome(Ok(()), o.st.(window := w))
  }

  class Session {
    const server: Server
    var current: seq<nat>
    var window: WindowHandle
    var calls: nat
    var out: seq<Line>

    function Snap(): St
      reads this
    {
      St(current, window, calls, out)
    }

    ghost predicate Valid()
      reads this
    {
      InPage(server, Snap())
    }

    /** A fresh connection: in the top frame of window `window`, nothing printed. */
    constructor (server: Server, window: WindowHandle)
      ensures this.server == server && Snap() == St([], window, 0, [])
      ensures Valid()
    {
      this.server := server;
      current := [];
      this.window := window;
      calls := 0;
      out := [];
    }

    /** One protocol call answered with `value` unless it fails. */
    method Call<T>(value: T) returns (r: Result<T, Failure>)
      modifies this`calls
      ensures Outcome(r, Snap()) == Reply(server, old(Snap()), value)
    {
      r := if calls in server.failures then Err(server.failures[calls]) else Ok(value);
      calls := calls + 1;
    }

    method FindMatches() returns (r: Result<seq<ElementRef>, Failure>)
      requires Valid()
      modifies this`calls
      ensures Valid()
      ensures Outcome(r, Snap()) == FindMatchesStep(server, old(Snap()))
    {
      r := Call(FrameAt(server.page, current).value.matches);
    }

    method FindFrames() returns (r: Result<seq<FrameRef>, Failure>)
      requires Valid()
      modifies this`calls
      ensures Valid()
      ensures Outcome(r, Snap()) == FindFramesStep(server, old(Snap()))
    {
      var n := |FrameAt(server.page, current).value.children|;
      var here := current;
      r := Call(seq(n, (j: nat) => FrameRef(here + [j])));
    }

    method SwitchToFrame(target: Option<FrameRef>) returns (r: Result<(), Failure>)
      requires Valid()
      modifies this`calls, this`current
      ensures Valid()
      ensures Outcome(r, Snap()) == SwitchToFrameStep(server, old(Snap()), target)
    {
      r := Call(());
      if r.Ok? {
        match target {
          case None =>
            current := [];
          case Some(ref) =>
            if |ref.path| == |current| + 1 && ref.path[..|current|] == current && FrameAt(server.page, ref.path).Some? {
              current := ref.path;
            } else {
              r := Err(NO_SUCH_FRAME);
            }
        }
      }
    }

    method SwitchToParentFrame() returns (r: Result<(), Failure>)
      requires Valid()
      modifies this`calls, this`current
      ensures Valid()
      ensures Outcome(r, Snap()) == SwitchToParentFrameStep(server, old(Snap()))
    {
      r := Call(());
      if r.Ok? && current != [] {
        ParentInPage(server.page, current);
        current := current[..|current| - 1];
      }
    }

    method SwitchToWindow(w: WindowHandle) returns (r: Result<(), Failure>)
      modifies this`calls, this`window
      ensures Outcome(r, Snap()) == SwitchToWindowStep(server, old(Snap()), w)
    {
      r := Call(());
      if r.Ok? {
        window := w;
      }
    }

    /** `println!` of each line, in order. */
    method Print(lines: seq<Line>)
      modifies this`out
      ensures out == old(out) + lines
    {
      out := out + lines;
    }
  }

  /** The parent of a frame in the page is in the page. */
  lemma {:induction false} ParentInPage(f: Frame, path: seq<nat>)
    requires path != [] && FrameAt(f, path).Some?
    ensures FrameAt(f, path[..|path| - 1]).Some?
    decreases |path|
  {
    if |path| > 1 {
      assert path[1..][..|path| - 2] == path[..|path| - 1][1..];
      ParentInPage(f.children[path[0]], path[1..]);
    }
  }
}
