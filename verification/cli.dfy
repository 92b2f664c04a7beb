/**
 * The `ff` command line (ff/src/main.rs): the commands that walk every frame
 * of the page, the window commands and the arguments of the background
 * process that `ff start` spawns.
 */
module Cli {
  import opened Wrappers
  import opened Bytes
  import opened Json
  import opened Io
  import opened Messages
  import opened Browser
  import opened Instances

  /** What `text`, `attr NAME` and `property NAME` fetch from each matching element. */
  datatype ElementAction = ShowText | ShowAttr(name: Text) | ShowProperty(name: Text)

  /** What a frame-walking command does in each frame. */
  datatype Command = ForElements(action: ElementAction) | RunScript

  /** A string is printed unless it is empty. */
  function StrLines(t: Text): (lines: seq<Line>)
    ensures lines == [] <==> t == []
    ensures forall l :: l in lines ==> l == TextLine(t)
  {
    if t == [] then [] else [TextLine(t)]
  }

  /**
   * `print_json_value`: with `--filter-str` only strings are printed, as
   * their text; otherwise everything but `null` is printed as JSON.
   */
  function PrintJsonValue(v: Json, filterStr: bool): (lines: seq<Line>)
    ensures |lines| <= 1
    ensures lines != [] <==> (if filterStr then v.Str? else v != Null)
    ensures forall l :: l in lines ==> l == (if filterStr then TextLine(v.s) else JsonLine(v))
  {
    if filterStr then (if v.Str? then [TextLine(v.s)] else [])
    else if v != Null then [JsonLine(v)] else []
  }

  /** What one element prints once its value has been fetched. */
  function ElementLines(srv: Server, a: ElementAction, filterStr: bool, e: ElementRef): seq<Line>
  {
    match a
    case ShowText => StrLines(srv.text(e))
    case ShowAttr(n) => StrLines(srv.attribute(e, n))
    case ShowProperty(n) => PrintJsonValue(srv.property(e, n), filterStr)
  }

  /** What a list of elements prints, element after element. */
  function ElementsLines(srv: Server, a: ElementAction, filterStr: bool, elems: seq<ElementRef>): seq<Line>
  {
    if elems == [] then [] else ElementLines(srv, a, filterStr, elems[0]) + ElementsLines(srv, a, filterStr, elems[1..])
  }

  /**
   * The exec command's rule for one frame's script result: print the value,
   * log a non-fatal error and carry on, stop on a fatal error.
   */
  function ScriptOutcome(res: Result<Json, Failure>, filterStr: bool): (r: (Result<(), Failure>, seq<Line>))
    ensures r.0.Err? <==> res.Err? && res.error.fatal
    ensures r.0.Err? ==> r.0.error == res.error
    ensures res.Ok? ==> r.1 == PrintJsonValue(res.value, filterStr)
    ensures res.Err? ==> r.1 == []
  {
    match res
    case Ok(v) => (Ok(()), PrintJsonValue(v, filterStr))
    case Err(f) => if f.fatal then (Err(f), []) else (Ok(()), [])
  }

  /** What a command prints in one frame, at `path`, when no call fails. */
  function VisitLines(srv: Server, cmd: Command, filterStr: bool, frame: Frame, path: seq<nat>): seq<Line>
  {
    match cmd
    case ForElements(a) => ElementsLines(srv, a, filterStr, frame.matches)
    case RunScript => PrintJsonValue(srv.script(path), filterStr)
  }

  /** The reference order: a frame before its children, children in document order. */
  function Preorder(srv: Server, cmd: Command, filterStr: bool, frame: Frame, path: seq<nat>): seq<Line>
    decreases frame, 1
  {
    VisitLines(srv, cmd, filterStr, frame, path) + ChildrenPreorder(srv, cmd, filterStr, frame, path, 0)
  }

  function ChildrenPreorder(srv: Server, cmd: Command, filterStr: bool, frame: Frame, path: seq<nat>, i: nat): seq<Line>
    decreases frame, 0, |frame.children| - i
  {
    if i >= |frame.children| then []
    else Preorder(srv, cmd, filterStr, frame.children[i], path + [i]) + ChildrenPreorder(srv, cmd, filterStr, frame, path, i + 1)
  }

  /** Neither the current frame nor the current window moved. */
  predicate Stays<T>(st: St, o: Outcome<T>)
  {
    o.st.current == st.current && o.st.window == st.window
  }

  /** One element: the call that fetches its value, then the printing. */
  function ElementStep(srv: Server, a: ElementAction, filterStr: bool, e: ElementRef, st: St): (o: Outcome<()>)
    ensures Stays(st, o) && FailedAtLastCall(srv, o)
    ensures o.result.Ok? <==> st.calls !in srv.failures
    ensures o.st.out == st.out + (if o.result.Ok? then ElementLines(srv, a, filterStr, e) else [])
  {
    var r := Reply(srv, st, ElementLines(srv, a, filterStr, e));
    if r.result.Err? then Outcome(Err(r.result.error), r.st)
    else Outcome(Ok(()), r.st.(out := r.st.out + r.result.value))
  }

  /** The loop of `foreach_element` from the `i`-th element on. */
  function VisitElements(srv: Server, a: ElementAction, filterStr: bool, elems: seq<ElementRef>, i: nat, st: St): (o: Outcome<()>)
    requires i <= |elems|
    ensures Stays(st, o) && FailedAtLastCall(srv, o)
    ensures srv.failures == map[] ==> o.result.Ok? && o.st.out == st.out + ElementsLines(srv, a, filterStr, elems[i..])
    decreases |elems| - i
  {
    if i == |elems| then Outcome(Ok(()), st)
    else
      var o := ElementStep(srv, a, filterStr, elems[i], st);
      if o.result.Err? then o
      else
        assert elems[i..][1..] == elems[i + 1..];
        VisitElements(srv, a, filterStr, elems, i + 1, o.st)
  }

  /** `foreach_element`: find the matching elements of the current frame, then visit each. */
  function ForeachElementSpec(srv: Server, a: ElementAction, filterStr: bool, st: St): (o: Outcome<()>)
    requires InPage(srv, st)
    ensures Stays(st, o) && FailedAtLastCall(srv, o)
    ensures srv.failures == map[] ==> o.result.Ok? && o.st.out == st.out + ElementsLines(srv, a, filterStr, FrameAt(srv.page, st.current).value.matches)
  {
    var m := FindMatchesStep(srv, st);
    if m.result.Err? then Outcome(Err(m.result.error), m.st)
    else VisitElements(srv, a, filterStr, m.result.value, 0, m.st)
  }

  /** The exec command in one frame: run the script there, then apply `ScriptOutcome`. */
  function ScriptStep(srv: Server, filterStr: bool, st: St): (o: Outcome<()>)
    ensures Stays(st, o) && FailedAtLastCall(srv, o)
    ensures srv.failures == map[] ==> o.result.Ok? && o.st.out == st.out + PrintJsonValue(srv.script(st.current), filterStr)
  {
    var r := Reply(srv, st, srv.script(st.current));
    var (res, lines) := ScriptOutcome(r.result, filterStr);
    Outcome(res, r.st.(out := r.st.out + lines))
  }

  /** The closure each frame-walking command hands to `foreach_frame`. */
  function Visit(srv: Server, cmd: Command, filterStr: bool, st: St): (o: Outcome<()>)
    requires InPage(srv, st)
    ensures Stays(st, o) && FailedAtLastCall(srv, o)
    ensures srv.failures == map[] ==> o.result.Ok? && o.st.out == st.out + VisitLines(srv, cmd, filterStr, FrameAt(srv.page, st.current).value, st.current)
  {
    match cmd
    case ForElements(a) => ForeachElementSpec(srv, a, filterStr, st)
    case RunScript => ScriptStep(srv, filterStr, st)
  }

  /**
   * `foreach_frame`: visit the current frame, then for each of its frame
   * elements switch into it, walk it, and switch back to the parent; the
   * first error ends the walk.
   */
  function Walk(srv: Server, cmd: Command, filterStr: bool, frame: Frame, st: St): (o: Outcome<()>)
    requires FrameAt(srv.page, st.current) == Some(frame)
    ensures o.st.window == st.window && FailedAtLastCall(srv, o)
    ensures o.result.Ok? ==> o.st.current == st.current
    decreases frame, 1
  {
    var v := Visit(srv, cmd, filterStr, st);
    if v.result.Err? then v
    else
      var f := FindFramesStep(srv, v.st);
      if f.result.Err? then Outcome(Err(f.result.error), f.st)
      else WalkChildren(srv, cmd, filterStr, frame, f.result.value, 0, f.st)
  }

  /** The loop of `foreach_frame` over the frame elements, from the `i`-th on. */
  function WalkChildren(srv: Server, cmd: Command, filterStr: bool, frame: Frame, refs: seq<FrameRef>, i: nat, st: St): (o: Outcome<()>)
    requires FrameAt(srv.page, st.current) == Some(frame)
    requires |refs| == |frame.children| && i <= |refs|
    requires forall j :: 0 <= j < |refs| ==> refs[j] == FrameRef(st.current + [j])
    ensures o.st.window == st.window && FailedAtLastCall(srv, o)
    ensures o.result.Ok? ==> o.st.current == st.current
    decreases frame, 0, |refs| - i
  {
    if i == |refs| then Outcome(Ok(()), st)
    else
      var c := ChildStep(srv, cmd, filterStr, frame, refs[i], i, st);
      if c.result.Err? then c
      else WalkChildren(srv, cmd, filterStr, frame, refs, i + 1, c.st)
  }

  /** One turn of that loop: switch into the `i`-th frame element, walk it, switch back to the parent. */
  function ChildStep(srv: Server, cmd: Command, filterStr: bool, frame: Frame, ref: FrameRef, i: nat, st: St): (o: Outcome<()>)
    requires FrameAt(srv.page, st.current) == Some(frame)
    requires i < |frame.children| && ref == FrameRef(st.current + [i])
    ensures o.st.window == st.window && FailedAtLastCall(srv, o)
    ensures o.result.Ok? ==> o.st.current == st.current
    decreases frame, 0, 0
  {
    var s := SwitchToFrameStep(srv, st, Some(ref));
    FrameAtChild(srv.page, st.current, i);
    if s.result.Err? then s
    else
      var w := Walk(srv, cmd, filterStr, frame.children[i], s.st);
      if w.result.Err? then w
      else
        assert (st.current + [i])[..|st.current|] == st.current;
        SwitchToParentFrameStep(srv, w.st)
  }

  /**
   * The `text`, `attr`, `property` and `exec` commands: switch to the top
   * frame, walk the whole page, switch to the top frame again; the first
   * error ends the command.
   */
  function CommandSpec(srv: Server, cmd: Command, filterStr: bool, st: St): (o: Outcome<()>)
    ensures o.st.window == st.window && FailedAtLastCall(srv, o)
    ensures o.result.Ok? ==> o.st.current == []
  {
    var t := SwitchToFrameStep(srv, st, None);
    if t.result.Err? then t
    else
      var w := Walk(srv, cmd, filterStr, srv.page, t.st);
      if w.result.Err? then w
      else SwitchToFrameStep(srv, w.st, None)
  }

  /** With no failing call, `foreach_frame` prints every frame in `Preorder` and succeeds. */
  lemma {:induction false} WalkPreorder(srv: Server, cmd: Command, filterStr: bool, frame: Frame, st: St)
    requires FrameAt(srv.page, st.current) == Some(frame) && srv.failures == map[]
    ensures Walk(srv, cmd, filterStr, frame, st).result.Ok?
    ensures Walk(srv, cmd, filterStr, frame, st).st.out == st.out + Preorder(srv, cmd, filterStr, frame, st.current)
    decreases frame, 1
  {
    var v := Visit(srv, cmd, filterStr, st);
    assert v.result.Ok? && v.st.current == st.current && v.st.out == st.out + VisitLines(srv, cmd, filterStr, frame, st.current);
    var f := FindFramesStep(srv, v.st);
    assert f.result.Ok? && f.st.current == st.current && f.st.out == v.st.out;
    var w := WalkChildren(srv, cmd, filterStr, frame, f.result.value, 0, f.st);
    assert w.result.Ok? && w.st.out == f.st.out + ChildrenPreorder(srv, cmd, filterStr, frame, st.current, 0) by {
      WalkChildrenPreorder(srv, cmd, filterStr, frame, f.result.value, 0, f.st);
    }
    assert Walk(srv, cmd, filterStr, frame, st) == w;
  }

  lemma {:induction false} WalkChildrenPreorder(srv: Server, cmd: Command, filterStr: bool, frame: Frame, refs: seq<FrameRef>, i: nat, st: St)
    requires FrameAt(srv.page, st.current) == Some(frame) && srv.failures == map[]
    requires |refs| == |frame.children| && i <= |refs|
    requires forall j :: 0 <= j < |refs| ==> refs[j] == FrameRef(st.current + [j])
    ensures WalkChildren(srv, cmd, filterStr, frame, refs, i, st).result.Ok?
    ensures WalkChildren(srv, cmd, filterStr, frame, refs, i, st).st.out == st.out + ChildrenPreorder(srv, cmd, filterStr, frame, st.current, i)
    decreases frame, 0, |refs| - i
  {
    if i < |refs| {
      var c := ChildStep(srv, cmd, filterStr, frame, refs[i], i, st);
      assert c.result.Ok? && c.st.current == st.current && c.st.out == st.out + Preorder(srv, cmd, filterStr, frame.children[i], st.current + [i]) by {
        ChildStepPreorder(srv, cmd, filterStr, frame, refs[i], i, st);
      }
      var w := WalkChildren(srv, cmd, filterStr, frame, refs, i + 1, c.st);
      assert w.result.Ok? && w.st.out == c.st.out + ChildrenPreorder(srv, cmd, filterStr, frame, st.current, i + 1) by {
        WalkChildrenPreorder(srv, cmd, filterStr, frame, refs, i + 1, c.st);
      }
      assert WalkChildren(srv, cmd, filterStr, frame, refs, i, st) == w;
    }
  }

  lemma {:induction false} ChildStepPreorder(srv: Server, cmd: Command, filterStr: bool, frame: Frame, ref: FrameRef, i: nat, st: St)
    requires FrameAt(srv.page, st.current) == Some(frame) && srv.failures == map[]
    requires i < |frame.children| && ref == FrameRef(st.current + [i])
    ensures ChildStep(srv, cmd, filterStr, frame, ref, i, st).result.Ok?
    ensures ChildStep(srv, cmd, filterStr, frame, ref, i, st).st.out == st.out + Preorder(srv, cmd, filterStr, frame.children[i], st.current + [i])
    decreases frame, 0, 0
  {
    FrameAtChild(srv.page, st.current, i);
    var s := SwitchToFrameStep(srv, st, Some(ref));
    WalkPreorder(srv, cmd, filterStr, frame.children[i], s.st);
  }

  /**
   * With no failing call, `text`, `attr`, `property` and `exec` print every
   * frame of the page in `Preorder`, whatever frame they started in, and end
   * in the top frame.
   */
  lemma CommandPreorder(srv: Server, cmd: Command, filterStr: bool, st: St)
    requires srv.failures == map[]
    ensures CommandSpec(srv, cmd, filterStr, st).result.Ok?
    ensures CommandSpec(srv, cmd, filterStr, st).st.current == []
    ensures CommandSpec(srv, cmd, filterStr, st).st.out == st.out + Preorder(srv, cmd, filterStr, srv.page, [])
  {
    var t := SwitchToFrameStep(srv, st, None);
    WalkPreorder(srv, cmd, filterStr, srv.page, t.st);
  }

  /** The closure of `text`, `attr` and `property` for one element. */
  method ApplyToElement(s: Session, a: ElementAction, filterStr: bool, e: ElementRef) returns (r: Result<(), Failure>)
    modifies s
    ensures Outcome(r, s.Snap()) == ElementStep(s.server, a, filterStr, e, old(s.Snap()))
  {
    var lines: seq<Line>;
    match a {
      case ShowText =>
        var t := s.Call(s.server.text(e));
        if t.Err? {
          return Err(t.error);
        }
        lines := StrLines(t.value);
      case ShowAttr(n) =>
        var t := s.Call(s.server.attribute(e, n));
        if t.Err? {
          return Err(t.error);
        }
        lines := StrLines(t.value);
      case ShowProperty(n) =>
        var v := s.Call(s.server.property(e, n));
        if v.Err? {
          return Err(v.error);
        }
        lines := PrintJsonValue(v.value, filterStr);
    }
    s.Print(lines);
    r := Ok(());
  }

  /** `foreach_element` in the current frame. */
  method ForeachElement(s: Session, a: ElementAction, filterStr: bool) returns (r: Result<(), Failure>)
    requires s.Valid()
    modifies s
    ensures Outcome(r, s.Snap()) == ForeachElementSpec(s.server, a, filterStr, old(s.Snap()))
  {
    ghost var st0 := s.Snap();
    var found := s.FindMatches();
    if found.Err? {
      return Err(found.error);
    }
    var elems := found.value;
    var i := 0;
    while i < |elems|
      invariant i <= |elems|
      invariant ForeachElementSpec(s.server, a, filterStr, st0) == VisitElements(s.server, a, filterStr, elems, i, s.Snap())
    {
      r := ApplyToElement(s, a, filterStr, elems[i]);
      if r.Err? {
        return;
      }
      i := i + 1;
    }
    r := Ok(());
  }

  /** The closure of `exec` for one frame. */
  method RunScriptHere(s: Session, filterStr: bool) returns (r: Result<(), Failure>)
    modifies s
    ensures Outcome(r, s.Snap()) == ScriptStep(s.server, filterStr, old(s.Snap()))
  {
    var res := s.Call(s.server.script(s.current));
    var lines;
    r, lines := ScriptOutcome(res, filterStr).0, ScriptOutcome(res, filterStr).1;
    s.Print(lines);
  }

  method VisitFrame(s: Session, cmd: Command, filterStr: bool) returns (r: Result<(), Failure>)
    requires s.Valid()
    modifies s
    ensures Outcome(r, s.Snap()) == Visit(s.server, cmd, filterStr, old(s.Snap()))
  {
    match cmd {
      case ForElements(a) =>
        r := ForeachElement(s, a, filterStr);
      case RunScript =>
        r := RunScriptHere(s, filterStr);
    }
  }

  /** `foreach_frame` from the current frame, which is `frame`. */
  method ForeachFrame(s: Session, cmd: Command, filterStr: bool, ghost frame: Frame) returns (r: Result<(), Failure>)
    requires FrameAt(s.server.page, s.current) == Some(frame)
    modifies s
    ensures Outcome(r, s.Snap()) == Walk(s.server, cmd, filterStr, frame, old(s.Snap()))
    decreases frame, 2
  {
    r := VisitFrame(s, cmd, filterStr);
    if r.Err? {
      return;
    }
    var found := s.FindFrames();
    if found.Err? {
      return Err(found.error);
    }
    r := VisitChildren(s, cmd, filterStr, frame, found.value);
  }

  /** The loop of `foreach_frame` over the frame elements `refs` of the current frame. */
  method VisitChildren(s: Session, cmd: Command, filterStr: bool, ghost frame: Frame, refs: seq<FrameRef>) returns (r: Result<(), Failure>)
    requires FrameAt(s.server.page, s.current) == Some(frame) && |refs| == |frame.children|
    requires forall j :: 0 <= j < |refs| ==> refs[j] == FrameRef(s.current + [j])
    modifies s
    ensures Outcome(r, s.Snap()) == WalkChildren(s.server, cmd, filterStr, frame, refs, 0, old(s.Snap()))
    decreases frame, 1
  {
    ghost var st0 := s.Snap();
    ghost var base := s.current;
    var i := 0;
    while i < |refs|
      invariant i <= |refs|
      invariant s.current == base
      invariant WalkChildren(s.server, cmd, filterStr, frame, refs, 0, st0) == WalkChildren(s.server, cmd, filterStr, frame, refs, i, s.Snap())
    {
      r := VisitChild(s, cmd, filterStr, frame, refs[i], i);
      if r.Err? {
        return;
      }
      i := i + 1;
    }
    r := Ok(());
  }

  /** One turn of the loop of `foreach_frame`. */
  method VisitChild(s: Session, cmd: Command, filterStr: bool, ghost frame: Frame, ref: FrameRef, ghost i: nat) returns (r: Result<(), Failure>)
    requires FrameAt(s.server.page, s.current) == Some(frame)
    requires i < |frame.children| && ref == FrameRef(s.current + [i])
    modifies s
    ensures Outcome(r, s.Snap()) == ChildStep(s.server, cmd, filterStr, frame, ref, i, old(s.Snap()))
    decreases frame, 0
  {
    ghost var base := s.current;
    FrameAtChild(s.server.page, base, i);
    r := s.SwitchToFrame(Some(ref));
    if r.Err? {
      return;
    }
    r := ForeachFrame(s, cmd, filterStr, frame.children[i]);
    if r.Err? {
      return;
    }
    assert (base + [i])[..|base|] == base;
    r := s.SwitchToParentFrame();
  }

  /** The body of the `text`, `attr`, `property` and `exec` commands. */
  method RunCommand(s: Session, cmd: Command, filterStr: bool) returns (r: Result<(), Failure>)
    requires s.Valid()
    modifies s
    ensures Outcome(r, s.Snap()) == CommandSpec(s.server, cmd, filterStr, old(s.Snap()))
  {
    r := s.SwitchToFrame(None);
    if r.Err? {
      return;
    }
    r := ForeachFrame(s, cmd, filterStr, s.server.page);
    if r.Err? {
      return;
    }
    r := s.SwitchToFrame(None);
  }

  /** What `windows` prints for a list of handles: each handle with its window's title. */
  function WindowLines(srv: Server, handles: seq<WindowHandle>): (lines: seq<Line>)
    ensures |lines| == |handles|
    ensures forall i :: 0 <= i < |handles| ==> lines[i] == WindowLine(handles[i], srv.title(handles[i]))
  {
    seq(|handles|, i requires 0 <= i < |handles| => WindowLine(handles[i], srv.title(handles[i])))
  }

  /** The loop of `cmd_windows` from the `i`-th handle on: switch to it, ask its title, print both. */
  function WindowsLoop(srv: Server, handles: seq<WindowHandle>, i: nat, st: St): (o: Outcome<()>)
    requires i <= |handles|
    ensures o.st.current == st.current && FailedAtLastCall(srv, o)
    ensures srv.failures == map[] ==> o.result.Ok? && o.st.out == st.out + WindowLines(srv, handles[i..])
    decreases |handles| - i
  {
    if i == |handles| then Outcome(Ok(()), st)
    else
      var sw := SwitchToWindowStep(srv, st, handles[i]);
      if sw.result.Err? then sw
      else
        var t := Reply(srv, sw.st, srv.title(sw.st.window));
        if t.result.Err? then Outcome(Err(t.result.error), t.st)
        else
          var o := WindowsLoop(srv, handles, i + 1, t.st.(out := t.st.out + [WindowLine(handles[i], t.result.value)]));
          assert srv.failures == map[] ==> WindowLines(srv, handles[i..]) == [WindowLine(handles[i], srv.title(handles[i]))] + WindowLines(srv, handles[i + 1..]);
          o
  }

  /**
   * `cmd_windows`: remember the current window, list every window with its
   * title, then switch back to the window it started in.
   */
  function WindowsSpec(srv: Server, st: St): (o: Outcome<()>)
    ensures o.st.current == st.current && FailedAtLastCall(srv, o)
    ensures o.result.Ok? ==> o.st.window == st.window
    ensures srv.failures == map[] ==> o.result.Ok? && o.st.out == st.out + WindowLines(srv, srv.windows)
  {
    var prev := Reply(srv, st, st.window);
    if prev.result.Err? then Outcome(Err(prev.result.error), prev.st)
    else
      var hs := Reply(srv, prev.st, srv.windows);
      if hs.result.Err? then Outcome(Err(hs.result.error), hs.st)
      else
        var l := WindowsLoop(srv, hs.result.value, 0, hs.st);
        assert hs.result.value[0..] == hs.result.value;
        if l.result.Err? then l
        else SwitchToWindowStep(srv, l.st, prev.result.value)
  }

  method CmdWindows(s: Session) returns (r: Result<(), Failure>)
    modifies s
    ensures Outcome(r, s.Snap()) == WindowsSpec(s.server, old(s.Snap()))
  {
    ghost var st0 := s.Snap();
    var prev := s.Call(s.window);
    if prev.Err? {
      return Err(prev.error);
    }
    var handles := s.Call(s.server.windows);
    if handles.Err? {
      return Err(handles.error);
    }
    var i := 0;
    while i < |handles.value|
      invariant i <= |handles.value|
      invariant WindowsSpec(s.server, st0) == (var l := WindowsLoop(s.server, handles.value, i, s.Snap()); if l.result.Err? then l else SwitchToWindowStep(s.server, l.st, prev.value))
    {
      var win := handles.value[i];
      r := s.SwitchToWindow(win);
      if r.Err? {
        return;
      }
      var title := s.Call(s.server.title(s.window));
      if title.Err? {
        return Err(title.error);
      }
      s.Print([WindowLine(win, title.value)]);
      i := i + 1;
    }
    r := s.SwitchToWindow(prev.value);
  }

  /** `Iterator::nth` on the drained handle list. */
  function Nth(handles: seq<WindowHandle>, idx: nat): (r: Option<WindowHandle>)
    ensures r.Some? <==> idx < |handles|
    ensures r.Some? ==> r.value == handles[idx]
  {
    if handles == [] then None
    else if idx == 0 then Some(handles[0])
    else Nth(handles[1..], idx - 1)
  }

  const INVALID_WINDOW_INDEX: string := "Invalid WINDOW index"
  const NO_WINDOW_LIST: string := "Unable to get window list"
  const INDEX_IS_INVALID: string := "Index is invalid"
  const SWITCH_FAILED: string := "Unable to switch window"

  /** A command's end: success, or the message it exits with. */
  datatype Exit = Exit(result: Result<(), string>, st: St)

  /**
   * `switch WINDOW`: with `--idx`, WINDOW is a `usize` index into the window
   * list, otherwise it is the handle itself (`fromStr` is
   * `WindowHandle::from_str`).
   */
  function SwitchSpec(srv: Server, byIndex: bool, window: Text, fromStr: Text -> WindowHandle, st: St): (e: Exit)
    ensures e.st.current == st.current && e.st.out == st.out
    ensures byIndex && ParseUsize(window).None? ==> e == Exit(Err(INVALID_WINDOW_INDEX), st)
    ensures e.result.Ok? && byIndex ==> ParseUsize(window).Some? && ParseUsize(window).value < |srv.windows| && e.st.window == srv.windows[ParseUsize(window).value]
    ensures e.result.Ok? && !byIndex ==> e.st.window == fromStr(window)
    ensures e.result.Err? ==> e.st.window == st.window
    ensures srv.failures == map[] && !byIndex ==> e.result.Ok? && e.st.window == fromStr(window)
    ensures srv.failures == map[] && byIndex && ParseUsize(window).Some? ==>
      if ParseUsize(window).value < |srv.windows| then e.result.Ok? && e.st.window == srv.windows[ParseUsize(window).value]
      else e.result == Err(INDEX_IS_INVALID) && e.st.window == st.window
  {
    if byIndex then
      match ParseUsize(window)
      case None => Exit(Err(INVALID_WINDOW_INDEX), st)
      case Some(idx) =>
        var hs := Reply(srv, st, srv.windows);
        if hs.result.Err? then Exit(Err(NO_WINDOW_LIST), hs.st)
        else match Nth(hs.result.value, idx)
          case None => Exit(Err(INDEX_IS_INVALID), hs.st)
          case Some(w) => SwitchTo(srv, w, hs.st)
    else SwitchTo(srv, fromStr(window), st)
  }

  function SwitchTo(srv: Server, w: WindowHandle, st: St): (e: Exit)
    ensures e.st.current == st.current && e.st.out == st.out
    ensures e.result.Ok? ==> e.st.window == w
    ensures e.result.Err? ==> e.result.error == SWITCH_FAILED && e.st.window == st.window
    ensures srv.failures == map[] ==> e.result.Ok?
  {
    var o := SwitchToWindowStep(srv, st, w);
    Exit(if o.result.Ok? then Ok(()) else Err(SWITCH_FAILED), o.st)
  }

  method CmdSwitch(s: Session, byIndex: bool, window: Text, fromStr: Text -> WindowHandle) returns (r: Result<(), string>)
    modifies s
    ensures Exit(r, s.Snap()) == SwitchSpec(s.server, byIndex, window, fromStr, old(s.Snap()))
  {
    var handle;
    if byIndex {
      var idx := ParseUsize(window);
      if idx.None? {
        return Err(INVALID_WINDOW_INDEX);
      }
      var handles := s.Call(s.server.windows);
      if handles.Err? {
        return Err(NO_WINDOW_LIST);
      }
      var nth := Nth(handles.value, idx.value);
      if nth.None? {
        return Err(INDEX_IS_INVALID);
      }
      handle := nth.value;
    } else {
      handle := fromStr(window);
    }
    var sw := s.SwitchToWindow(handle);
    r := if sw.Ok? then Ok(()) else Err(SWITCH_FAILED);
  }

  const NO_FORK: Text := Ascii("--no-fork")
  const PORT_FLAG: Text := Ascii("--port")

  /**
   * `cmd_start` without `--no-fork`: the arguments of the background `ff`
   * process are this process's own, then `--no-fork`, then `--port` with the
   * chosen port when the user gave none.
   */
  method ChildArgs(argv: seq<Text>, portArg: Option<u16>, portnum: u16) returns (args: seq<Text>)
    ensures |args| == |argv| + (if portArg.None? then 3 else 1)
    ensures args[..|argv|] == argv && args[|argv|] == NO_FORK
    ensures portArg.None? ==> args[|argv| + 1] == PORT_FLAG && args[|argv| + 2] == Ascii(DecimalString(portnum))
  {
    args := argv;
    args := args + [NO_FORK];
    if portArg.None? {
      args := args + [PORT_FLAG];
      args := args + [Ascii(DecimalString(portnum))];
    }
  }

  /** The background process, reading `--port`, gets the port that was chosen. */
  lemma ChildPortRoundTrip(argv: seq<Text>, portnum: u16, args: seq<Text>)
    requires |args| == |argv| + 3 && args[|argv| + 1] == PORT_FLAG && args[|argv| + 2] == Ascii(DecimalString(portnum))
    ensures ParseUsize(args[|argv| + 2]) == Some(portnum as nat)
  {
    ParseDecimal(portnum);
  }
}
