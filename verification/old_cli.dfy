/**
 * The older `ff` command line (ff/src/bin/ff.rs): its `text`, `attr` and
 * `property` commands walk the frames of the page too, but return from each
 * child frame by switching to the top frame rather than to the parent.
 */
module OldCli {
  import opened Wrappers
  import opened Bytes
  import opened Json
  import opened Messages
  import opened Browser
  import opened Cli

  /** Every frame from `f` down has at most one child frame. */
  ghost predicate Chain(f: Frame)
    decreases f
  {
    |f.children| <= 1 && forall j :: 0 <= j < |f.children| ==> Chain(f.children[j])
  }

  /**
   * The pages the old walk gets through when no call fails: below the top
   * frame no frame has two child frames.
   */
  ghost predicate Narrow(frame: Frame, base: seq<nat>)
  {
    (forall j :: 0 <= j < |frame.children| ==> Chain(frame.children[j])) && (base != [] ==> |frame.children| <= 1)
  }

  /**
   * When the frame loop at `base`, standing in frame `current`, gets through
   * the frame elements from the `i`-th on.
   */
  ghost predicate ChildrenPass(frame: Frame, base: seq<nat>, i: nat, current: seq<nat>)
  {
    (forall j :: i <= j < |frame.children| ==> Chain(frame.children[j]))
    && (i < |frame.children| ==> current == base)
    && (base != [] ==> |frame.children| - i <= 1)
  }

  lemma ChildrenPassStep(frame: Frame, base: seq<nat>, i: nat, current: seq<nat>)
    requires i < |frame.children|
    ensures ChildrenPass(frame, base, i, current) <==> current == base && Chain(frame.children[i]) && ChildrenPass(frame, base, i + 1, [])
  {
    if current == base && Chain(frame.children[i]) && ChildrenPass(frame, base, i + 1, []) {
      forall j | i <= j < |frame.children|
        ensures Chain(frame.children[j])
      {
        if j > i {
          assert i + 1 <= j;
        }
      }
    }
  }

  /** An error ends the walk at the call that raised it. */
  predicate StoppedAtError<T>(srv: Server, o: Outcome<T>)
  {
    o.result.Err? ==> FailedAtLastCall(srv, o) || o.result.error == NO_SUCH_FRAME
  }

  /**
   * `cmd_get_element_str_data` and `cmd_get_element_json_data` from the
   * frame at `base`: the matching elements first (empty strings and `null`
   * are not printed), then each frame element in turn.
   */
  function OldWalk(srv: Server, a: ElementAction, frame: Frame, base: seq<nat>, st: St): (o: Outcome<()>)
    requires FrameAt(srv.page, base) == Some(frame) && st.current == base
    ensures o.st.window == st.window && InPage(srv, o.st) && StoppedAtError(srv, o)
    decreases frame, 1
  {
    var e := ForeachElementSpec(srv, a, false, st);
    if e.result.Err? then e
    else
      var f := FindFramesStep(srv, e.st);
      if f.result.Err? then Outcome(Err(f.result.error), f.st)
      else OldChildren(srv, a, frame, base, f.result.value, 0, f.st)
  }

  function OldChildren(srv: Server, a: ElementAction, frame: Frame, base: seq<nat>, refs: seq<FrameRef>, i: nat, st: St): (o: Outcome<()>)
    requires FrameAt(srv.page, base) == Some(frame) && InPage(srv, st)
    requires |refs| == |frame.children| && i <= |refs|
    requires forall j :: 0 <= j < |refs| ==> refs[j] == FrameRef(base + [j])
    ensures o.st.window == st.window && InPage(srv, o.st) && StoppedAtError(srv, o)
    decreases frame, 0, |refs| - i
  {
    if i == |refs| then Outcome(Ok(()), st)
    else
      var c := OldChildStep(srv, a, frame, base, refs[i], i, st);
      if c.result.Err? then c
      else OldChildren(srv, a, frame, base, refs, i + 1, c.st)
  }

  /** One turn of the frame loop: switch into the frame element, walk it, switch to the top frame. */
  function OldChildStep(srv: Server, a: ElementAction, frame: Frame, base: seq<nat>, ref: FrameRef, i: nat, st: St): (o: Outcome<()>)
    requires FrameAt(srv.page, base) == Some(frame) && InPage(srv, st)
    requires i < |frame.children| && ref == FrameRef(base + [i])
    ensures o.st.window == st.window && InPage(srv, o.st) && StoppedAtError(srv, o)
    ensures o.result.Ok? ==> o.st.current == []
    decreases frame, 0, 0
  {
    var s := SwitchToFrameStep(srv, st, Some(ref));
    FrameAtChild(srv.page, base, i);
    if s.result.Err? then s
    else
      var w := OldWalk(srv, a, frame.children[i], base + [i], s.st);
      if w.result.Err? then w
      else SwitchToFrameStep(srv, w.st, None)
  }

  /** The old `text`, `attr` and `property` commands: the walk from the current frame, then back to the top frame. */
  function OldCommandSpec(srv: Server, a: ElementAction, st: St): (o: Outcome<()>)
    requires InPage(srv, st)
    ensures o.st.window == st.window && StoppedAtError(srv, o)
    ensures o.result.Ok? ==> o.st.current == []
  {
    var w := OldWalk(srv, a, FrameAt(srv.page, st.current).value, st.current, st);
    if w.result.Err? then w else SwitchToFrameStep(srv, w.st, None)
  }

  /** `cmd_get_element_str_data` / `cmd_get_element_json_data` from the current frame, at `base`. */
  method GetElementData(s: Session, a: ElementAction, ghost frame: Frame, ghost base: seq<nat>) returns (r: Result<(), Failure>)
    requires FrameAt(s.server.page, base) == Some(frame) && s.current == base
    modifies s
    ensures Outcome(r, s.Snap()) == OldWalk(s.server, a, frame, base, old(s.Snap()))
    decreases frame, 2
  {
    r := ForeachElement(s, a, false);
    if r.Err? {
      return;
    }
    var found := s.FindFrames();
    if found.Err? {
      return Err(found.error);
    }
    r := GetFramesData(s, a, frame, base, found.value);
  }

  /** The frame loop of the old walk. */
  method GetFramesData(s: Session, a: ElementAction, ghost frame: Frame, ghost base: seq<nat>, refs: seq<FrameRef>) returns (r: Result<(), Failure>)
    requires FrameAt(s.server.page, base) == Some(frame) && s.Valid()
    requires |refs| == |frame.children|
    requires forall j :: 0 <= j < |refs| ==> refs[j] == FrameRef(base + [j])
    modifies s
    ensures Outcome(r, s.Snap()) == OldChildren(s.server, a, frame, base, refs, 0, old(s.Snap()))
    decreases frame, 1
  {
    ghost var st0 := s.Snap();
    var i := 0;
    while i < |refs|
      invariant i <= |refs| && s.Valid()
      invariant OldChildren(s.server, a, frame, base, refs, 0, st0) == OldChildren(s.server, a, frame, base, refs, i, s.Snap())
    {
      r := GetFrameData(s, a, frame, base, refs[i], i);
      if r.Err? {
        return;
      }
      i := i + 1;
    }
    r := Ok(());
  }

  method GetFrameData(s: Session, a: ElementAction, ghost frame: Frame, ghost base: seq<nat>, ref: FrameRef, ghost i: nat) returns (r: Result<(), Failure>)
    requires FrameAt(s.server.page, base) == Some(frame) && s.Valid()
    requires i < |frame.children| && ref == FrameRef(base + [i])
    modifies s
    ensures s.Valid()
    ensures Outcome(r, s.Snap()) == OldChildStep(s.server, a, frame, base, ref, i, old(s.Snap()))
    decreases frame, 0
  {
    FrameAtChild(s.server.page, base, i);
    r := s.SwitchToFrame(Some(ref));
    if r.Err? {
      return;
    }
    r := GetElementData(s, a, frame.children[i], base + [i]);
    if r.Err? {
      return;
    }
    r := s.SwitchToFrame(None);
  }

  /** The body of the old `text`, `attr` and `property` commands. */
  method OldRunCommand(s: Session, a: ElementAction) returns (r: Result<(), Failure>)
    requires s.Valid()
    modifies s
    ensures Outcome(r, s.Snap()) == OldCommandSpec(s.server, a, old(s.Snap()))
  {
    r := GetElementData(s, a, FrameAt(s.server.page, s.current).value, s.current);
    if r.Err? {
      return;
    }
    r := s.SwitchToFrame(None);
  }

  /** With no failing call, the old walk from the frame at `base` succeeds exactly on `Narrow` pages. */
  lemma {:induction false} OldWalkPasses(srv: Server, a: ElementAction, frame: Frame, base: seq<nat>, st: St)
    requires srv.failures == map[] && FrameAt(srv.page, base) == Some(frame) && st.current == base
    ensures OldWalk(srv, a, frame, base, st).result.Ok? <==> Narrow(frame, base)
    decreases frame, 1
  {
    var e := ForeachElementSpec(srv, a, false, st);
    var f := FindFramesStep(srv, e.st);
    assert e.result.Ok? && f.result.Ok? && f.st.current == base;
    OldChildrenPass(srv, a, frame, base, f.result.value, 0, f.st);
  }

  lemma {:induction false} OldChildrenPass(srv: Server, a: ElementAction, frame: Frame, base: seq<nat>, refs: seq<FrameRef>, i: nat, st: St)
    requires srv.failures == map[] && FrameAt(srv.page, base) == Some(frame) && InPage(srv, st)
    requires |refs| == |frame.children| && i <= |refs|
    requires forall j :: 0 <= j < |refs| ==> refs[j] == FrameRef(base + [j])
    ensures OldChildren(srv, a, frame, base, refs, i, st).result.Ok? <==> ChildrenPass(frame, base, i, st.current)
    decreases frame, 0, |refs| - i
  {
    if i < |refs| {
      var c := OldChildStep(srv, a, frame, base, refs[i], i, st);
      assert c.result.Ok? <==> st.current == base && Chain(frame.children[i]) by {
        OldChildStepPasses(srv, a, frame, base, refs[i], i, st);
      }
      ChildrenPassStep(frame, base, i, st.current);
      if c.result.Ok? {
        OldChildrenPass(srv, a, frame, base, refs, i + 1, c.st);
      }
    }
  }

  lemma {:induction false} OldChildStepPasses(srv: Server, a: ElementAction, frame: Frame, base: seq<nat>, ref: FrameRef, i: nat, st: St)
    requires srv.failures == map[] && FrameAt(srv.page, base) == Some(frame) && InPage(srv, st)
    requires i < |frame.children| && ref == FrameRef(base + [i])
    ensures OldChildStep(srv, a, frame, base, ref, i, st).result.Ok? <==> st.current == base && Chain(frame.children[i])
    decreases frame, 0, 0
  {
    FrameAtChild(srv.page, base, i);
    var s := SwitchToFrameStep(srv, st, Some(ref));
    if st.current == base {
      assert (base + [i])[..|base|] == base;
      assert s.result.Ok? && s.st.current == base + [i];
      OldWalkPasses(srv, a, frame.children[i], base + [i], s.st);
    } else {
      assert !(|base + [i]| == |st.current| + 1 && (base + [i])[..|st.current|] == st.current) by {
        if |base + [i]| == |st.current| + 1 {
          assert (base + [i])[..|st.current|] == base;
        }
      }
    }
  }

  /**
   * When it succeeds, the old walk prints what the parent-switching walk
   * prints, and ends in the top frame unless the frame had no child frames.
   */
  lemma {:induction false} OldWalkOutput(srv: Server, a: ElementAction, frame: Frame, base: seq<nat>, st: St)
    requires srv.failures == map[] && FrameAt(srv.page, base) == Some(frame) && st.current == base
    requires OldWalk(srv, a, frame, base, st).result.Ok?
    ensures OldWalk(srv, a, frame, base, st).st.out == st.out + Preorder(srv, ForElements(a), false, frame, base)
    ensures OldWalk(srv, a, frame, base, st).st.current == if frame.children == [] then base else []
    decreases frame, 1
  {
    var e := ForeachElementSpec(srv, a, false, st);
    assert e.result.Ok? && e.st.current == base && e.st.out == st.out + ElementsLines(srv, a, false, frame.matches);
    var f := FindFramesStep(srv, e.st);
    assert f.result.Ok? && f.st.current == base && f.st.out == e.st.out;
    var refs := f.result.value;
    assert |refs| == |frame.children|;
    var w := OldChildren(srv, a, frame, base, refs, 0, f.st);
    assert OldWalk(srv, a, frame, base, st) == w;
    assert w.st.out == f.st.out + ChildrenPreorder(srv, ForElements(a), false, frame, base, 0)
      && w.st.current == (if 0 < |refs| then [] else base) by {
      OldChildrenOutput(srv, a, frame, base, refs, 0, f.st);
    }
  }

  lemma {:induction false} OldChildrenOutput(srv: Server, a: ElementAction, frame: Frame, base: seq<nat>, refs: seq<FrameRef>, i: nat, st: St)
    requires srv.failures == map[] && FrameAt(srv.page, base) == Some(frame) && InPage(srv, st)
    requires |refs| == |frame.children| && i <= |refs|
    requires forall j :: 0 <= j < |refs| ==> refs[j] == FrameRef(base + [j])
    requires OldChildren(srv, a, frame, base, refs, i, st).result.Ok?
    ensures OldChildren(srv, a, frame, base, refs, i, st).st.out == st.out + ChildrenPreorder(srv, ForElements(a), false, frame, base, i)
    ensures OldChildren(srv, a, frame, base, refs, i, st).st.current == if i < |refs| then [] else st.current
    decreases frame, 0, |refs| - i
  {
    if i < |refs| {
      var c := OldChildStep(srv, a, frame, base, refs[i], i, st);
      assert c.result.Ok?;
      assert c.st.out == st.out + Preorder(srv, ForElements(a), false, frame.children[i], base + [i]) by {
        OldChildStepOutput(srv, a, frame, base, refs[i], i, st);
      }
      var w := OldChildren(srv, a, frame, base, refs, i + 1, c.st);
      assert OldChildren(srv, a, frame, base, refs, i, st) == w;
      assert w.st.out == c.st.out + ChildrenPreorder(srv, ForElements(a), false, frame, base, i + 1) && w.st.current == [] by {
        OldChildrenOutput(srv, a, frame, base, refs, i + 1, c.st);
      }
      assert ChildrenPreorder(srv, ForElements(a), false, frame, base, i)
        == Preorder(srv, ForElements(a), false, frame.children[i], base + [i]) + ChildrenPreorder(srv, ForElements(a), false, frame, base, i + 1);
    }
  }

  lemma {:induction false} OldChildStepOutput(srv: Server, a: ElementAction, frame: Frame, base: seq<nat>, ref: FrameRef, i: nat, st: St)
    requires srv.failures == map[] && FrameAt(srv.page, base) == Some(frame) && InPage(srv, st)
    requires i < |frame.children| && ref == FrameRef(base + [i])
    requires OldChildStep(srv, a, frame, base, ref, i, st).result.Ok?
    ensures OldChildStep(srv, a, frame, base, ref, i, st).st.out == st.out + Preorder(srv, ForElements(a), false, frame.children[i], base + [i])
    decreases frame, 0, 0
  {
    FrameAtChild(srv.page, base, i);
    var s := SwitchToFrameStep(srv, st, Some(ref));
    assert s.result.Ok? && s.st.current == base + [i];
    OldWalkOutput(srv, a, frame.children[i], base + [i], s.st);
  }

  /**
   * With no failing call, the old commands succeed exactly on `Narrow`
   * pages, and there print what the new commands print.
   */
  lemma OldCommandNarrow(srv: Server, a: ElementAction, st: St)
    requires srv.failures == map[] && InPage(srv, st)
    ensures OldCommandSpec(srv, a, st).result.Ok? <==> Narrow(FrameAt(srv.page, st.current).value, st.current)
    ensures OldCommandSpec(srv, a, st).result.Ok? ==> OldCommandSpec(srv, a, st).st.out == st.out + Preorder(srv, ForElements(a), false, FrameAt(srv.page, st.current).value, st.current)
  {
    var frame := FrameAt(srv.page, st.current).value;
    OldWalkPasses(srv, a, frame, st.current, st);
    if OldWalk(srv, a, frame, st.current, st).result.Ok? {
      OldWalkOutput(srv, a, frame, st.current, st);
    }
  }

  /** A page whose one frame holds two frames. */
  const NESTED_PAGE: Frame := Frame([], [Frame([], [Frame([], []), Frame([], [])])])

  /**
   * On `NESTED_PAGE`, with no failing call, the old `text` fails: after the
   * first inner frame it is back in the top frame, where the second inner
   * frame's element is not found. The new command walks the same page.
   */
  lemma NestedPageDefeatsOldWalk(srv: Server, a: ElementAction, st: St)
    requires srv.failures == map[] && srv.page == NESTED_PAGE && st.current == []
    ensures OldCommandSpec(srv, a, st).result == Err(NO_SUCH_FRAME)
    ensures CommandSpec(srv, ForElements(a), false, st).result.Ok?
  {
    OldCommandNarrow(srv, a, st);
    assert !Chain(NESTED_PAGE.children[0]);
    CommandPreorder(srv, ForElements(a), false, st);
  }
}
