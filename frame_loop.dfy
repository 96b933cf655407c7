/**
 * The state the frame loop of `run` keeps between frames (main.c:12-16,
 * 47-112): the `run` flag, the window size reported by resize events, the
 * size the texture was last created for, and whether a texture exists.
 * Every SDL call is an opaque step: polling supplies a batch of events,
 * texture creation and locking only succeed or fail.
 */
module FrameLoop {
  import opened CTypes

  datatype Option<T> = None | Some(value: T)

  /** The kinds of `SDL_WINDOWEVENT` the loop tells apart; `data1` and `data2` of a resize event are `Sint32`. */
  datatype WindowEvent = Close | Resized(data1: I32, data2: I32) | OtherWindowEvent

  /** An event as `SDL_PollEvent` delivers it. */
  datatype Event = Quit | Window(window: WindowEvent) | OtherEvent

  /** Storing a `Sint32` into an `unsigned` keeps it modulo 2^32. */
  function ToUnsigned(v: I32): (u: U32)
    ensures v >= 0 ==> u == v
    ensures v < 0 ==> u == v + 0x1_0000_0000
  {
    v % 0x1_0000_0000
  }

  /** The loop's locals between frames; `hasTexture` is `texture != NULL`. */
  datatype LoopState = LoopState(
    run: bool,
    width: U32,
    height: U32,
    oldWidth: U32,
    oldHeight: U32,
    hasTexture: bool)

  /** The locals on entry to the loop (main.c:11-16). */
  const INITIAL: LoopState := LoopState(true, 256, 256, 0, 0, false)

  /** A quit event or a window-close event stops the loop. */
  predicate Stops(e: Event)
  {
    e == Quit || e == Window(Close)
  }

  /** A resize event, with the size it reports. */
  predicate IsResize(e: Event)
  {
    e.Window? && e.window.Resized?
  }

  /** One pass of the `switch` of main.c:50-71. */
  function ApplyEvent(s: LoopState, e: Event): LoopState
  {
    match e
    case Quit => s.(run := false)
    case Window(Close) => s.(run := false)
    case Window(Resized(w, h)) => s.(width := ToUnsigned(w), height := ToUnsigned(h))
    case Window(OtherWindowEvent) => s
    case OtherEvent => s
  }

  /** The inner `while (SDL_PollEvent(&event))` loop over one batch, in order. */
  function ApplyEvents(s: LoopState, events: seq<Event>): LoopState
  {
    if events == [] then s
    else ApplyEvent(ApplyEvents(s, events[..|events| - 1]), events[|events| - 1])
  }

  /** The size differs from the one the texture was created for (main.c:75-76). */
  predicate NeedsRealloc(s: LoopState)
  {
    s.width != s.oldWidth || s.height != s.oldHeight
  }

  /** What one iteration of the loop body needs from SDL. */
  datatype FrameInput = FrameInput(events: seq<Event>, textureOk: bool, lockOk: bool)

  /** How an iteration ends: on to the next `while (run)` test, or `return code`. */
  datatype FrameStatus = Continue | Exit(code: int)

  /**
   * Locking the texture (main.c:107-111): fails, and `run` returns 1, when
   * SDL reports an error, which it does in particular when there is no
   * texture.
   */
  function Lock(s: LoopState, lockOk: bool): (r: (LoopState, FrameStatus))
    ensures r.0 == s
    ensures r.1 == Continue <==> s.hasTexture && lockOk
    ensures r.1 != Continue ==> r.1 == Exit(1)
  {
    if s.hasTexture && lockOk then (s, Continue) else (s, Exit(1))
  }

  /**
   * One iteration of the loop body: poll, reallocate on a size change
   * (returning 3 if the texture cannot be created), lock. Rendering into
   * the locked buffer, unlocking and presenting change none of the state.
   */
  function Frame(s: LoopState, input: FrameInput): (LoopState, FrameStatus)
  {
    var p := ApplyEvents(s, input.events);
    if NeedsRealloc(p) then
      if !input.textureOk then (p.(hasTexture := false), Exit(3))
      else Lock(p.(oldWidth := p.width, oldHeight := p.height, hasTexture := true), input.lockOk)
    else Lock(p, input.lockOk)
  }

  /**
   * `while (run) { … }` over a finite script of frames; `None` when the
   * script ends with the loop still running, `Some(code)` when `run` returns.
   */
  function RunFrames(s: LoopState, frames: seq<FrameInput>): (LoopState, Option<int>)
    decreases |frames|
  {
    if !s.run then (s, Some(0))
    else if frames == [] then (s, None)
    else
      var (t, status) := Frame(s, frames[0]);
      if status.Exit? then (t, Some(status.code)) else RunFrames(t, frames[1..])
  }

  /**
   * After a batch, `run` is still set exactly when it was set before and
   * the batch holds no quit or window-close event; nothing else clears it.
   * Polling never touches the texture or the size it was created for.
   */
  lemma {:induction false} RunAfterEvents(s: LoopState, events: seq<Event>)
    ensures ApplyEvents(s, events).run <==> s.run && forall i :: 0 <= i < |events| ==> !Stops(events[i])
    ensures ApplyEvents(s, events).oldWidth == s.oldWidth && ApplyEvents(s, events).oldHeight == s.oldHeight
    ensures ApplyEvents(s, events).hasTexture == s.hasTexture
  {
    if events != [] {
      var init := events[..|events| - 1];
      RunAfterEvents(s, init);
      assert forall i :: 0 <= i < |init| ==> init[i] == events[i];
    }
  }

  /** A batch without resize events leaves the window size alone. */
  lemma {:induction false} SizeWithoutResize(s: LoopState, events: seq<Event>)
    requires forall i :: 0 <= i < |events| ==> !IsResize(events[i])
    ensures ApplyEvents(s, events).width == s.width && ApplyEvents(s, events).height == s.height
  {
    if events != [] {
      SizeWithoutResize(s, events[..|events| - 1]);
    }
  }

  /**
   * After a batch, the window size is the one the last resize event of the
   * batch reported, stored into unsigned; `run` is not affected by resizes.
   */
  lemma {:induction false} SizeFromLastResize(s: LoopState, events: seq<Event>, i: nat)
    requires i < |events| && IsResize(events[i])
    requires forall j :: i < j < |events| ==> !IsResize(events[j])
    ensures ApplyEvents(s, events).width == ToUnsigned(events[i].window.data1)
    ensures ApplyEvents(s, events).height == ToUnsigned(events[i].window.data2)
  {
    var init := events[..|events| - 1];
    if i == |events| - 1 {
    } else {
      assert forall j :: i < j < |init| ==> init[j] == events[j];
      SizeFromLastResize(s, init, i);
    }
  }

  /** A resize event updates the size and leaves `run` as it was. */
  lemma ResizeKeepsRun(s: LoopState, w: I32, h: I32)
    ensures ApplyEvent(s, Window(Resized(w, h))).run == s.run
    ensures ApplyEvent(s, Window(Resized(w, h))).width == ToUnsigned(w)
    ensures ApplyEvent(s, Window(Resized(w, h))).height == ToUnsigned(h)
  {
  }

  /**
   * An iteration that gets past the texture step has reallocated exactly
   * when the polled size differed from the texture's, and afterwards the
   * texture's size is the polled size. A failed creation returns 3.
   */
  lemma ReallocExactlyOnChange(s: LoopState, input: FrameInput)
    ensures var p := ApplyEvents(s, input.events);
      var (t, status) := Frame(s, input);
      && (status == Exit(3) <==> NeedsRealloc(p) && !input.textureOk)
      && (status != Exit(3) ==>
            t.width == p.width && t.height == p.height &&
            t.oldWidth == t.width && t.oldHeight == t.height &&
            t.run == p.run &&
            (NeedsRealloc(p) ==> t.hasTexture) &&
            (!NeedsRealloc(p) ==> t == p))
  {
  }

  /**
   * Because the loop starts at 256x256 with the texture's size at 0x0, the
   * first iteration reallocates unless its events resize the window to
   * exactly 0x0; in particular it reallocates when there is no resize.
   */
  lemma {:induction false} FirstFrameReallocates(events: seq<Event>)
    ensures NeedsRealloc(ApplyEvents(INITIAL, events)) <==>
      (ApplyEvents(INITIAL, events).width, ApplyEvents(INITIAL, events).height) != (0, 0)
    ensures (forall i :: 0 <= i < |events| ==> !IsResize(events[i])) ==> NeedsRealloc(ApplyEvents(INITIAL, events))
  {
    RunAfterEvents(INITIAL, events);
    if forall i :: 0 <= i < |events| ==> !IsResize(events[i]) {
      SizeWithoutResize(INITIAL, events);
    }
  }

  /** After an iteration that continues, a batch without resizes does not reallocate. */
  lemma NoReallocWithoutResize(s: LoopState, input: FrameInput, next: seq<Event>)
    requires Frame(s, input).1 == Continue
    requires forall i :: 0 <= i < |next| ==> !IsResize(next[i])
    ensures !NeedsRealloc(ApplyEvents(Frame(s, input).0, next))
  {
    ReallocExactlyOnChange(s, input);
    var t := Frame(s, input).0;
    SizeWithoutResize(t, next);
    RunAfterEvents(t, next);
  }

  /**
   * A quit or close event does not cut the current iteration short: the
   * frame is still drawn, and `run` returns 0 at the next test of the flag,
   * whatever input would come after.
   */
  lemma StopEndsRun(s: LoopState, input: FrameInput, rest: seq<FrameInput>, i: nat)
    requires s.run && i < |input.events| && Stops(input.events[i])
    requires Frame(s, input).1 == Continue
    ensures RunFrames(s, [input] + rest) == (Frame(s, input).0, Some(0))
  {
    RunAfterEvents(s, input.events);
    ReallocExactlyOnChange(s, input);
    assert ([input] + rest)[0] == input && ([input] + rest)[1..] == rest;
  }

  /** The locals of `run` that survive from one iteration to the next. */
  class Loop {
    var run: bool
    var windowWidth: U32
    var windowHeight: U32
    var oldWindowWidth: U32
    var oldWindowHeight: U32
    var hasTexture: bool

    /** The locals as a value. */
    function State(): LoopState
      reads this
    {
      LoopState(run, windowWidth, windowHeight, oldWindowWidth, oldWindowHeight, hasTexture)
    }

    /** main.c:8-16. */
    constructor ()
      ensures State() == INITIAL
    {
      run := true;
      windowWidth, windowHeight := 256, 256;
      oldWindowWidth, oldWindowHeight := 0, 0;
      hasTexture := false;
    }

    /** The `switch` of main.c:50-71 for one event. */
    method HandleEvent(e: Event)
      modifies this
      ensures State() == ApplyEvent(old(State()), e)
    {
      match e
      case Quit =>
        run := false;
      case Window(w) =>
        match w {
          case Close =>
            run := false;
          case Resized(data1, data2) =>
            windowWidth := ToUnsigned(data1);
            windowHeight := ToUnsigned(data2);
          case OtherWindowEvent =>
        }
      case OtherEvent =>
    }

    /** The `while (SDL_PollEvent(&event))` loop of main.c:49-72 over one batch. */
    method PollEvents(events: seq<Event>)
      modifies this
      ensures State() == ApplyEvents(old(State()), events)
    {
      var i := 0;
      while i < |events|
        invariant 0 <= i <= |events|
        invariant State() == ApplyEvents(old(State()), events[..i])
      {
        HandleEvent(events[i]);
        assert events[..i + 1][..i] == events[..i];
        i := i + 1;
      }
      assert events[..i] == events;
    }

    /**
     * main.c:75-100: on a size change, destroy the texture and create one of
     * the new size (`textureOk` says whether SDL managed to), then record the
     * size. Returns whether it reallocated and whether creation failed.
     */
    method Reallocate(textureOk: bool) returns (resized: bool, failed: bool)
      modifies this
      ensures resized == NeedsRealloc(old(State()))
      ensures failed == (resized && !textureOk)
      ensures State() ==
        if !resized then old(State())
        else if failed then old(State()).(hasTexture := false)
        else old(State()).(oldWidth := windowWidth, oldHeight := windowHeight, hasTexture := true)
    {
      resized := windowWidth != oldWindowWidth || windowHeight != oldWindowHeight;
      failed := false;
      if resized {
        hasTexture := false;
        if !textureOk {
          failed := true;
          return;
        }
        hasTexture := true;
        oldWindowWidth := windowWidth;
        oldWindowHeight := windowHeight;
      }
    }

    /** One iteration of the body of `while (run)`, up to the lock. */
    method Iterate(input: FrameInput) returns (status: FrameStatus)
      modifies this
      ensures (State(), status) == Frame(old(State()), input)
    {
      PollEvents(input.events);
      var resized, failed := Reallocate(input.textureOk);
      if failed {
        return Exit(3);
      }
      if !hasTexture || !input.lockOk {
        return Exit(1);
      }
      status := Continue;
    }

    /** `while (run) { … } … return 0;` over a finite script of frames. */
    method Run(frames: seq<FrameInput>) returns (code: Option<int>)
      modifies this
      ensures (State(), code) == RunFrames(old(State()), frames)
    {
      var i := 0;
      while run && i < |frames|
        invariant 0 <= i <= |frames|
        invariant RunFrames(State(), frames[i..]) == RunFrames(old(State()), frames)
        decreases |frames| - i
      {
        assert frames[i..][0] == frames[i] && frames[i..][1..] == frames[i + 1..];
        var status := Iterate(frames[i]);
        if status.Exit? {
          return Some(status.code);
        }
        i := i + 1;
      }
      if !run {
        return Some(0);
      }
      assert frames[i..] == [];
      code := None;
    }
  }
}
