/**
 * Window and GL context set-up in neo/sys/glimp.cpp for SDL2: the schedule
 * of colour, depth and stencil sizes GLimp_Init tries, the multisample
 * retry inside each attempt, the display chosen for the window, the video
 * size with its framebuffer override, and GLimp_GrabInput.
 *
 * Whether SDL creates a window for a set of attributes is a function given
 * to the model; so are the window's size and the display bounds.
 */
module Glimp {
  import opened Wrappers
  import opened Events

  // ------------------------------------------------------ attribute schedule

  /** The persistent colorbits, depthbits and stencilbits of GLimp_Init. */
  datatype Bits = Bits(color: int, depth: int, stencil: int)

  /** The GL attributes of one window-creation attempt. */
  datatype Attribs = Attribs(channelBits: int, depthBits: int, stencilBits: int, alphaBits: int, multiSamples: int)

  /** The attributes of one attempt before its multisample count is chosen. */
  datatype Trial = Trial(channelBits: int, depthBits: int, stencilBits: int, alphaBits: int)
  {
    function With(m: int): Attribs
    {
      Attribs(channelBits, depthBits, stencilBits, alphaBits, m)
    }
  }

  const NUM_ATTEMPTS := 16
  const INITIAL_BITS := Bits(24, 24, 8)

  /** One size reduction: 24 to 16, 16 to 8, anything else unchanged. */
  function StepDown(v: int): (r: int)
  {
    if v == 24 then 16 else if v == 16 then 8 else v
  }

  /**
   * The reduction at the start of every fourth attempt, pass = i / 4:
   * pass 2 lowers colour 24 to 16; pass 1 lowers depth and then falls through
   * into pass 3, which lowers stencil.
   */
  function ReducePass(b: Bits, pass: int): Bits
  {
    if pass == 2 then Bits(if b.color == 24 then 16 else b.color, b.depth, b.stencil)
    else if pass == 1 then Bits(b.color, StepDown(b.depth), StepDown(b.stencil))
    else if pass == 3 then Bits(b.color, b.depth, StepDown(b.stencil))
    else b
  }

  /** The persistent sizes during pass p (attempts 4p to 4p + 3). */
  function PassBits(p: nat): Bits
  {
    if p == 0 then INITIAL_BITS else ReducePass(PassBits(p - 1), p)
  }

  /**
   * The attempt-local reductions: attempt i % 4 == 1 lowers stencil (8 to 0),
   * 2 lowers depth, 3 lowers colour; channels are 8 bits for 24-bit colour
   * and 4 otherwise, and alpha has as many bits as a channel.
   */
  function TrialFor(b: Bits, i: nat): Trial
  {
    var tcolor := if i % 4 == 3 && b.color == 24 then 16 else b.color;
    var tdepth := if i % 4 == 2 then StepDown(b.depth) else b.depth;
    var tstencil := if i % 4 == 1 then (if b.stencil == 24 || b.stencil == 16 then StepDown(b.stencil) else 0) else b.stencil;
    var channel := if tcolor == 24 then 8 else 4;
    Trial(channel, tdepth, tstencil, channel)
  }

  function TrialAt(i: nat): Trial
  {
    TrialFor(PassBits(i / 4), i)
  }

  /** The persistent sizes in closed form: depth drops at attempt 4, colour at 8, stencil stays 8. */
  lemma {:induction false} PassBitsClosedForm(p: nat)
    requires p < 4
    ensures PassBits(p) == if p == 0 then Bits(24, 24, 8) else if p == 1 then Bits(24, 16, 8) else Bits(16, 16, 8)
  {
    if p > 0 {
      PassBitsClosedForm(p - 1);
    }
  }

  /** The persistent sizes current at attempt i are those of pass i / 4. */
  lemma PassOfAttempt(i: nat)
    ensures i % 4 == 0 && i != 0 ==> ReducePass(PassBits((i - 1) / 4), i / 4) == PassBits(i / 4)
    ensures i % 4 != 0 ==> PassBits((i - 1) / 4) == PassBits(i / 4)
  {
  }

  /** No pass ever increases a persistent size. */
  lemma {:induction false} PassBitsNeverIncrease(p: nat, q: nat)
    requires p <= q
    ensures PassBits(q).color <= PassBits(p).color
    ensures PassBits(q).depth <= PassBits(p).depth
    ensures PassBits(q).stencil <= PassBits(p).stencil
    decreases q - p
  {
    if p < q {
      PassBitsNeverIncrease(p, q - 1);
    }
  }

  /** What each of the sixteen attempts asks for. */
  lemma TrialValues(i: nat)
    requires i < NUM_ATTEMPTS
    ensures var b := PassBits(i / 4);
            var t := TrialAt(i);
            (i % 4 == 0 ==> t.depthBits == b.depth && t.stencilBits == b.stencil)
            && (i % 4 == 1 ==> t.stencilBits == 0 && t.depthBits == b.depth)
            && (i % 4 == 2 ==> t.depthBits == b.depth - 8 && t.stencilBits == b.stencil)
            && (i % 4 == 3 ==> t.channelBits == 4)
            && (t.channelBits == 8 <==> i < 8 && i % 4 != 3)
            && t.alphaBits == t.channelBits
  {
    PassBitsClosedForm(i / 4);
  }

  // ---------------------------------------------------------- MSAA retry

  /** The multisample count after a failed attempt: 2 or fewer becomes 0, more is halved. */
  function MsaaNext(m: int): (r: int)
    requires m > 1
    ensures 0 <= r < m
  {
    if m <= 2 then 0 else m / 2
  }

  /**
   * The attempts `goto try_again` makes with one trial: the requested count,
   * then each reduced one while it is above 1.
   */
  function Tries(t: Trial, m: int): (r: seq<Attribs>)
    ensures |r| >= 1 && r[0] == t.With(m)
    ensures forall k :: 0 < k < |r| ==> 0 <= r[k].multiSamples < r[k - 1].multiSamples
    ensures forall k :: 0 <= k < |r| ==> r[k] == t.With(r[k].multiSamples)
    decreases if m > 1 then m else 0
  {
    if m > 1 then [t.With(m)] + Tries(t, MsaaNext(m)) else [t.With(m)]
  }

  /** Every attempt of GLimp_Init from attempt i on, in order. */
  function AttemptsFrom(i: nat, ms: int): seq<Attribs>
    decreases NUM_ATTEMPTS - i
  {
    if i >= NUM_ATTEMPTS then [] else Tries(TrialAt(i), ms) + AttemptsFrom(i + 1, ms)
  }

  /** The first attempt SDL accepts. */
  function FirstAccepted(s: seq<Attribs>, accepts: Attribs -> bool): Option<Attribs>
  {
    if s == [] then None
    else if accepts(s[0]) then Some(s[0])
    else FirstAccepted(s[1..], accepts)
  }

  /** The attributes GLimp_Init's window is created with: the first accepted attempt, if any. */
  function ChosenAttribs(multiSamples: int, accepts: Attribs -> bool): Option<Attribs>
  {
    FirstAccepted(AttemptsFrom(0, multiSamples), accepts)
  }

  /** FirstAccepted finds an accepted attempt with every earlier one refused, or reports that all are refused. */
  lemma {:induction false} FirstAcceptedIsFirst(s: seq<Attribs>, accepts: Attribs -> bool)
    ensures var r := FirstAccepted(s, accepts);
            (r.Some? ==> exists k :: 0 <= k < |s| && s[k] == r.value && accepts(s[k])
                                     && forall j :: 0 <= j < k ==> !accepts(s[j]))
            && (r.None? <==> forall k :: 0 <= k < |s| ==> !accepts(s[k]))
  {
    if s != [] && !accepts(s[0]) {
      FirstAcceptedIsFirst(s[1..], accepts);
      var r := FirstAccepted(s[1..], accepts);
      if r.Some? {
        var k :| 0 <= k < |s[1..]| && s[1..][k] == r.value && accepts(s[1..][k])
                 && forall j :: 0 <= j < k ==> !accepts(s[1..][j]);
        assert s[k + 1] == r.value;
        forall j | 0 <= j < k + 1 ensures !accepts(s[j]) {
          if j > 0 {
            assert s[j] == s[1..][j - 1];
          }
        }
      } else {
        forall k | 0 <= k < |s| ensures !accepts(s[k]) {
          if k > 0 {
            assert s[k] == s[1..][k - 1];
          }
        }
      }
    }
  }

  lemma {:induction false} FirstAcceptedAppend(a: seq<Attribs>, b: seq<Attribs>, accepts: Attribs -> bool)
    ensures FirstAccepted(a + b, accepts) == if FirstAccepted(a, accepts).Some? then FirstAccepted(a, accepts) else FirstAccepted(b, accepts)
  {
    if a != [] {
      assert (a + b)[1..] == a[1..] + b;
      FirstAcceptedAppend(a[1..], b, accepts);
    } else {
      assert a + b == b;
    }
  }

  lemma AttemptsFromStep(i: nat, ms: int, accepts: Attribs -> bool)
    requires i < NUM_ATTEMPTS
    ensures FirstAccepted(AttemptsFrom(i, ms), accepts)
         == if FirstAccepted(Tries(TrialAt(i), ms), accepts).Some? then FirstAccepted(Tries(TrialAt(i), ms), accepts)
            else FirstAccepted(AttemptsFrom(i + 1, ms), accepts)
  {
    FirstAcceptedAppend(Tries(TrialAt(i), ms), AttemptsFrom(i + 1, ms), accepts);
  }

  /** The multisample retry ends: a count m > 1 is tried at most m times. */
  lemma {:induction false} MsaaRetryBound(t: Trial, m: int)
    ensures |Tries(t, m)| <= (if m > 1 then m else 1)
    decreases if m > 1 then m else 0
  {
    if m > 1 {
      MsaaRetryBound(t, MsaaNext(m));
    }
  }

  // ------------------------------------------------------------ display

  datatype Rect = Rect(x: int, y: int, w: int, h: int)
  {
    /** The half-open containment test of the display pick. */
    predicate Contains(px: int, py: int)
    {
      x <= px < x + w && y <= py < y + h
    }
  }

  /** The first display from j on whose bounds are known and contain the point. */
  function FindDisplay(bounds: seq<Option<Rect>>, px: int, py: int, j: nat): (r: Option<nat>)
    requires j <= |bounds|
    ensures r.Some? ==> j <= r.value < |bounds| && bounds[r.value].Some? && bounds[r.value].value.Contains(px, py)
    ensures r.Some? ==> forall k :: j <= k < r.value ==> !(bounds[k].Some? && bounds[k].value.Contains(px, py))
    ensures r.None? ==> forall k :: j <= k < |bounds| ==> !(bounds[k].Some? && bounds[k].value.Contains(px, py))
    decreases |bounds| - j
  {
    if j == |bounds| then None
    else if bounds[j].Some? && bounds[j].value.Contains(px, py) then Some(j)
    else FindDisplay(bounds, px, py, j + 1)
  }

  /**
   * The display GLimp_Init puts the window on: the first whose bounds contain
   * the mouse cursor, display 0 when none does. `bounds[j]` is None when
   * SDL_GetDisplayBounds fails for display j.
   */
  method PickDisplay(bounds: seq<Option<Rect>>, mouseX: int, mouseY: int) returns (displayIndex: int)
    ensures displayIndex == match FindDisplay(bounds, mouseX, mouseY, 0) case Some(j) => j case None => 0
  {
    displayIndex := 0;
    var found := false;
    for j := 0 to |bounds|
      invariant !found ==> FindDisplay(bounds, mouseX, mouseY, 0) == FindDisplay(bounds, mouseX, mouseY, j) && displayIndex == 0
      invariant found ==> FindDisplay(bounds, mouseX, mouseY, 0) == Some(displayIndex)
    {
      if bounds[j].Some? {
        var rect := bounds[j].value;
        if !found && mouseX >= rect.x && mouseX < rect.x + rect.w && mouseY >= rect.y && mouseY < rect.y + rect.h {
          displayIndex := j;
          found := true;
        }
      }
    }
  }

  // -------------------------------------------------------- video size

  datatype VideoSize = VideoSize(width: int, height: int, widthReal: int, heightReal: int)

  /**
   * The real size is the window's; the render size is r_framebufferWidth and
   * r_framebufferHeight when both are non-zero, the window's otherwise.
   */
  function VideoSizeFor(winW: int, winH: int, fbW: int, fbH: int): (r: VideoSize)
    ensures r.widthReal == winW && r.heightReal == winH
    ensures fbW != 0 && fbH != 0 ==> r.width == fbW && r.height == fbH
    ensures fbW == 0 || fbH == 0 ==> r.width == winW && r.height == winH
  {
    if fbW != 0 && fbH != 0 then VideoSize(fbW, fbH, winW, winH)
    else VideoSize(winW, winH, winW, winH)
  }

  // ------------------------------------------------------------ the window

  /** The window state of glimp.cpp and the glConfig fields GLimp_Init sets. */
  class GlWindow {
    var window: bool          // window != NULL
    var rMultiSamples: int    // r_multiSamples
    var vidWidth: int
    var vidHeight: int
    var vidWidthReal: int
    var vidHeightReal: int
    var cursorShown: bool     // SDL_ShowCursor
    var relativeMouse: bool   // SDL_SetRelativeMouseMode
    var windowGrab: bool      // SDL_SetWindowGrab

    constructor ()
      ensures !window
    {
      window := false;
      rMultiSamples := 0;
      vidWidth, vidHeight, vidWidthReal, vidHeightReal := 0, 0, 0, 0;
      cursorShown, relativeMouse, windowGrab := true, false, false;
    }

    /**
     * The window-creation loop of GLimp_Init: sixteen attempts, each retried
     * with fewer samples while that is possible; the first set of attributes
     * SDL accepts is used. `accepts` says whether SDL_CreateWindow succeeds.
     */
    method CreateWindow(multiSamples: int, accepts: Attribs -> bool) returns (used: Option<Attribs>)
      ensures used == ChosenAttribs(multiSamples, accepts)
    {
      var bits := INITIAL_BITS;
      ghost var first := FirstAccepted(AttemptsFrom(0, multiSamples), accepts);
      for i := 0 to NUM_ATTEMPTS
        invariant i > 0 ==> bits == PassBits((i - 1) / 4)
        invariant i == 0 ==> bits == PassBits(0)
        invariant first == FirstAccepted(AttemptsFrom(i, multiSamples), accepts)
      {
        if i % 4 == 0 && i != 0 {
          bits := ReduceBits(bits, i / 4);
        }
        PassOfAttempt(i);
        var t := AttemptTrial(bits, i);
        AttemptsFromStep(i, multiSamples, accepts);
        used := TryMultisamples(t, multiSamples, accepts);
        if used.Some? {
          return;
        }
      }
      return None;
    }

    /** The switch on i / 4, with case 1 falling through into case 3. */
    method ReduceBits(b: Bits, pass: int) returns (r: Bits)
      ensures r == ReducePass(b, pass)
    {
      var colorbits, depthbits, stencilbits := b.color, b.depth, b.stencil;
      if pass == 2 {
        if colorbits == 24 {
          colorbits := 16;
        }
      } else if pass == 1 || pass == 3 {
        if pass == 1 {
          if depthbits == 24 {
            depthbits := 16;
          } else if depthbits == 16 {
            depthbits := 8;
          }
        }
        if stencilbits == 24 {
          stencilbits := 16;
        } else if stencilbits == 16 {
          stencilbits := 8;
        }
      }
      return Bits(colorbits, depthbits, stencilbits);
    }

    /** The attempt-local reductions and the channel and alpha sizes. */
    method AttemptTrial(b: Bits, i: nat) returns (t: Trial)
      ensures t == TrialFor(b, i)
    {
      var tcolorbits, tdepthbits, tstencilbits := b.color, b.depth, b.stencil;
      if i % 4 == 3 {
        if tcolorbits == 24 {
          tcolorbits := 16;
        }
      }
      if i % 4 == 2 {
        if tdepthbits == 24 {
          tdepthbits := 16;
        } else if tdepthbits == 16 {
          tdepthbits := 8;
        }
      }
      if i % 4 == 1 {
        if tstencilbits == 24 {
          tstencilbits := 16;
        } else if tstencilbits == 16 {
          tstencilbits := 8;
        } else {
          tstencilbits := 0;
        }
      }
      var channelcolorbits := 4;
      if tcolorbits == 24 {
        channelcolorbits := 8;
      }
      return Trial(channelcolorbits, tdepthbits, tstencilbits, channelcolorbits);
    }

    /** The `try_again` loop: one trial with the requested and then fewer samples. */
    method TryMultisamples(t: Trial, multiSamples: int, accepts: Attribs -> bool) returns (used: Option<Attribs>)
      ensures used == FirstAccepted(Tries(t, multiSamples), accepts)
    {
      var multisamples := multiSamples;
      while true
        invariant FirstAccepted(Tries(t, multiSamples), accepts) == FirstAccepted(Tries(t, multisamples), accepts)
        decreases if multisamples > 1 then multisamples else 0
      {
        if accepts(t.With(multisamples)) {
          return Some(t.With(multisamples));
        }
        if multisamples > 1 {
          multisamples := if multisamples <= 2 then 0 else multisamples / 2;
        } else {
          return None;
        }
      }
    }

    /**
     * GLimp_Init without the SDL bug 4700 work-around: on success the used
     * multisample count goes to r_multiSamples and the video size is set;
     * without an accepted attempt no window exists and the result is false.
     */
    method Init(multiSamples: int, accepts: Attribs -> bool, winW: int, winH: int, fbW: int, fbH: int)
      returns (ok: bool)
      modifies this
      ensures var first := ChosenAttribs(multiSamples, accepts);
              ok == first.Some? && window == ok
              && (ok ==> rMultiSamples == first.value.multiSamples
                         && VideoSize(vidWidth, vidHeight, vidWidthReal, vidHeightReal) == VideoSizeFor(winW, winH, fbW, fbH))
              && (!ok ==> rMultiSamples == old(rMultiSamples))
    {
      var used := CreateWindow(multiSamples, accepts);
      if used.None? {
        window := false;
        return false;
      }
      window := true;
      rMultiSamples := used.value.multiSamples;
      SetVideoSize(winW, winH, fbW, fbH);
      return true;
    }

    /** The window's size is the real size; the render size is overridden by a framebuffer size. */
    method SetVideoSize(winW: int, winH: int, fbW: int, fbH: int)
      modifies this`vidWidth, this`vidHeight, this`vidWidthReal, this`vidHeightReal
      ensures VideoSize(vidWidth, vidHeight, vidWidthReal, vidHeightReal) == VideoSizeFor(winW, winH, fbW, fbH)
    {
      vidWidth, vidHeight := winW, winH;
      vidWidthReal, vidHeightReal := vidWidth, vidHeight;
      if fbW != 0 && fbH != 0 {
        vidWidth, vidHeight := fbW, fbH;
      }
    }

    /** GLimp_GrabInput: each flag sets one SDL setting; nothing happens without a window. */
    method GrabInput(flags: set<GrabFlag>)
      modifies this`cursorShown, this`relativeMouse, this`windowGrab
      ensures !window ==> cursorShown == old(cursorShown) && relativeMouse == old(relativeMouse) && windowGrab == old(windowGrab)
      ensures window ==> cursorShown == (HideCursor !in flags) && relativeMouse == (RelativeMouse in flags)
                         && windowGrab == (GrabMouse in flags)
    {
      if !window {
        return;
      }
      cursorShown := HideCursor !in flags;
      relativeMouse := RelativeMouse in flags;
      windowGrab := GrabMouse in flags;
    }
  }
}
