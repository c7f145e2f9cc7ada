/**
 * The off-screen framebuffer of neo/renderer/framebuffer.cpp: fixNpot, the
 * decision in R_InitFrameBuffer to skip or to pad the buffer to powers of
 * two, and the early returns of R_FrameBufferStart and R_FrameBufferEnd.
 *
 * GL objects are reduced to the framebuffer name and to whether rendering
 * currently goes to the framebuffer; shaders, textures and the final quad
 * draw are not part of this model.
 */
module FrameBuffer {

  /** A GLuint holding -1: the initial value of m_framebuffer. */
  const NO_FRAMEBUFFER := 0xFFFF_FFFF

  const INT_MAX := 0x7FFF_FFFF

  /** The largest size fixNpot can pad: 2^30; past it the 32-bit `ret <<= 1` overflows. */
  const MAX_NPOT_INPUT := 0x4000_0000

  predicate IsPowerOfTwo(n: int)
    decreases if n > 0 then n else 0
  {
    n == 1 || (n > 1 && n % 2 == 0 && IsPowerOfTwo(n / 2))
  }

  /** r is the least power of two that is at least v. */
  predicate LeastPowerOfTwoAtLeast(r: int, v: int)
  {
    IsPowerOfTwo(r) && r >= v && (r > 1 ==> r / 2 < v)
  }

  /** fixNpot: doubling from 1 until the size is reached. */
  method FixNpot(v: int) returns (ret: int)
    requires v <= MAX_NPOT_INPUT
    ensures LeastPowerOfTwoAtLeast(ret, v)
    ensures ret <= INT_MAX
  {
    ret := 1;
    while ret < v
      invariant IsPowerOfTwo(ret)
      invariant ret == 1 || ret / 2 < v
      invariant ret <= INT_MAX
      decreases v - ret
    {
      ret := ret * 2;
    }
  }

  /** Two powers of two p <= q < 2p are equal. */
  lemma {:induction false} PowersOfTwoWithinFactorTwo(p: int, q: int)
    requires IsPowerOfTwo(p) && IsPowerOfTwo(q)
    requires p <= q < 2 * p
    ensures p == q
    decreases p
  {
    if p > 1 {
      PowersOfTwoWithinFactorTwo(p / 2, q / 2);
    }
  }

  /** The result of fixNpot is determined by its contract: only one value is the least power of two. */
  lemma LeastPowerOfTwoUnique(v: int, r: int, s: int)
    requires LeastPowerOfTwoAtLeast(r, v) && LeastPowerOfTwoAtLeast(s, v)
    ensures r == s
  {
    if r <= s {
      PowersOfTwoWithinFactorTwo(r, s);
    } else {
      PowersOfTwoWithinFactorTwo(s, r);
    }
  }

  /** fixNpot(v) == 1 for every v <= 1. */
  lemma NpotOfSmallIsOne(v: int, r: int)
    requires v <= 1 && LeastPowerOfTwoAtLeast(r, v)
    ensures r == 1
  {
    LeastPowerOfTwoUnique(v, r, 1);
  }

  /** fixNpot(p) == p for a power of two p; hence fixNpot(fixNpot(v)) == fixNpot(v). */
  lemma NpotOfPowerOfTwo(p: int, r: int)
    requires IsPowerOfTwo(p) && LeastPowerOfTwoAtLeast(r, p)
    ensures r == p
  {
    PowersOfTwoWithinFactorTwo(p, r);
  }

  /** The framebuffer statics of framebuffer.cpp and glConfig.npotAvailable. */
  class FrameBufferState {
    var framebuffer: int      // m_framebuffer
    var width: int            // m_framebuffer_width
    var height: int           // m_framebuffer_height
    var npotAvailable: bool   // glConfig.npotAvailable
    var renderingToBuffer: bool

    constructor (npot: bool)
      ensures framebuffer == NO_FRAMEBUFFER && npotAvailable == npot && !renderingToBuffer
    {
      framebuffer := NO_FRAMEBUFFER;
      width, height := 0, 0;
      npotAvailable := npot;
      renderingToBuffer := false;
    }

    /**
     * R_InitFrameBuffer: nothing is set up when the window and render sizes
     * agree; otherwise npot textures are switched off, so the buffer is
     * always padded to powers of two. `generated` is the name
     * glGenFramebuffers returns.
     */
    method InitFrameBuffer(vidWidthReal: int, vidHeightReal: int, vidWidth: int, vidHeight: int, generated: int)
      requires vidWidth <= MAX_NPOT_INPUT && vidHeight <= MAX_NPOT_INPUT
      modifies this
      ensures vidWidthReal == vidWidth && vidHeightReal == vidHeight ==>
                framebuffer == old(framebuffer) && width == old(width) && height == old(height)
                && npotAvailable == old(npotAvailable) && renderingToBuffer == old(renderingToBuffer)
      ensures !(vidWidthReal == vidWidth && vidHeightReal == vidHeight) ==>
                !npotAvailable && framebuffer == generated && renderingToBuffer == old(renderingToBuffer)
                && LeastPowerOfTwoAtLeast(width, vidWidth) && LeastPowerOfTwoAtLeast(height, vidHeight)
    {
      if vidWidthReal == vidWidth && vidHeightReal == vidHeight {
        return;
      }
      npotAvailable := false;
      width := vidWidth;
      height := vidHeight;
      if !npotAvailable {
        width := FixNpot(width);
        height := FixNpot(height);
      }
      framebuffer := generated;
    }

    /** R_FrameBufferStart: rendering is redirected only once a framebuffer exists. */
    method Start()
      modifies this`renderingToBuffer
      ensures framebuffer == NO_FRAMEBUFFER ==> renderingToBuffer == old(renderingToBuffer)
      ensures framebuffer != NO_FRAMEBUFFER ==> renderingToBuffer
    {
      if framebuffer == NO_FRAMEBUFFER {
        return;
      }
      renderingToBuffer := true;
    }

    /** R_FrameBufferEnd: rendering goes back to the window only once a framebuffer exists. */
    method End()
      modifies this`renderingToBuffer
      ensures framebuffer == NO_FRAMEBUFFER ==> renderingToBuffer == old(renderingToBuffer)
      ensures framebuffer != NO_FRAMEBUFFER ==> !renderingToBuffer
    {
      if framebuffer == NO_FRAMEBUFFER {
        return;
      }
      renderingToBuffer := false;
    }
  }
}
