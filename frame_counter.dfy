/**
 * The frame counter of examples/common/frame.rs: `FrameUniform` holds a
 * `u32` frame index that starts at 1 and is advanced with `wrapping_add(1)`.
 */
module FrameCounter {
  import opened Bits

  /** One `update`: add one, wrapping from `u32::MAX` to zero. */
  function Next(index: u32): (next: u32)
    ensures index < 0xFFFF_FFFF ==> next == index + 1
    ensures index == 0xFFFF_FFFF ==> next == 0
  {
    WrapU32(index + 1)
  }

  /** The index after `n` updates from `start`: `start + n` modulo 2^32. */
  function IndexAfter(start: u32, n: nat): (index: u32)
    ensures index == (start + n) % 0x1_0000_0000
    decreases n
  {
    if n == 0 then start
    else
      var before := IndexAfter(start, n - 1);
      ModSucc(start + n - 1);
      assert Next(before) == WrapU32((start + n - 1) % 0x1_0000_0000 + 1);
      Next(before)
  }

  /** Taking the remainder before adding one does not change the final remainder. */
  lemma ModSucc(a: nat)
    ensures (a % 0x1_0000_0000 + 1) % 0x1_0000_0000 == (a + 1) % 0x1_0000_0000
  {
    var q, r := a / 0x1_0000_0000, a % 0x1_0000_0000;
    assert a == q * 0x1_0000_0000 + r;
    if r + 1 < 0x1_0000_0000 {
      DivModUnique(a + 1, q, r + 1);
    } else {
      DivModUnique(a + 1, q + 1, 0);
    }
  }

  /** The remainder is the unique one. */
  lemma DivModUnique(x: nat, q: nat, r: nat)
    requires r < 0x1_0000_0000 && x == q * 0x1_0000_0000 + r
    ensures x % 0x1_0000_0000 == r
  {
  }

  /** From a new uniform, `n` updates leave the index at `(1 + n) mod 2^32`; it never stays at a value. */
  lemma FromNew(n: nat)
    ensures IndexAfter(1, n) == (1 + n) % 0x1_0000_0000
    ensures IndexAfter(1, n + 1) != IndexAfter(1, n)
  {
  }

  class FrameUniform {
    var frameIndex: u32

    /** `FrameUniform::new`: the index starts at 1. */
    constructor ()
      ensures frameIndex == 1
    {
      frameIndex := 1;
    }

    /** `update`: one wrapping step of the index. */
    method Update()
      modifies this
      ensures frameIndex == Next(old(frameIndex))
      ensures frameIndex == IndexAfter(old(frameIndex), 1)
    {
      frameIndex := WrapU32(frameIndex + 1);
    }
  }
}
