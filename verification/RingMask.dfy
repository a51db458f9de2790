/** Offsets of the packet ring: stepping by a frame and masking with `size - 1` (dp/ring.c). */
module RingMask {
  import opened Basics

  /** Bitwise and. */
  function And(x: nat, y: nat): nat {
    if x == 0 || y == 0 then 0 else 2 * And(x / 2, y / 2) + if x % 2 == 1 && y % 2 == 1 then 1 else 0
  }

  function Pow2(k: nat): (p: nat)
    ensures p >= 1
  {
    if k == 0 then 1 else 2 * Pow2(k - 1)
  }

  ghost predicate IsPow2(n: nat) {
    exists k :: Pow2(k) == n
  }

  /** `dp_ring_v1`: frame and block size by mode, and the ring size for a block count. */
  function FrameSize(jumbo: bool): nat {
    if jumbo then 1024 * 16 else 1024 * 2
  }

  function BlockSize(jumbo: bool): nat {
    if jumbo then FrameSize(jumbo) * 2 else FrameSize(jumbo) * 4
  }

  function RingSize(jumbo: bool, blocks: nat): nat {
    BlockSize(jumbo) * blocks
  }

  /** The offset after the frame at `off`. */
  function NextOffset(off: nat, frame: nat, size: nat): nat
    requires size > 0
  {
    And(off + frame, size - 1)
  }

  /** The step that the ring needs: to the next frame, and from the last one to the first. */
  predicate StepsRound(off: nat, frame: nat, size: nat)
    requires size > 0
  {
    NextOffset(off, frame, size) == (off + frame) % size
  }

  lemma {:induction false} AndSelf(x: nat)
    ensures And(x, x) == x
  {
    if x > 0 {
      AndSelf(x / 2);
    }
  }

  lemma {:induction false} AndBelow(x: nat, k: nat)
    requires x < Pow2(k)
    ensures And(x, Pow2(k) - 1) == x
    decreases k
  {
    if x > 0 {
      AndBelow(x / 2, k - 1);
      assert (Pow2(k) - 1) / 2 == Pow2(k - 1) - 1;
    }
  }

  lemma {:induction false} AndTop(k: nat)
    ensures And(Pow2(k), Pow2(k) - 1) == 0
  {
    if k > 0 {
      AndTop(k - 1);
      assert (Pow2(k) - 1) / 2 == Pow2(k - 1) - 1;
    }
  }

  lemma {:induction false} AndTopOnly(n: nat)
    requires n > 0 && And(n, n - 1) == 0
    ensures IsPow2(n)
  {
    AndSelf(n / 2);
    assert n % 2 == 1 ==> (n - 1) / 2 == n / 2;
    if n == 1 {
      assert Pow2(0) == n;
    } else {
      assert (n - 1) / 2 == n / 2 - 1;
      AndTopOnly(n / 2);
      var k: nat :| Pow2(k) == n / 2;
      assert Pow2(k + 1) == n;
    }
  }

  lemma DoublePow2(n: nat)
    requires n > 0
    ensures IsPow2(2 * n) <==> IsPow2(n)
  {
    if IsPow2(n) {
      var k: nat :| Pow2(k) == n;
      assert Pow2(k + 1) == 2 * n;
    }
    if IsPow2(2 * n) {
      var k: nat :| Pow2(k) == 2 * n;
      assert Pow2(k - 1) == n;
    }
  }

  lemma TimesEight(n: nat)
    requires n > 0
    ensures IsPow2(8 * n) <==> IsPow2(n)
  {
    DoublePow2(n);
    DoublePow2(2 * n);
    DoublePow2(4 * n);
  }

  lemma Times4096(n: nat)
    requires n > 0
    ensures IsPow2(4096 * n) <==> IsPow2(n)
  {
    TimesEight(n);
    TimesEight(8 * n);
    TimesEight(64 * n);
    TimesEight(512 * n);
  }

  /** The block sizes are powers of two, so the ring size is one exactly when the count is. */
  lemma BlocksDecide(jumbo: bool, blocks: nat)
    requires blocks > 0
    ensures RingSize(jumbo, blocks) > 0
    ensures IsPow2(RingSize(jumbo, blocks)) <==> IsPow2(blocks)
  {
    Times4096(blocks);
    if jumbo {
      TimesEight(4096 * blocks);
      assert RingSize(jumbo, blocks) == 8 * (4096 * blocks);
    } else {
      DoublePow2(4096 * blocks);
      assert RingSize(jumbo, blocks) == 2 * (4096 * blocks);
    }
  }

  lemma MultiplesApart(a: nat, b: nat, f: nat)
    requires f > 0 && a < b && a % f == 0 && b % f == 0
    ensures a + f <= b
  {
    var i, j := a / f, b / f;
    assert a == f * i && b == f * j;
    assert i >= j ==> f * i >= f * j;
    assert f * (i + 1) <= f * j;
  }

  lemma ModSmall(x: nat, m: nat)
    requires 0 < m && x <= m
    ensures x % m == if x == m then 0 else x
  {
  }

  /** A frame of the ring. */
  predicate IsFrame(off: nat, frame: nat, size: nat)
    requires frame > 0
  {
    off < size && off % frame == 0
  }

  ghost predicate WalksRound(frame: nat, size: nat)
    requires frame > 0 && size > 0
  {
    forall off: nat :: IsFrame(off, frame, size) ==> StepsRound(off, frame, size)
  }

  lemma PowerWalksRound(frame: nat, size: nat, off: nat)
    requires 0 < frame <= size && size % frame == 0 && IsPow2(size) && IsFrame(off, frame, size)
    ensures StepsRound(off, frame, size)
    ensures NextOffset(off, frame, size) == if off + frame == size then 0 else off + frame
  {
    var k: nat :| Pow2(k) == size;
    MultiplesApart(off, size, frame);
    ModSmall(off + frame, size);
    if off + frame < size {
      AndBelow(off + frame, k);
    } else {
      AndTop(k);
    }
  }

  lemma LastFrame(frame: nat, size: nat)
    requires 0 < frame <= size && size % frame == 0
    ensures (size - frame) % frame == 0
  {
    StepOver(size - frame, frame);
  }

  lemma WalksRoundExactly(frame: nat, size: nat)
    requires 0 < frame <= size && size % frame == 0
    ensures WalksRound(frame, size) <==> IsPow2(size)
  {
    if IsPow2(size) {
      forall off: nat | IsFrame(off, frame, size)
        ensures StepsRound(off, frame, size)
      {
        PowerWalksRound(frame, size, off);
      }
    }
    if WalksRound(frame, size) {
      LastFrame(frame, size);
      assert IsFrame(size - frame, frame, size);
      assert StepsRound(size - frame, frame, size);
      ModSmall(size, size);
      AndTopOnly(size);
    }
  }

  lemma WholeFrames(jumbo: bool, blocks: nat)
    requires blocks > 0
    ensures 0 < FrameSize(jumbo) <= RingSize(jumbo, blocks) && RingSize(jumbo, blocks) % FrameSize(jumbo) == 0
  {
    if jumbo {
      assert RingSize(true, blocks) == 16384 * (2 * blocks);
    } else {
      assert RingSize(false, blocks) == 2048 * (4 * blocks);
    }
  }

  /** Masking walks round the whole ring, frame by frame, exactly when the ring was set up with
      a power-of-two number of blocks. */
  lemma MaskIsModuloExactly(jumbo: bool, blocks: nat)
    requires blocks > 0
    ensures 0 < FrameSize(jumbo) && 0 < RingSize(jumbo, blocks)
    ensures WalksRound(FrameSize(jumbo), RingSize(jumbo, blocks)) <==> IsPow2(blocks)
  {
    WholeFrames(jumbo, blocks);
    BlocksDecide(jumbo, blocks);
    WalksRoundExactly(FrameSize(jumbo), RingSize(jumbo, blocks));
  }

  const INLINE_BLOCK: nat := 2048
  const INLINE_BLOCK_NOTC: nat := 512
  const TAP_BLOCK: nat := 512

  /** The rings that are opened are such rings. */
  lemma OpenedRingsWalkRound(jumbo: bool, blocks: nat)
    requires blocks == INLINE_BLOCK || blocks == INLINE_BLOCK_NOTC || blocks == TAP_BLOCK
    ensures IsPow2(blocks) && 0 < FrameSize(jumbo) && 0 < RingSize(jumbo, blocks)
    ensures WalksRound(FrameSize(jumbo), RingSize(jumbo, blocks))
  {
    assert Pow2(0) == 1;
    TimesEight(1);
    TimesEight(8);
    TimesEight(64);
    DoublePow2(512);
    DoublePow2(1024);
    MaskIsModuloExactly(jumbo, blocks);
  }
}
