/**
 * Configuration the projector screen reads from the scene's constants.
 * The values belong to the scene, not to the widget, so they are left
 * unspecified here: every property below holds for whatever values they take.
 */
module Constants {
  /** Index of the last slide on the strip; the first slide has index 0. */
  const LAST_SLIDE_INDEX: nat

  /** Width of one slide, in pixels. */
  const SLIDE_SIZE: int
}

/**
 * The slide index arithmetic of the projector screen: moving forward wraps
 * around to the first slide, moving backward stops at the first slide.
 */
module Slides {
  import opened Constants

  /** The index shown after moving forward from slide `i`. */
  function NextIndex(i: nat): (r: nat)
    ensures r <= LAST_SLIDE_INDEX
    ensures i <= LAST_SLIDE_INDEX ==> r == (i + 1) % (LAST_SLIDE_INDEX + 1)
    ensures i <= LAST_SLIDE_INDEX ==> (r == i <==> LAST_SLIDE_INDEX == 0)
  {
    if i + 1 > LAST_SLIDE_INDEX then 0 else i + 1
  }

  /** The index shown after moving backward from slide `i`: one less, but not below 0. */
  function PrevIndex(i: nat): (r: nat)
    ensures r <= i <= r + 1
    ensures r == i <==> i == 0
  {
    if i - 1 > 0 then i - 1 else 0
  }

  /**
   * The horizontal translation, in pixels, that brings slide `i` into view:
   * the first slide sits at the origin, and with a positive slide width the
   * strip only ever moves left.
   */
  function SlideOffset(i: nat): (r: int)
    ensures r == 0 <==> i == 0 || SLIDE_SIZE == 0
    ensures SLIDE_SIZE > 0 ==> r <= 0
  {
    i * SLIDE_SIZE * -1
  }

  /** The index reached by moving forward `n` times from slide `i`. */
  function NextTimes(i: nat, n: nat): (r: nat)
    decreases n
  {
    if n == 0 then i else NextTimes(NextIndex(i), n - 1)
  }

  /** The index reached by moving backward `n` times from slide `i`. */
  function PrevTimes(i: nat, n: nat): (r: nat)
    decreases n
  {
    if n == 0 then i else PrevTimes(PrevIndex(i), n - 1)
  }

  /** Each slide has its own position: two slides share an offset only if they are the same slide. */
  lemma SlideOffsetsDistinct(i: nat, j: nat)
    requires SLIDE_SIZE != 0
    ensures SlideOffset(i) == SlideOffset(j) <==> i == j
  {
  }

  /** The move after `k` forward moves is one more forward move: `k + 1` moves end with `NextIndex`. */
  lemma {:induction false} NextTimesLast(i: nat, k: nat)
    ensures NextTimes(i, k + 1) == NextIndex(NextTimes(i, k))
    decreases k
  {
    if k > 0 {
      NextTimesLast(NextIndex(i), k - 1);
    }
  }

  /** A multiple of `m` strictly between `-m` and `m` is zero. */
  lemma MultipleBelowIsZero(d: int, m: int)
    requires m > 0 && -m < d * m < m
    ensures d == 0
  {
  }

  /** Adding a whole cycle does not change a remainder. */
  lemma ModCycle(k: nat, m: nat)
    requires m > 0
    ensures (m + k) % m == k % m
  {
    var q, r := k / m, k % m;
    var q', r' := (m + k) / m, (m + k) % m;
    assert (q + 1 - q') * m == r' - r;
    MultipleBelowIsZero(q + 1 - q', m);
  }

  /** Moving forward `n` times lands on `i + n` counted modulo the number of slides. */
  lemma {:induction false} NextTimesModular(i: nat, n: nat)
    requires i <= LAST_SLIDE_INDEX
    ensures NextTimes(i, n) == (i + n) % (LAST_SLIDE_INDEX + 1)
    decreases n
  {
    if n > 0 {
      var j := NextIndex(i);
      NextTimesModular(j, n - 1);
      if i == LAST_SLIDE_INDEX {
        ModCycle(n - 1, LAST_SLIDE_INDEX + 1);
      }
    }
  }

  /** One forward move per slide brings the screen back to the slide it started on. */
  lemma NextTimesFullCycle(i: nat)
    requires i <= LAST_SLIDE_INDEX
    ensures NextTimes(i, LAST_SLIDE_INDEX + 1) == i
  {
    NextTimesModular(i, LAST_SLIDE_INDEX + 1);
    ModCycle(i, LAST_SLIDE_INDEX + 1);
  }

  /** Moving backward `n` times from slide `i` lands on `i - n`, or on 0 once that would be negative. */
  lemma {:induction false} PrevTimesClamps(i: nat, n: nat)
    ensures PrevTimes(i, n) == if n <= i then i - n else 0
    decreases n
  {
    if n > 0 {
      PrevTimesClamps(PrevIndex(i), n - 1);
    }
  }
}
