/**
 * The pure computations of `MainActivity`, each a single expression in the
 * source:
 * - the clock arithmetic: the position the haptic engine pulls through its
 *   sync callback, the position a release of the progress bar seeks to, and
 *   the percentage the progress bar shows;
 * - the playlist stepping: the index of the next entry of the two-element
 *   playlist and its periodicity.
 * All arithmetic is on Kotlin `Int`.
 */
module Sync {
  import opened Wrappers
  import opened KotlinInt

  /** The progress bar runs from 0 to this value. */
  const FullScale: int := 100

  /** Entries in the playlist built at start-up. */
  const PlaylistLength: nat := 2

  /**
   * The value the sync callback returns: the media engine's position plus
   * the offset slider's value, both Kotlin `Int`s.
   */
  function SyncSample(position: Int32, offset: Int32): (r: Int32)
    ensures IntMin <= position + offset <= IntMax ==> r == position + offset
    ensures offset == 0 ==> r == position
  {
    Wrap(position + offset)
  }

  /** A negative offset delays the haptic clock by that many milliseconds. */
  lemma SyncSampleDelays()
    ensures SyncSample(2000, -50) == 1950
  {
  }

  /** Scaling `k` by a fraction `a / b` of at most one gives at most `k`. */
  lemma ScaledAtMost(k: nat, a: nat, b: nat)
    requires 1 <= b && a <= b
    ensures 0 <= k * a / b <= k
  {
    var m, q := k * a, k * a / b;
    MulMonotone(k, a, b);
    assert m == b * q + m % b;
  }

  /** A factor of at most IntMax / 100 times 100 is still a Kotlin `Int`. */
  lemma ProductFits(p: nat)
    requires p <= IntMax / FullScale
    ensures FullScale * p <= IntMax
  {
    MulMonotone(FullScale, p, IntMax / FullScale);
  }

  /** `k * d / d == k` for positive `d`. */
  lemma DivSelf(k: nat, d: nat)
    requires d >= 1
    ensures k * d / d == k
  {
    var m, q := k * d, k * d / d;
    assert m == d * q + m % d;
    assert d * (k - q) == m % d;
    MulBelowDivisor(d, k - q);
  }

  /** A multiple of `d` that lies in `[0, d)` is zero times `d`. */
  lemma MulBelowDivisor(d: nat, x: int)
    requires d >= 1 && 0 <= d * x < d
    ensures x == 0
  {
    if x >= 1 {
      MulMonotone(d, 1, x);
    }
  }

  /** The position a release of the progress bar at `progress` seeks both engines to. */
  function SeekPosition(duration: Int32, progress: Int32): (r: Int32)
    ensures progress == 0 || duration == 0 ==> r == 0
    ensures progress == FullScale && 0 <= duration <= IntMax / FullScale ==> r == duration
  {
    Div(Wrap(duration * progress), FullScale)
  }

  /**
   * On the bar's range, and for a track short enough that the product does
   * not overflow, the seek position is the fraction `progress / 100` of the
   * duration, rounded down: never before the start nor past the end.
   */
  lemma SeekPositionInRange(duration: Int32, progress: Int32)
    requires 0 <= progress <= FullScale && 0 <= duration <= IntMax / FullScale
    ensures 0 <= SeekPosition(duration, progress) <= duration
    ensures SeekPosition(duration, progress) == duration * progress / FullScale
    ensures progress == 0 ==> SeekPosition(duration, progress) == 0
    ensures progress == FullScale ==> SeekPosition(duration, progress) == duration
  {
    var d: nat, p: nat := duration, progress;
    MulMonotone(d, p, FullScale);
    ScaledAtMost(d, p, FullScale);
    var product := d * p;
    assert Wrap(product) == product;
  }

  /** Half way through a ten-second track is five seconds in. */
  lemma SeekHalfWay()
    ensures SeekPosition(10000, 50) == 5000
  {
  }

  /**
   * For a track longer than IntMax / 100 milliseconds (about 5.97 hours) the
   * product `duration * progress` can wrap around, and the seek then goes to a
   * wrong position. Just past that point, a release at the end of the bar
   * seeks to a negative position.
   */
  lemma SeekPositionWrapsForLongTracks()
    ensures SeekPosition(IntMax / FullScale + 1, FullScale) < 0
  {
  }

  /**
   * The percentage a timer tick writes to the progress bar; None when
   * `duration` is 0, where Kotlin's `Int` division throws.
   */
  function ProgressPercent(position: Int32, duration: Int32): (r: Option<Int32>)
    ensures r.None? <==> duration == 0
  {
    if duration == 0 then None else Some(Div(Wrap(FullScale * position), duration))
  }

  /**
   * While the position lies within the track, and below the point where
   * `100 * position` overflows, the percentage is the fraction of the track
   * played, rounded down, between 0 and 100.
   */
  lemma ProgressPercentInRange(position: Int32, duration: Int32)
    requires 0 <= position <= duration && 0 < duration && position <= IntMax / FullScale
    ensures ProgressPercent(position, duration).Some?
    ensures 0 <= ProgressPercent(position, duration).value <= FullScale
    ensures ProgressPercent(position, duration).value == FullScale * position / duration
    ensures position == duration ==> ProgressPercent(position, duration).value == FullScale
  {
    var p: nat, d: nat := position, duration;
    var product := FullScale * p;
    ProductFits(p);
    assert Wrap(product) == product;
    var q := Div(product, duration);
    assert q == product / d;
    ScaledAtMost(FullScale, p, d);
    if p == d {
      DivSelf(FullScale, d);
    }
  }

  /** `if (++curAssetIndex > 1) curAssetIndex = 0`: the index of the next playlist entry. */
  function NextIndex(index: nat): (r: nat)
    ensures r < PlaylistLength
    ensures index < PlaylistLength ==> r != index && r == (index + 1) % PlaylistLength
  {
    if index + 1 > 1 then 0 else index + 1
  }

  /** The index after `n` switches to the next entry. */
  function Advanced(index: nat, n: nat): nat
    decreases n
  {
    if n == 0 then index else Advanced(NextIndex(index), n - 1)
  }

  /** Switching `n` times moves `n` places round the playlist. */
  lemma {:induction false} AdvancedCycles(index: nat, n: nat)
    requires index < PlaylistLength
    ensures Advanced(index, n) == (index + n) % PlaylistLength
    decreases n
  {
    if n > 0 {
      AdvancedCycles(NextIndex(index), n - 1);
    }
  }

  /** Switching as many times as the playlist is long returns to the same entry. */
  lemma {:induction false} SwitchingIsPeriodic(index: nat, n: nat)
    requires index < PlaylistLength
    ensures Advanced(index, n + PlaylistLength) == Advanced(index, n)
  {
    AdvancedCycles(index, n + PlaylistLength);
    AdvancedCycles(index, n);
  }

  /** From the first entry, three switches end on the second: 0, 1, 0, 1. */
  lemma ThreeSwitchesFromFirst()
    ensures Advanced(0, 3) == 1
  {
    AdvancedCycles(0, 3);
  }
}
