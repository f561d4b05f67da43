/**
 The randomised parameters of each visual entity. Every call to the page's
 uniform random source is a caller-supplied draw `r` with 0 <= r < 1; each
 parameter is an affine image of one draw.
 */
module Draws {

  /** A draw of the uniform random source. */
  predicate Unit(r: real)
  {
    0.0 <= r < 1.0
  }

  /** The six colours shared by balloons, sparkles and confetti. */
  const Palette: seq<string> :=
    ["#FF4444", "#4444FF", "#44FF44", "#FFFF44", "#FF44FF", "#FF8844"]

  /** The palette slot a draw selects: floor(r * 6). */
  function PaletteIndex(r: real): (k: nat)
    requires Unit(r)
    ensures k < |Palette|
  {
    var f := (r * |Palette| as real).Floor;
    assert 0 <= f;
    f as nat
  }

  /** The colour a draw selects. */
  function ColorOf(r: real): (c: string)
    requires Unit(r)
    ensures c in Palette
  {
    Palette[PaletteIndex(r)]
  }

  /** Each colour is chosen by exactly one sixth of the unit interval. */
  lemma PaletteIndexPreimage(r: real, k: nat)
    requires Unit(r) && k < |Palette|
    ensures PaletteIndex(r) == k <==> k as real / 6.0 <= r < (k + 1) as real / 6.0
  {
    var f := (r * 6.0).Floor;
    assert f as real <= r * 6.0 < f as real + 1.0;
  }

  /**
   Horizontal position, in percent of the container width. On a window at most
   480 pixels wide a first draw picks the left band (below one half) or the right
   band, and a second draw places the balloon within that band; otherwise a single
   draw spreads it over the whole usable width.
   */
  function LeftPercent(width: int, side: real, position: real): (left: real)
    requires Unit(side) && Unit(position)
    ensures width <= 480 ==> (5.0 <= left < 25.0 <==> side < 0.5)
    ensures width <= 480 ==> (75.0 <= left < 95.0 <==> 0.5 <= side)
    ensures width <= 480 ==> !(25.0 <= left < 75.0)
    ensures 480 < width ==> 5.0 <= left < 95.0
  {
    if width <= 480 then
      if side < 0.5 then 5.0 + position * 20.0 else 75.0 + position * 20.0
    else
      5.0 + position * 90.0
  }

  /** Every point of the permitted bands is a possible position. */
  lemma LeftPercentCoversBands(width: int, left: real)
    requires if width <= 480 then 5.0 <= left < 25.0 || 75.0 <= left < 95.0
             else 5.0 <= left < 95.0
    ensures exists side, position :: Unit(side) && Unit(position) &&
                                     LeftPercent(width, side, position) == left
  {
    if width > 480 {
      var p := (left - 5.0) / 90.0;
      assert LeftPercent(width, 0.0, p) == left;
    } else if left < 25.0 {
      var p := (left - 5.0) / 20.0;
      assert LeftPercent(width, 0.0, p) == left;
    } else {
      var p := (left - 75.0) / 20.0;
      assert LeftPercent(width, 0.5, p) == left;
    }
  }

  /** Duration of the rise animation, in seconds. */
  function RiseSeconds(r: real): (d: real)
    requires Unit(r)
    ensures 8.0 <= d < 14.0
  {
    8.0 + r * 6.0
  }

  /** Every duration in [8, 14) seconds is a possible rise duration. */
  lemma RiseSecondsCovers(d: real)
    requires 8.0 <= d < 14.0
    ensures exists r :: Unit(r) && RiseSeconds(r) == d
  {
    assert RiseSeconds((d - 8.0) / 6.0) == d;
  }

  /**
   The removal delay handed to the timer: the rise duration in milliseconds,
   truncated to a whole number as the timer API converts its delay argument.
   With a timer that fires exactly when due, removal comes at the end of the
   rise animation, at most one millisecond early and never late.
   */
  function RemovalDelayMs(seconds: real): (ms: int)
    requires 8.0 <= seconds < 14.0
    ensures 8000 <= ms < 14000
    ensures ms as real <= seconds * 1000.0 < ms as real + 1.0
  {
    (seconds * 1000.0).Floor
  }

  /** Period of the looping sway animation, in seconds. */
  function SwaySeconds(r: real): (p: real)
    requires Unit(r)
    ensures 3.0 <= p < 5.0
  {
    3.0 + r * 2.0
  }

  /** Static rotation of a balloon, in degrees. */
  function TiltDegrees(r: real): (deg: real)
    requires Unit(r)
    ensures -6.0 <= deg < 6.0
  {
    r * 12.0 - 6.0
  }

  /** Sway period and tilt reach every value of their ranges. */
  lemma SwayAndTiltCover(p: real, deg: real)
    requires 3.0 <= p < 5.0 && -6.0 <= deg < 6.0
    ensures exists r :: Unit(r) && SwaySeconds(r) == p
    ensures exists r :: Unit(r) && TiltDegrees(r) == deg
  {
    assert SwaySeconds((p - 3.0) / 2.0) == p;
    assert TiltDegrees((deg + 6.0) / 12.0) == deg;
  }

  /** A mouse move emits a sparkle only when its draw exceeds 0.985. */
  predicate SparkleFires(r: real)
  {
    r > 0.985
  }

  /** Offset of a sparkle from the pointer on one axis, in pixels. */
  function JitterPx(r: real): (dx: real)
    requires Unit(r)
    ensures -40.0 <= dx < 40.0
  {
    (r - 0.5) * 80.0
  }

  /** Every offset in [-40, 40) pixels is a possible jitter. */
  lemma JitterCovers(dx: real)
    requires -40.0 <= dx < 40.0
    ensures exists r :: Unit(r) && JitterPx(r) == dx
  {
    assert JitterPx(dx / 80.0 + 0.5) == dx;
  }

  /** Travel distance of a confetti particle, in pixels. */
  function ConfettiDistancePx(r: real): (dist: real)
    requires Unit(r)
    ensures 200.0 <= dist < 350.0
  {
    200.0 + r * 150.0
  }

  /** Every distance in [200, 350) pixels is a possible travel distance. */
  lemma ConfettiDistanceCovers(dist: real)
    requires 200.0 <= dist < 350.0
    ensures exists r :: Unit(r) && ConfettiDistancePx(r) == dist
  {
    assert ConfettiDistancePx((dist - 200.0) / 150.0) == dist;
  }
}
