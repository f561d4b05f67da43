/**
 The visual entities the page creates: what each one carries and when its
 removal timer fires. Times are absolute milliseconds on the page's clock.
 */
module Entities {
  import opened Draws

  /** What a visual entity is, with the parameters its animation uses. */
  datatype Visual =
    | Balloon(color: string, leftPercent: real, riseSeconds: real,
              swaySeconds: real, tiltDegrees: real)
    | Sparkle(color: string, x: real, y: real)
    | Confetti(color: string, turn: real, distancePx: real)

  /** An entity in the display tree and the time its removal is scheduled for. */
  datatype Entity = Entity(id: nat, visual: Visual, deadline: int)

  /** The draws one balloon consumes, in the order the page takes them. */
  datatype BalloonDraws =
    BalloonDraws(color: real, side: real, position: real, rise: real, sway: real, tilt: real)

  predicate ValidBalloonDraws(d: BalloonDraws)
  {
    Unit(d.color) && Unit(d.side) && Unit(d.position) &&
    Unit(d.rise) && Unit(d.sway) && Unit(d.tilt)
  }

  /** The draws one sparkle consumes: the firing test, two jitters, a colour. */
  datatype SparkleDraws = SparkleDraws(trigger: real, dx: real, dy: real, color: real)

  predicate ValidSparkleDraws(d: SparkleDraws)
  {
    Unit(d.trigger) && Unit(d.dx) && Unit(d.dy) && Unit(d.color)
  }

  /** The draws one confetti particle consumes: a colour, then a distance. */
  datatype ConfettiDraw = ConfettiDraw(color: real, distance: real)

  predicate ValidConfettiDraw(d: ConfettiDraw)
  {
    Unit(d.color) && Unit(d.distance)
  }

  /** Lifetime of a sparkle, in milliseconds (the length of its fade). */
  const SparkleLifetimeMs: nat := 900

  /** Lifetime of a confetti particle, in milliseconds (the length of its burst). */
  const ConfettiLifetimeMs: nat := 1800

  /** Number of particles in the confetti burst. */
  const ConfettiCount: nat := 60

  /**
   The balloon spawned at time `now` in a window `width` pixels wide: every
   parameter within its range, and removal scheduled for the end of its rise.
   */
  function NewBalloon(id: nat, now: int, width: int, d: BalloonDraws): (e: Entity)
    requires ValidBalloonDraws(d)
    ensures e.id == id && e.visual.Balloon?
    ensures e.visual.color in Palette
    ensures width <= 480 ==> (5.0 <= e.visual.leftPercent < 25.0 || 75.0 <= e.visual.leftPercent < 95.0)
    ensures 5.0 <= e.visual.leftPercent < 95.0
    ensures 8.0 <= e.visual.riseSeconds < 14.0
    ensures 3.0 <= e.visual.swaySeconds < 5.0
    ensures -6.0 <= e.visual.tiltDegrees < 6.0
    ensures now + 8000 <= e.deadline < now + 14000
    ensures (e.deadline - now) as real <= e.visual.riseSeconds * 1000.0 < (e.deadline - now + 1) as real
  {
    var rise := RiseSeconds(d.rise);
    Entity(id,
           Balloon(ColorOf(d.color), LeftPercent(width, d.side, d.position), rise,
                   SwaySeconds(d.sway), TiltDegrees(d.tilt)),
           now + RemovalDelayMs(rise))
  }

  /** The sparkle emitted near pointer position (clientX, clientY) at time `now`. */
  function NewSparkle(id: nat, now: int, clientX: real, clientY: real, d: SparkleDraws): (e: Entity)
    requires ValidSparkleDraws(d)
    ensures e.id == id && e.visual.Sparkle?
    ensures e.visual.color in Palette
    ensures clientX - 40.0 <= e.visual.x < clientX + 40.0
    ensures clientY - 40.0 <= e.visual.y < clientY + 40.0
    ensures e.deadline == now + 900
  {
    Entity(id, Sparkle(ColorOf(d.color), clientX + JitterPx(d.dx), clientY + JitterPx(d.dy)),
           now + SparkleLifetimeMs)
  }

  /**
   Particle `i` of the burst: it travels along the direction `i / 60` of a
   full turn (the angle 2 * pi * i / 60 radians).
   */
  function ConfettiParticle(id: nat, now: int, i: nat, d: ConfettiDraw): (e: Entity)
    requires i < ConfettiCount && ValidConfettiDraw(d)
    ensures e.id == id && e.visual.Confetti?
    ensures e.visual.color in Palette
    ensures 0.0 <= e.visual.turn < 1.0
    ensures 200.0 <= e.visual.distancePx < 350.0
    ensures e.deadline == now + 1800
  {
    Entity(id, Confetti(ColorOf(d.color), i as real / ConfettiCount as real,
                        ConfettiDistancePx(d.distance)),
           now + ConfettiLifetimeMs)
  }

  /** The particles of a burst started at time `now`, numbered from `firstId`. */
  function BurstParticles(firstId: nat, now: int, draws: seq<ConfettiDraw>): (ps: seq<Entity>)
    requires |draws| == ConfettiCount
    requires forall i :: 0 <= i < |draws| ==> ValidConfettiDraw(draws[i])
    ensures |ps| == 60
    ensures forall i :: 0 <= i < |ps| ==> ps[i].id == firstId + i
    ensures forall i :: 0 <= i < |ps| ==> ps[i].visual.Confetti? && ps[i].visual.turn == i as real / 60.0
    ensures forall i :: 0 <= i < |ps| ==> 200.0 <= ps[i].visual.distancePx < 350.0
    ensures forall e :: e in ps ==> e.deadline == now + 1800
  {
    seq(ConfettiCount, i requires 0 <= i < ConfettiCount =>
          ConfettiParticle(firstId + i, now, i, draws[i]))
  }

  /**
   The burst is a perfect radial fan: consecutive particles are one sixtieth of
   a turn apart, the last is one sixtieth short of closing the circle, and no two
   particles share a direction.
   */
  lemma BurstIsRadialFan(firstId: nat, now: int, draws: seq<ConfettiDraw>)
    requires |draws| == ConfettiCount
    requires forall i :: 0 <= i < |draws| ==> ValidConfettiDraw(draws[i])
    ensures var ps := BurstParticles(firstId, now, draws);
            && ps[0].visual.turn == 0.0
            && (forall i :: 0 <= i < 59 ==> ps[i + 1].visual.turn - ps[i].visual.turn == 1.0 / 60.0)
            && ps[59].visual.turn + 1.0 / 60.0 == 1.0
            && (forall i, j :: 0 <= i < j < 60 ==> ps[i].visual.turn < ps[j].visual.turn)
  {
  }
}
