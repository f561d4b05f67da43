/**
 The page's mutable state: the two tier globals, the balloon container's
 child list, the confetti appended to the document body, and the handlers
 that change them. Triggers (timer firings, mouse moves, page load, resize)
 are method calls; the clock is the `now` argument, in milliseconds.
 */
module Balloons {
  import opened Viewport
  import opened Draws
  import opened Entities
  import opened Lifecycle

  class Scene {
    /** Current window width, read by the position formula at each spawn. */
    var width: int
    /** MAX_BALLOONS: the capacity gate of the container. */
    var maxBalloons: nat
    /** SPAWN_INTERVAL: reassigned on resize, but read only at load. */
    var spawnInterval: nat
    /** Window width when the page loaded. */
    const loadWidth: int
    /** Period of the repeating spawn timer, fixed when it was registered at load. */
    const timerPeriod: nat
    /** Whether the element with id balloonsContainer exists. */
    const hasContainer: bool
    /** Whether the element with class birthday-text exists. */
    const hasAnchor: bool
    /** Children of the balloon container: balloons and sparkles. */
    var container: seq<Entity>
    /** Confetti particles appended to the document body. */
    var body: seq<Entity>
    /** Id the next created entity receives. */
    var nextId: nat

    ghost predicate Valid()
      reads this
    {
      && Config(maxBalloons, spawnInterval) == ConfigFor(width)
      && timerPeriod == ConfigFor(loadWidth).spawnInterval
      && (!hasContainer ==> container == [])
      && IdsBelow(container, nextId) && IdsBelow(body, nextId)
      && IdsIncreasing(container) && IdsIncreasing(body)
      && IdsDisjoint(container, body)
    }

    /**
     Page load in a window `w` pixels wide: the globals start at the wide tier's
     values and are overridden for narrower windows, and the repeating spawn
     timer takes the interval in force.
     */
    constructor (w: int, containerPresent: bool, anchorPresent: bool)
      ensures Valid()
      ensures width == w && loadWidth == w
      ensures Config(maxBalloons, spawnInterval) == ConfigFor(w)
      ensures timerPeriod == spawnInterval
      ensures hasContainer == containerPresent && hasAnchor == anchorPresent
      ensures container == [] && body == []
    {
      var max, interval := 10, 1400;
      if w <= 480 {
        max, interval := 4, 2000;
      } else if w <= 768 {
        max, interval := 6, 1600;
      }
      width, loadWidth := w, w;
      maxBalloons, spawnInterval := max, interval;
      timerPeriod := interval;
      hasContainer, hasAnchor := containerPresent, anchorPresent;
      container, body, nextId := [], [], 0;
    }

    /**
     The resize handler: both globals follow the new width's tier. The running
     spawn timer keeps its load-time period, so after a change of tier the
     period differs from SPAWN_INTERVAL; entities already on the page are
     untouched.
     */
    method Resize(w: int)
      requires Valid()
      modifies this`width, this`maxBalloons, this`spawnInterval
      ensures Valid()
      ensures width == w && Config(maxBalloons, spawnInterval) == ConfigFor(w)
      ensures TierOf(w) != TierOf(loadWidth) <==> spawnInterval != timerPeriod
    {
      width := w;
      if w <= 480 {
        maxBalloons, spawnInterval := 4, 2000;
      } else if w <= 768 {
        maxBalloons, spawnInterval := 6, 1600;
      } else {
        maxBalloons, spawnInterval := 10, 1400;
      }
      NarrowerTierFewerAndSlower(TierOf(w), TierOf(loadWidth));
    }

    /**
     createBalloon: refused when the container is missing or already holds
     MAX_BALLOONS children of any kind; otherwise one balloon is appended, with
     its removal scheduled for the end of its rise, and nothing else changes.
     */
    method Spawn(now: int, d: BalloonDraws) returns (spawned: bool)
      requires Valid() && ValidBalloonDraws(d)
      modifies this`container, this`nextId
      ensures Valid()
      ensures spawned <==> hasContainer && |old(container)| < maxBalloons
      ensures container ==
                Admit(hasContainer, old(container), maxBalloons, NewBalloon(old(nextId), now, width, d))
      ensures spawned ==> |container| <= maxBalloons
      ensures nextId == if spawned then old(nextId) + 1 else old(nextId)
    {
      if !hasContainer {
        return false;
      }
      if |container| >= maxBalloons {
        return false;
      }
      var balloon := NewBalloon(nextId, now, width, d);
      container := container + [balloon];
      nextId := nextId + 1;
      spawned := true;
    }

    /**
     The mouse-move handler: when the firing draw exceeds 0.985, one sparkle
     near the pointer is appended to the balloon container, bypassing the
     capacity gate, with removal 900 ms later. A firing handler does not check
     that the container exists, so the caller must guarantee it then.
     */
    method Sparkle(now: int, clientX: real, clientY: real, d: SparkleDraws) returns (emitted: bool)
      requires Valid() && ValidSparkleDraws(d)
      requires SparkleFires(d.trigger) ==> hasContainer
      modifies this`container, this`nextId
      ensures Valid()
      ensures emitted <==> SparkleFires(d.trigger)
      ensures container == if emitted then old(container) + [NewSparkle(old(nextId), now, clientX, clientY, d)]
                           else old(container)
      ensures nextId == if emitted then old(nextId) + 1 else old(nextId)
    {
      emitted := SparkleFires(d.trigger);
      if emitted {
        container := container + [NewSparkle(nextId, now, clientX, clientY, d)];
        nextId := nextId + 1;
      }
    }

    /**
     The page-load confetti: nothing without the anchor; otherwise 60 particles
     fanned evenly around a full turn are appended to the document body, each
     removed 1800 ms later. The balloon container is not touched.
     */
    method Burst(now: int, draws: seq<ConfettiDraw>)
      requires Valid()
      requires |draws| == ConfettiCount
      requires forall i :: 0 <= i < |draws| ==> ValidConfettiDraw(draws[i])
      modifies this`body, this`nextId
      ensures Valid()
      ensures !hasAnchor ==> body == old(body) && nextId == old(nextId)
      ensures hasAnchor ==> body == old(body) + BurstParticles(old(nextId), now, draws)
      ensures hasAnchor ==> nextId == old(nextId) + ConfettiCount
    {
      if !hasAnchor {
        return;
      }
      ghost var particles := BurstParticles(nextId, now, draws);
      var i := 0;
      while i < ConfettiCount
        invariant 0 <= i <= ConfettiCount
        invariant Valid()
        invariant nextId == old(nextId) + i
        invariant body == old(body) + particles[..i]
      {
        body := body + [ConfettiParticle(nextId, now, i, draws[i])];
        nextId := nextId + 1;
        i := i + 1;
      }
    }

    /**
     Every removal timer due by time `now` fires: the entities whose deadlines
     have been reached leave the container and the body, the rest stay in order.
     */
    method Tick(now: int)
      requires Valid()
      modifies this`container, this`body
      ensures Valid()
      ensures container == Expire(old(container), now)
      ensures body == Expire(old(body), now)
    {
      container := Expire(container, now);
      body := Expire(body, now);
    }
  }
}
