/**
 The viewport tier resolver: the window width decides how many children the
 balloon container may hold before spawning stops (MAX_BALLOONS) and how often
 the spawn timer fires (SPAWN_INTERVAL, in milliseconds).
 */
module Viewport {

  /** Width classes, cut at 480 and 768 pixels (both bounds inclusive downwards). */
  datatype Tier = Narrow | Medium | Wide

  /** The pair of globals the page keeps per tier. */
  datatype Config = Config(maxBalloons: nat, spawnInterval: nat)

  /** 0 for the narrowest tier, 2 for the widest. */
  function Rank(t: Tier): nat
  {
    match t
    case Narrow => 0
    case Medium => 1
    case Wide => 2
  }

  /** Classifies a window width. */
  function TierOf(width: int): (t: Tier)
    ensures t == Narrow <==> width <= 480
    ensures t == Wide <==> 768 < width
  {
    if width <= 480 then Narrow
    else if width <= 768 then Medium
    else Wide
  }

  /**
   The configuration each tier assigns. Capacities stay between 4 and 10 and
   intervals between 1400 and 2000 ms; every interval is a multiple of 5, so
   the initial batch's step of one fifth of it is a whole number of milliseconds.
   */
  function TierConfig(t: Tier): (c: Config)
    ensures 4 <= c.maxBalloons <= 10
    ensures 1400 <= c.spawnInterval <= 2000
    ensures c.spawnInterval % 5 == 0
  {
    match t
    case Narrow => Config(4, 2000)
    case Medium => Config(6, 1600)
    case Wide => Config(10, 1400)
  }

  /** The configuration the page holds for a given width. */
  function ConfigFor(width: int): Config
  {
    TierConfig(TierOf(width))
  }

  /** The three tiers, stated by width range. */
  lemma ConfigByWidth(width: int)
    ensures width <= 480 ==> ConfigFor(width) == Config(4, 2000)
    ensures 480 < width <= 768 ==> ConfigFor(width) == Config(6, 1600)
    ensures 768 < width ==> ConfigFor(width) == Config(10, 1400)
  {
  }

  /** A wider window never lowers the tier. */
  lemma TierMonotone(w1: int, w2: int)
    requires w1 <= w2
    ensures Rank(TierOf(w1)) <= Rank(TierOf(w2))
  {
  }

  /**
   A strictly narrower tier holds strictly fewer children and spawns strictly
   less often; within a tier the configuration is the same.
   */
  lemma NarrowerTierFewerAndSlower(t1: Tier, t2: Tier)
    ensures Rank(t1) < Rank(t2) <==>
              TierConfig(t1).maxBalloons < TierConfig(t2).maxBalloons
    ensures Rank(t1) < Rank(t2) <==>
              TierConfig(t1).spawnInterval > TierConfig(t2).spawnInterval
    ensures t1 == t2 <==> TierConfig(t1) == TierConfig(t2)
  {
  }

  /** As the window widens, capacity never drops and the interval never grows. */
  lemma WiderNeverSmallerOrSlower(w1: int, w2: int)
    requires w1 <= w2
    ensures ConfigFor(w1).maxBalloons <= ConfigFor(w2).maxBalloons
    ensures ConfigFor(w1).spawnInterval >= ConfigFor(w2).spawnInterval
  {
    TierMonotone(w1, w2);
    NarrowerTierFewerAndSlower(TierOf(w1), TierOf(w2));
  }
}
