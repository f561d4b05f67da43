/**
 The one-shot spawn schedules: the initial batch at page load, and the pair
 of spawns that a click or a touch triggers. Delays are in milliseconds from
 the triggering event.
 */
module Schedule {
  import opened Viewport

  /** Size of the initial batch for a given capacity. */
  function InitialBatch(maxBalloons: nat): (n: nat)
    ensures 2 <= n <= 4
    ensures n == 4 <==> 8 < maxBalloons
    ensures n == 2 <==> maxBalloons <= 5
  {
    if maxBalloons > 8 then 4 else if maxBalloons > 5 then 3 else 2
  }

  /** The tiers start with 2, 3 and 4 balloons, always fewer than their capacity. */
  lemma InitialBatchPerTier(t: Tier)
    ensures InitialBatch(TierConfig(t).maxBalloons) == Rank(t) + 2
    ensures InitialBatch(TierConfig(t).maxBalloons) < TierConfig(t).maxBalloons
  {
  }

  /** Spawn `i` of `count` is scheduled `i` steps after the first. */
  method StaggeredDelays(count: nat, step: real) returns (delays: seq<real>)
    ensures |delays| == count
    ensures forall i :: 0 <= i < count ==> delays[i] == i as real * step
    ensures 0.0 < step ==> forall i, j :: 0 <= i < j < count ==> delays[i] < delays[j]
  {
    delays := [];
    var i := 0;
    while i < count
      invariant 0 <= i <= count
      invariant |delays| == i
      invariant forall k :: 0 <= k < i ==> delays[k] == k as real * step
    {
      delays := delays + [i as real * step];
      i := i + 1;
    }
    if 0.0 < step {
      forall i, j | 0 <= i < j < count
        ensures delays[i] < delays[j]
      {
        assert delays[j] - delays[i] == (j - i) as real * step;
      }
    }
  }

  /**
   The initial batch for the tier in force at load: spawn `i` one fifth of the
   spawn interval after spawn `i - 1`, so the whole batch is scheduled before
   the repeating timer first fires, one full interval after load.
   */
  method InitialDelays(t: Tier) returns (delays: seq<real>)
    ensures |delays| == InitialBatch(TierConfig(t).maxBalloons)
    ensures forall i :: 0 <= i < |delays| ==>
              delays[i] == i as real * (TierConfig(t).spawnInterval as real / 5.0)
    ensures forall i :: 0 <= i < |delays| ==> 0.0 <= delays[i] < TierConfig(t).spawnInterval as real
    ensures forall i, j :: 0 <= i < j < |delays| ==> delays[i] < delays[j]
  {
    var cfg := TierConfig(t);
    delays := StaggeredDelays(InitialBatch(cfg.maxBalloons), cfg.spawnInterval as real / 5.0);
  }

  /**
   A click, or a touch that reports at least one touch point, schedules two
   spawns 180 ms apart; a touch with no touch point schedules none.
   */
  method TapDelays(isTouch: bool, touchPoints: nat) returns (delays: seq<real>)
    ensures isTouch && touchPoints == 0 ==> delays == []
    ensures !isTouch || 0 < touchPoints ==> delays == [0.0, 180.0]
  {
    if isTouch && touchPoints == 0 {
      delays := [];
    } else {
      delays := StaggeredDelays(2, 180.0);
    }
  }
}
