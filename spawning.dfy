/**
 * services/spawn_validator.py: a candidate spawn point is valid when an
 * enemy-sized footprint standing on it hits no collider and, given a
 * point to avoid, it is at least the minimum distance away; spawns are
 * sampled under an attempt budget. The random candidates are supplied
 * as a sequence drawn in advance.
 */
module SpawnValidation {
  import opened Arith
  import opened Geometry
  import opened Wrappers

  /** The lower and upper margin of `random.randint(32, size - 32)`. */
  const Margin: int := 32

  /** The 32x64 footprint whose centre is (x, y). */
  function Footprint(x: int, y: int): (r: Rect)
    ensures r.w == 32 && r.h == 64 && r.CenterX() == x && r.CenterY() == y
  {
    Rect(x - 16, y - 32, 32, 64)
  }

  /** The hypot test of is_valid_spawn without the root: closer than a
      positive minimum distance. */
  predicate Closer(dx: int, dy: int, minDistance: real)
  {
    0.0 < minDistance && ((dx * dx + dy * dy) as real) < minDistance * minDistance
  }

  /** SpawnValidator.is_valid_spawn, with the distance compared squared. */
  predicate IsValidSpawn(x: int, y: int, colliders: seq<Rect>, avoid: Option<(int, int)>, minDistance: real)
  {
    && !CollidesAny(Footprint(x, y), colliders)
    && !(avoid.Some? && Closer(x - avoid.value.0, y - avoid.value.1, minDistance))
  }

  /** The squared test is the source's hypot test: a point is valid iff
      its footprint is clear and, given a point to avoid, its distance is
      not below the minimum (exactly the minimum is allowed). */
  lemma {:induction false} ValidSpawnByDistance(sqrt: real -> real, x: int, y: int, colliders: seq<Rect>,
                                                avoid: Option<(int, int)>, minDistance: real)
    requires SqrtOracle(sqrt)
    ensures IsValidSpawn(x, y, colliders, avoid, minDistance) <==>
              && !CollidesAny(Footprint(x, y), colliders)
              && (avoid.None? ||
                  Hypot(sqrt, (x - avoid.value.0) as real, (y - avoid.value.1) as real) >= minDistance)
  {
    if avoid.Some? {
      var dx, dy := x - avoid.value.0, y - avoid.value.1;
      HypotBelow(sqrt, dx as real, dy as real, minDistance);
      assert (dx * dx + dy * dy) as real == dx as real * dx as real + dy as real * dy as real;
    }
  }

  /** The candidates among `samples` that pass, in the order drawn. */
  function Accepted(samples: seq<(int, int)>, colliders: seq<Rect>, avoid: Option<(int, int)>, minDistance: real)
    : (r: seq<(int, int)>)
    ensures |r| <= |samples|
    ensures forall i :: 0 <= i < |r| ==>
              r[i] in samples && IsValidSpawn(r[i].0, r[i].1, colliders, avoid, minDistance)
  {
    if samples == [] then []
    else
      var last := samples[|samples| - 1];
      var before := Accepted(samples[..|samples| - 1], colliders, avoid, minDistance);
      if IsValidSpawn(last.0, last.1, colliders, avoid, minDistance) then before + [last] else before
  }

  /** One more sample adds it to the accepted ones exactly when it passes. */
  lemma AcceptedStep(samples: seq<(int, int)>, k: nat, colliders: seq<Rect>, avoid: Option<(int, int)>, minDistance: real)
    requires k < |samples|
    ensures IsValidSpawn(samples[k].0, samples[k].1, colliders, avoid, minDistance) ==>
              Accepted(samples[..k + 1], colliders, avoid, minDistance) ==
                Accepted(samples[..k], colliders, avoid, minDistance) + [samples[k]]
    ensures !IsValidSpawn(samples[k].0, samples[k].1, colliders, avoid, minDistance) ==>
              Accepted(samples[..k + 1], colliders, avoid, minDistance) == Accepted(samples[..k], colliders, avoid, minDistance)
  {
    assert samples[..k + 1][..k] == samples[..k];
  }

  /** When no candidate passes (a fully blocked map), nothing is accepted. */
  lemma {:induction false} NoneAccepted(samples: seq<(int, int)>, colliders: seq<Rect>, avoid: Option<(int, int)>, minDistance: real)
    requires forall i :: 0 <= i < |samples| ==> !IsValidSpawn(samples[i].0, samples[i].1, colliders, avoid, minDistance)
    ensures Accepted(samples, colliders, avoid, minDistance) == []
  {
    if samples != [] {
      NoneAccepted(samples[..|samples| - 1], colliders, avoid, minDistance);
    }
  }

  /** What `random.randint(32, size - 32)` can return on each axis. */
  predicate InRange(p: (int, int), mapWidth: int, mapHeight: int)
  {
    Margin <= p.0 <= mapWidth - Margin && Margin <= p.1 <= mapHeight - Margin
  }

  /** `random.randint(32, size - 32)` raises ValueError on an axis
      shorter than 64. */
  predicate MapTooSmall(mapWidth: int, mapHeight: int)
  {
    mapWidth < 2 * Margin || mapHeight < 2 * Margin
  }

  /**
   * SpawnValidator.generate_spawns: draw candidates until `want` are
   * accepted or `maxAttempts` have been drawn. `samples` holds the
   * candidates randint would return, in order. On a map too small for
   * randint the first draw raises, so a call that draws at all fails.
   */
  method GenerateSpawns(want: int, mapWidth: int, mapHeight: int, colliders: seq<Rect>,
                        avoid: Option<(int, int)>, minDistance: real, maxAttempts: int,
                        samples: seq<(int, int)>)
    returns (r: Result<seq<(int, int)>, string>, ghost attempts: nat)
    requires maxAttempts <= |samples|
    requires !MapTooSmall(mapWidth, mapHeight) ==> forall i :: 0 <= i < |samples| ==> InRange(samples[i], mapWidth, mapHeight)
    ensures r.Err? <==> 0 < want && 0 < maxAttempts && MapTooSmall(mapWidth, mapHeight)
    ensures attempts <= |samples| && attempts <= MaxInt(maxAttempts, 0)
    ensures r.Ok? ==>
              var result := r.value;
              && result == Accepted(samples[..attempts], colliders, avoid, minDistance)
              && |result| <= MaxInt(want, 0)
              && (|result| < want ==> attempts == MaxInt(maxAttempts, 0))
              && (0 < attempts ==> |result| < want || IsValidSpawn(samples[attempts - 1].0, samples[attempts - 1].1, colliders, avoid, minDistance))
              && forall i :: 0 <= i < |result| ==>
                   InRange(result[i], mapWidth, mapHeight) && IsValidSpawn(result[i].0, result[i].1, colliders, avoid, minDistance)
  {
    var result := [];
    attempts := 0;
    var n := 0;
    while |result| < want && n < maxAttempts
      invariant 0 <= n <= MaxInt(maxAttempts, 0) && n <= |samples|
      invariant attempts == n
      invariant 0 < n ==> !MapTooSmall(mapWidth, mapHeight)
      invariant result == Accepted(samples[..n], colliders, avoid, minDistance)
      invariant |result| <= MaxInt(want, 0)
      invariant 0 < n ==> |result| < want || IsValidSpawn(samples[n - 1].0, samples[n - 1].1, colliders, avoid, minDistance)
    {
      if MapTooSmall(mapWidth, mapHeight) {
        return Err("empty range for randrange()"), attempts;
      }
      var p := samples[n];
      n := n + 1;
      attempts := n;
      if IsValidSpawn(p.0, p.1, colliders, avoid, minDistance) {
        result := result + [p];
      }
      assert samples[..n][..n - 1] == samples[..n - 1];
    }
    return Ok(result), attempts;
  }
}
