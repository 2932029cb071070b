/**
 * core/explosion.py: a purely visual effect that counts elapsed time and
 * removes itself once the count reaches its duration; and the group that
 * systems/explosion_system.py updates each tick.
 */
module ExplosionFx {
  import opened Arith

  const DefaultDuration: real := 0.4

  class Explosion {
    /** Centre of the 48x48 image rect (drawing only). */
    const centerX: int
    const centerY: int
    var timer: real
    const duration: real
    /** Still in its sprite group: kill() clears it. */
    var alive: bool

    constructor (x: real, y: real, duration: real := DefaultDuration)
      ensures centerX == Trunc(x) && centerY == Trunc(y)
      ensures timer == 0.0 && this.duration == duration && alive
    {
      centerX, centerY := Trunc(x), Trunc(y);
      timer := 0.0;
      this.duration := duration;
      alive := true;
    }

    /** Advance the timer by dt; remove the explosion once it reaches its
        duration. */
    method Update(dt: real)
      modifies this`timer, this`alive
      ensures timer == old(timer) + dt
      ensures alive <==> old(alive) && timer < duration
    {
      timer := timer + dt;
      if timer >= duration {
        alive := false;
      }
    }
  }

  /** Lifetime of one explosion under a constant frame time: after k
      updates its timer is Accumulate(k, dt), so it is live after k updates
      exactly when Survives(k, dt, duration), that is k < Ceil(duration / dt). */
  lemma {:induction false} ExplosionLifetime(k: nat, dt: real, duration: real)
    requires 0.0 < dt && 0.0 < duration
    ensures Survives(k, dt, duration) <==> k < Ceil(duration / dt)
    ensures k == Ceil(duration / dt) ==> Accumulate(k, dt) >= duration
  {
    SurvivesExactly(k, dt, duration);
    FirstReach(duration, dt);
  }

  /** The explosions group of systems/explosion_system.py. */
  class ExplosionSystem {
    var explosions: seq<Explosion>

    ghost predicate Valid()
      reads this`explosions
    {
      forall i, j :: 0 <= i < j < |explosions| ==> explosions[i] != explosions[j]
    }

    constructor ()
      ensures Valid() && explosions == []
    {
      explosions := [];
    }

    /** Group.add: a sprite already in the group is not added twice. */
    method Add(e: Explosion)
      requires Valid()
      modifies this`explosions
      ensures Valid()
      ensures explosions == if e in old(explosions) then old(explosions) else old(explosions) + [e]
    {
      if e !in explosions {
        explosions := explosions + [e];
      }
    }

    /** Group.update(dt): every live explosion is updated once; removed
        ones are left alone. */
    method Update(dt: real)
      requires Valid()
      modifies explosions`timer, explosions`alive
      ensures forall i :: 0 <= i < |explosions| && old(explosions[i].alive) ==>
                explosions[i].timer == old(explosions[i].timer) + dt &&
                (explosions[i].alive <==> explosions[i].timer < explosions[i].duration)
      ensures forall i :: 0 <= i < |explosions| && !old(explosions[i].alive) ==>
                explosions[i].timer == old(explosions[i].timer) && !explosions[i].alive
    {
      var i := 0;
      while i < |explosions|
        invariant 0 <= i <= |explosions|
        invariant forall j :: 0 <= j < i && old(explosions[j].alive) ==>
                    explosions[j].timer == old(explosions[j].timer) + dt &&
                    (explosions[j].alive <==> explosions[j].timer < explosions[j].duration)
        invariant forall j :: 0 <= j < i && !old(explosions[j].alive) ==>
                    explosions[j].timer == old(explosions[j].timer) && !explosions[j].alive
        invariant forall j :: i <= j < |explosions| ==>
                    explosions[j].timer == old(explosions[j].timer) && explosions[j].alive == old(explosions[j].alive)
      {
        if explosions[i].alive {
          explosions[i].Update(dt);
        }
        i := i + 1;
      }
    }
  }
}
