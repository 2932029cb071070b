/**
 * services/damage_service.py: damage per projectile type from a config
 * object, with an optional falloff of so many points per 200 px of
 * distance; the config is read once and cached.
 */
module DamageConfig {
  import opened Arith
  import opened Wrappers

  const DefaultBase: int := 10
  /** The falloff is given per this many pixels. */
  const FalloffSpan: real := 200.0
  const DefaultKey: string := "_default"

  /** One rule: `base` and `falloff_per_200`, each possibly absent. */
  datatype Rule = Rule(base: Option<int>, falloff: Option<real>)

  /** The parsed damage_config.json: projectile type to rule. */
  type Config = map<string, Rule>

  /** `cfg.get(type, cfg.get("_default", {"base": 10}))` */
  function RuleFor(cfg: Config, projectileType: string): (r: Rule)
    ensures projectileType in cfg ==> r == cfg[projectileType]
    ensures projectileType !in cfg && DefaultKey in cfg ==> r == cfg[DefaultKey]
    ensures projectileType !in cfg && DefaultKey !in cfg ==> r == Rule(Some(DefaultBase), None)
  {
    if projectileType in cfg then cfg[projectileType]
    else if DefaultKey in cfg then cfg[DefaultKey]
    else Rule(Some(DefaultBase), None)
  }

  /** `if fall:` is false for an absent falloff and for 0. */
  predicate HasFalloff(r: Rule)
  {
    r.falloff.Some? && r.falloff.value != 0.0
  }

  /** The points a falloff of `fall` per 200 px takes off at `distance`. */
  function Reduction(distance: real, fall: real): real
  {
    (distance / FalloffSpan) * fall
  }

  /** DamageService.get_damage on a loaded config. */
  function Damage(cfg: Config, projectileType: string, distance: real): (d: int)
    ensures !HasFalloff(RuleFor(cfg, projectileType)) ==> d == RuleFor(cfg, projectileType).base.GetOr(DefaultBase)
    ensures HasFalloff(RuleFor(cfg, projectileType)) ==> 1 <= d
  {
    var rule := RuleFor(cfg, projectileType);
    var base := rule.base.GetOr(DefaultBase);
    if HasFalloff(rule) then
      MaxInt(1, Trunc(base as real - Reduction(distance, rule.falloff.value)))
    else base
  }

  /** Without a falloff the distance does not matter. */
  lemma DamageIgnoresDistance(cfg: Config, projectileType: string, d1: real, d2: real)
    requires !HasFalloff(RuleFor(cfg, projectileType))
    ensures Damage(cfg, projectileType, d1) == Damage(cfg, projectileType, d2)
  {
  }

  /** With a positive falloff, damage never grows with distance. */
  lemma {:induction false} DamageDecreases(cfg: Config, projectileType: string, d1: real, d2: real)
    requires RuleFor(cfg, projectileType).falloff.Some? && RuleFor(cfg, projectileType).falloff.value > 0.0
    requires d1 <= d2
    ensures Damage(cfg, projectileType, d2) <= Damage(cfg, projectileType, d1)
  {
    var rule := RuleFor(cfg, projectileType);
    var fall := rule.falloff.value;
    var base := rule.base.GetOr(DefaultBase) as real;
    var q1, q2 := d1 / FalloffSpan, d2 / FalloffSpan;
    assert q1 <= q2;
    ScaleAtMost(q1, q2, fall);
    assert Reduction(d1, fall) == q1 * fall && Reduction(d2, fall) == q2 * fall;
    TruncMonotone(base - Reduction(d2, fall), base - Reduction(d1, fall));
  }

  /** Every full 200 px costs `fall` points, down to the floor of 1. */
  lemma {:induction false} FalloffPerSpan(cfg: Config, projectileType: string, k: nat)
    requires HasFalloff(RuleFor(cfg, projectileType))
    requires RuleFor(cfg, projectileType).falloff.value == (RuleFor(cfg, projectileType).falloff.value.Floor) as real
    ensures var rule := RuleFor(cfg, projectileType);
            Damage(cfg, projectileType, k as real * FalloffSpan) ==
              MaxInt(1, rule.base.GetOr(DefaultBase) - k * rule.falloff.value.Floor)
  {
    var rule := RuleFor(cfg, projectileType);
    var f := rule.falloff.value.Floor;
    var base := rule.base.GetOr(DefaultBase);
    assert (k as real * FalloffSpan) / FalloffSpan == k as real;
    assert Reduction(k as real * FalloffSpan, rule.falloff.value) == (k * f) as real;
    assert base as real - (k * f) as real == (base - k * f) as real;
  }

  /** DamageService with its class-level `_cache`: the config file is
      read while the cache is empty and reused afterwards. `file` stands
      for the parsed damage_config.json; `loads` counts the reads. */
  class DamageService {
    var cache: Option<Config>
    var loads: nat

    constructor ()
      ensures cache == None && loads == 0
    {
      cache := None;
      loads := 0;
    }

    /** DamageService._load */
    method Load(file: Config) returns (cfg: Config)
      modifies this
      ensures old(cache).Some? ==> cfg == old(cache).value && cache == old(cache) && loads == old(loads)
      ensures old(cache).None? ==> cfg == file && cache == Some(file) && loads == old(loads) + 1
    {
      if cache.None? {
        cache := Some(file);
        loads := loads + 1;
      }
      cfg := cache.value;
    }

    /** DamageService.get_damage */
    method GetDamage(file: Config, projectileType: string, distance: real) returns (d: int)
      modifies this
      ensures cache.Some? && loads == old(loads) + (if old(cache).None? then 1 else 0)
      ensures d == Damage(cache.value, projectileType, distance)
      ensures old(cache).Some? ==> cache == old(cache)
    {
      var cfg := Load(file);
      d := Damage(cfg, projectileType, distance);
    }
  }
}
