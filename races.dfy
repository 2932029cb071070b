/**
 * services/race_service.py: per-race stats (defaults overridden by the
 * race's `stats` object) and metadata (description, bonuses, stats with
 * defaults) from race_metadata.json, read once and cached.
 */
module RaceConfig {
  import opened Wrappers
  import opened JsonValue

  /** `{"max_health":100,"max_energy":100,"energy_recovery_rate":10,"speed":100}` */
  const DefaultStats: map<string, Json> :=
    map["max_health" := JNum(100), "max_energy" := JNum(100),
        "energy_recovery_rate" := JNum(10), "speed" := JNum(100)]

  /** `_load().get(race, {})`; calling `.get` on an entry that is not an
      object raises, which is the error case. */
  function Entry(cfg: map<string, Json>, race: string): (r: Result<map<string, Json>, string>)
    ensures race !in cfg ==> r == Ok(map[])
    ensures race in cfg ==> (r.Ok? <==> cfg[race].JObj?)
    ensures race in cfg && r.Ok? ==> r.value == cfg[race].fields
  {
    if race !in cfg then Ok(map[])
    else match cfg[race]
      case JObj(fields) => Ok(fields)
      case _ => Err("race entry is not an object")
  }

  /** What `base.update(s)` merges into the defaults: an object's
      entries, and nothing for the empty string (an empty iterable). A
      number raises TypeError and any other string ValueError (its
      characters are not key/value pairs), which is `None`. */
  function Overrides(s: Json): (o: Option<map<string, Json>>)
    ensures s.JObj? ==> o == Some(s.fields)
    ensures s == JStr("") ==> o == Some(map[])
    ensures o.Some? <==> s.JObj? || s == JStr("")
  {
    match s
    case JObj(fields) => Some(fields)
    case JStr(t) => if t == "" then Some(map[]) else None
    case _ => None
  }

  /** RaceService.get_stats on a loaded config: the defaults, updated
      with what the race's `stats` entry overrides. */
  function GetStats(cfg: map<string, Json>, race: string): (r: Result<map<string, Json>, string>)
    ensures r.Ok? <==> Entry(cfg, race).Ok? && Overrides(Get(Entry(cfg, race).value, "stats", EmptyObject)).Some?
  {
    match Entry(cfg, race)
    case Err(e) => Err(e)
    case Ok(data) =>
      match Overrides(Get(data, "stats", EmptyObject))
      case Some(o) => Ok(DefaultStats + o)
      case None => Err("stats cannot update a dict")
  }

  /** A race whose `stats` is the empty string gets exactly the defaults,
      as `base.update("")` adds nothing. */
  lemma EmptyStringStats(cfg: map<string, Json>, race: string)
    requires race in cfg && cfg[race].JObj? && "stats" in cfg[race].fields && cfg[race].fields["stats"] == JStr("")
    ensures GetStats(cfg, race) == Ok(DefaultStats)
  {
    assert DefaultStats + map[] == DefaultStats;
  }

  /** An unknown race gets exactly the defaults. */
  lemma UnknownRaceStats(cfg: map<string, Json>, race: string)
    requires race !in cfg
    ensures GetStats(cfg, race) == Ok(DefaultStats)
  {
    assert DefaultStats + map[] == DefaultStats;
  }

  /** The merge: every key of the race's stats overrides the default,
      the defaults it does not mention are kept, so all four default
      keys are always present and nothing else is added. */
  lemma {:induction false} StatsMerge(cfg: map<string, Json>, race: string)
    requires GetStats(cfg, race).Ok?
    ensures var r := GetStats(cfg, race).value;
            var stats := Overrides(Get(Entry(cfg, race).value, "stats", EmptyObject)).value;
            && (forall k :: k in DefaultStats ==> k in r)
            && (forall k :: k in stats ==> k in r && r[k] == stats[k])
            && (forall k :: k in DefaultStats && k !in stats ==> r[k] == DefaultStats[k])
            && (forall k :: k in r ==> k in DefaultStats || k in stats)
  {
    var data := Entry(cfg, race).value;
    var s := Overrides(Get(data, "stats", EmptyObject));
    assert GetStats(cfg, race).value == DefaultStats + s.value;
  }

  /** What get_metadata returns. */
  datatype Meta = Meta(description: Json, bonuses: Json, stats: Json)

  /** RaceService.get_metadata on a loaded config: description and
      bonuses default to the empty string, stats to the empty object. */
  function GetMetadata(cfg: map<string, Json>, race: string): (r: Result<Meta, string>)
    ensures r.Err? <==> Entry(cfg, race).Err?
    ensures race !in cfg ==> r == Ok(Meta(JStr(""), JStr(""), EmptyObject))
    ensures r.Ok? ==>
              var data := Entry(cfg, race).value;
              && ("description" in data ==> r.value.description == data["description"])
              && ("description" !in data ==> r.value.description == JStr(""))
              && ("bonuses" in data ==> r.value.bonuses == data["bonuses"])
              && ("bonuses" !in data ==> r.value.bonuses == JStr(""))
              && ("stats" in data ==> r.value.stats == data["stats"])
              && ("stats" !in data ==> r.value.stats == EmptyObject)
  {
    match Entry(cfg, race)
    case Err(e) => Err(e)
    case Ok(data) =>
      Ok(Meta(Get(data, "description", JStr("")), Get(data, "bonuses", JStr("")), Get(data, "stats", EmptyObject)))
  }

  /** RaceService with its class-level `_cache`; `file` stands for the
      parsed race_metadata.json and `loads` counts the reads. */
  class RaceService {
    var cache: Option<map<string, Json>>
    var loads: nat

    constructor ()
      ensures cache == None && loads == 0
    {
      cache := None;
      loads := 0;
    }

    /** RaceService._load */
    method Load(file: map<string, Json>) returns (cfg: map<string, Json>)
      modifies this
      ensures old(cache).Some? ==> cfg == old(cache).value && cache == old(cache) && loads == old(loads)
      ensures old(cache).None? ==> cfg == file && cache == Some(file) && loads == old(loads) + 1
    {
      if cache.None? {
        cache := Some(file);
        loads := loads + 1;
      }
      cfg := cache.value;
    }

    /** RaceService.get_stats */
    method Stats(file: map<string, Json>, race: string) returns (r: Result<map<string, Json>, string>)
      modifies this
      ensures cache.Some? && loads == old(loads) + (if old(cache).None? then 1 else 0)
      ensures old(cache).Some? ==> cache == old(cache)
      ensures r == GetStats(cache.value, race)
    {
      var cfg := Load(file);
      r := GetStats(cfg, race);
    }

    /** RaceService.get_metadata */
    method Metadata(file: map<string, Json>, race: string) returns (r: Result<Meta, string>)
      modifies this
      ensures cache.Some? && loads == old(loads) + (if old(cache).None? then 1 else 0)
      ensures old(cache).Some? ==> cache == old(cache)
      ensures r == GetMetadata(cache.value, race)
    {
      var cfg := Load(file);
      r := GetMetadata(cfg, race);
    }
  }
}
