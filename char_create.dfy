/**
 * ui/screens/char_create_screen.py: the race-metadata lookup with its
 * fallback and its memo table, and the character-creation screen's tick
 * (the preview animation, race selection, the name field and RETURN,
 * which applies the race bonuses to the preview player and hands it to
 * the HUD). The HTTP request itself, the prefetch thread and all drawing
 * are not part of this model.
 */
module CharCreate {
  import opened Wrappers
  import opened Geometry
  import opened Text
  import opened JsonValue
  import opened Input
  import opened PlayerEntity

  /** The races offered, in list order. */
  const Races: seq<string> := ["Saiyan", "Namekian", "Android", "Shiba"]

  /** Where the preview player is built. */
  const PreviewX: int := 400
  const PreviewY: int := 420

  /** The preview cycles six frames per direction, one every 0.12 s. */
  const AnimDelay: real := 0.12
  const AnimFrames: int := 6

  /** The rectangle the preview is updated against. */
  const PreviewArea: Rect := Rect(0, 0, 800, 600)

  // ───────────────────────── race metadata ─────────────────────────

  /** What race_get_metadata returns after any failure. */
  const FallbackMeta: Json := JObj(map["description" := JStr(""), "bonuses" := EmptyObject, "stats" := EmptyObject])

  /** race_get_metadata: the decoded response, or the fallback when the
      request or the decoding raised (`response` is None). */
  function FetchMetadata(response: Option<Json>): Json
  {
    response.GetOr(FallbackMeta)
  }

  /** race_get_metadata_cached on a memo table: a cached entry is returned
      as it is and the table is left alone; otherwise the fetched value is
      stored under the race and returned. */
  function CacheLookup(entries: map<string, Json>, race: string, response: Option<Json>): (r: (Json, map<string, Json>))
    ensures race in r.1 && r.1[race] == r.0
    ensures r.1.Keys == entries.Keys + {race}
    ensures forall other :: other in entries && other != race ==> r.1[other] == entries[other]
  {
    if race in entries then (entries[race], entries)
    else
      var data := FetchMetadata(response);
      (data, entries[race := data])
  }

  /** Once a race has been looked up, looking it up again answers the same
      without a request, whatever the request would now return. */
  lemma LookupIsMemoised(entries: map<string, Json>, race: string, first: Option<Json>, later: Option<Json>)
    ensures var (meta, table) := CacheLookup(entries, race, first);
            CacheLookup(table, race, later) == (meta, table)
    ensures race in entries ==> CacheLookup(entries, race, first) == (entries[race], entries)
    ensures race !in entries ==> CacheLookup(entries, race, first).0 == FetchMetadata(first)
  {
  }

  /** RACE_CACHE with a count of the requests it has made. */
  class RaceCache {
    var entries: map<string, Json>
    var fetches: nat

    constructor ()
      ensures entries == map[] && fetches == 0
    {
      entries := map[];
      fetches := 0;
    }

    /** race_get_metadata_cached(race): one request only for a race not
        yet in the table. */
    method Get(race: string, response: Option<Json>) returns (meta: Json)
      modifies this`entries, this`fetches
      ensures (meta, entries) == CacheLookup(old(entries), race, response)
      ensures fetches == old(fetches) + (if race in old(entries) then 0 else 1)
    {
      if race in entries {
        return entries[race];
      }
      var data := FetchMetadata(response);
      fetches := fetches + 1;
      entries := entries[race := data];
      return data;
    }
  }

  // ───────────────────────── bonuses ─────────────────────────

  /** The bonuses dict RETURN reads: `meta["bonuses"]` when the metadata
      is a dict and that entry is a dict, and an empty dict otherwise. */
  function BonusesOf(meta: Json): (b: map<string, Json>)
    ensures !meta.JObj? ==> b == map[]
    ensures meta.JObj? && "bonuses" !in meta.fields ==> b == map[]
    ensures meta.JObj? && "bonuses" in meta.fields ==>
              b == (if meta.fields["bonuses"].JObj? then meta.fields["bonuses"].fields else map[])
  {
    if meta.JObj? then
      var bonuses := Get(meta.fields, "bonuses", EmptyObject);
      if bonuses.JObj? then bonuses.fields else map[]
    else map[]
  }

  /** `max_health += bonuses.get(key, 0)` can add this entry: it is missing
      or a number. */
  predicate Addable(b: map<string, Json>, key: string)
  {
    key in b ==> b[key].JNum?
  }

  /** `bonuses.get(key, 0)` for an entry that can be added. */
  function Bonus(b: map<string, Json>, key: string): (n: int)
    requires Addable(b, key)
    ensures key !in b ==> n == 0
    ensures key in b ==> b[key] == JNum(n)
  {
    if key in b then b[key].n else 0
  }

  /** The fallback metadata carries no bonus at all. */
  lemma FallbackHasNoBonuses()
    ensures BonusesOf(FetchMetadata(None)) == map[]
    ensures Bonus(BonusesOf(FetchMetadata(None)), "health") == 0
    ensures Bonus(BonusesOf(FetchMetadata(None)), "speed") == 0
  {
    assert "bonuses" in FallbackMeta.fields;
  }

  /** What the bonus lines of RETURN do to (max_health, health, speed,
      damage_bonus): health is added to the maximum, which health then
      takes, damage is stored as given, speed is added. A health or speed
      entry that is not a number raises at its line, so what follows it
      is not done and `ok` is false. */
  predicate BonusesApplied(b: map<string, Json>, ok: bool, maxHealth: int, health: int, speed: int, damage: Json,
                           maxHealth': int, health': int, speed': int, damage': Json)
  {
    && ok == (Addable(b, "health") && Addable(b, "speed"))
    && (if Addable(b, "health") then
          maxHealth' == maxHealth + Bonus(b, "health") && health' == maxHealth' && damage' == Get(b, "damage", JNum(0))
        else maxHealth' == maxHealth && health' == health && damage' == damage)
    && speed' == (if ok then speed + Bonus(b, "speed") else speed)
  }

  /** What the screen keeps on its preview player: the name and race RETURN
      stores, and the stats the bonuses change. */
  datatype Profile = Profile(name: string, race: string, maxHealth: int, health: int, speed: int, damage: Json)

  /** The profile of `Player(400, 420, race=race)`. */
  function FreshProfile(race: string): Profile
  {
    Profile("", race, RaceStats(race).maxHealth, RaceStats(race).maxHealth, RaceStats(race).speed, JNum(0))
  }

  /** The bonus lines of RETURN on a profile, stopping at the first line
      that raises; the flag is false when one did. */
  function WithBonuses(b: map<string, Json>, p: Profile): (r: (Profile, bool))
    ensures BonusesApplied(b, r.1, p.maxHealth, p.health, p.speed, p.damage, r.0.maxHealth, r.0.health, r.0.speed, r.0.damage)
    ensures r.0.name == p.name && r.0.race == p.race
  {
    if !Addable(b, "health") then (p, false)
    else
      var top := p.maxHealth + Bonus(b, "health");
      var q := p.(maxHealth := top, health := top, damage := Get(b, "damage", JNum(0)));
      if !Addable(b, "speed") then (q, false) else (q.(speed := q.speed + Bonus(b, "speed")), true)
  }

  /** With the fallback metadata RETURN keeps the race's stats, refills
      health and sets a damage bonus of 0. */
  lemma FallbackKeepsStats(maxHealth: int, health: int, speed: int, damage: Json,
                           maxHealth': int, health': int, speed': int, damage': Json)
    requires BonusesApplied(BonusesOf(FetchMetadata(None)), true, maxHealth, health, speed, damage,
                            maxHealth', health', speed', damage')
    ensures maxHealth' == maxHealth && health' == maxHealth && speed' == speed && damage' == JNum(0)
  {
    FallbackHasNoBonuses();
  }

  /** The name the player gets: the stripped input, or "Player" when that
      is empty. */
  function ChosenName(input: string): (name: string)
    ensures name != []
    ensures Strip(input) != [] ==> name == Strip(input)
    ensures Strip(input) == [] ==> name == "Player"
  {
    if Strip(input) == [] then "Player" else Strip(input)
  }

  // ───────────────────────── preview animation ─────────────────────────

  /** The screen's own animation state: the timer, the frame and the
      direction index (right, up, left, down). */
  datatype Anim = Anim(timer: real, frame: int, dir: int)

  predicate AnimInRange(a: Anim)
  {
    0 <= a.frame < AnimFrames && 0 <= a.dir < 4
  }

  /** One animation step once the timer reached the delay: the timer
      restarts, the frame moves on and the direction turns when the frame
      wraps to 0. */
  function Advance(a: Anim): Anim
  {
    var frame := (a.frame + 1) % AnimFrames;
    Anim(0.0, frame, if frame == 0 then (a.dir + 1) % 4 else a.dir)
  }

  /** The timer half of the preview update. */
  function AnimStep(a: Anim, dt: real): Anim
  {
    if a.timer + dt >= AnimDelay then Advance(a.(timer := a.timer + dt)) else a.(timer := a.timer + dt)
  }

  function Advances(a: Anim, n: nat): Anim
  {
    if n == 0 then a else Advance(Advances(a, n - 1))
  }

  /** After n steps the frame has moved on by n modulo 6 and the direction
      has turned once for every six frames passed. */
  lemma {:induction false} AdvancesCount(a: Anim, n: nat)
    requires AnimInRange(a)
    ensures Advances(a, n).frame == (a.frame + n) % AnimFrames
    ensures Advances(a, n).dir == (a.dir + (a.frame + n) / AnimFrames) % 4
    ensures AnimInRange(Advances(a, n))
  {
    if n > 0 {
      var prev, m := Advances(a, n - 1), a.frame + n - 1;
      AdvancesCount(a, n - 1);
      NextFrameCount(m, a.dir);
      assert prev.frame == m % AnimFrames && prev.dir == (a.dir + m / AnimFrames) % 4;
      assert Advances(a, n) == Advance(prev);
    }
  }

  /** Counting one more frame: the frame index moves on by one modulo 6,
      and the number of completed cycles grows exactly when it wraps. */
  lemma NextFrameCount(m: nat, d: int)
    ensures ((m % 6) + 1) % 6 == (m + 1) % 6
    ensures (m + 1) % 6 == 0 ==> (d + (m + 1) / 6) % 4 == ((d + m / 6) % 4 + 1) % 4
    ensures (m + 1) % 6 != 0 ==> (m + 1) / 6 == m / 6
  {
    var q, r := m / 6, m % 6;
    assert m == 6 * q + r;
    if r == 5 {
      assert m + 1 == 6 * (q + 1);
      assert (m + 1) / 6 == q + 1 && (m + 1) % 6 == 0;
    } else {
      assert m + 1 == 6 * q + (r + 1);
      assert (m + 1) / 6 == q && (m + 1) % 6 == r + 1;
    }
  }

  /** The direction index as a facing. */
  function DirFacing(i: int): Facing
  {
    if i == 0 then Right else if i == 1 then Up else if i == 2 then Left else Down
  }

  // ───────────────────────── selection and name ─────────────────────────

  /** One event's effect on the selected index: UP moves back and DOWN
      forward, both wrapping around the list. */
  function SelectStep(selected: int, ev: Event): (s: int)
    requires 0 <= selected < |Races|
    ensures 0 <= s < |Races|
  {
    if ev.KeyDown? && ev.key == UpArrow then (selected - 1) % |Races|
    else if ev.KeyDown? && ev.key == DownArrow then (selected + 1) % |Races|
    else selected
  }

  /** The selected index after the arrow keys among these events. */
  function Selection(selected: int, events: seq<Event>): (s: int)
    requires 0 <= selected < |Races|
    ensures 0 <= s < |Races|
    decreases |events|
  {
    if events == [] then selected else Selection(SelectStep(selected, events[0]), events[1..])
  }

  /** One event's effect on the name field: BACKSPACE drops the last
      character. */
  function NameStep(name: string, ev: Event): string
  {
    if ev.KeyDown? && ev.key == Backspace then DropLast(name) else name
  }

  /** The name field after the backspaces among these events. */
  function NameField(name: string, events: seq<Event>): string
    decreases |events|
  {
    if events == [] then name else NameField(NameStep(name, events[0]), events[1..])
  }

  /** DOWN presses minus UP presses among the events. */
  function Shift(events: seq<Event>): int
    decreases |events|
  {
    if events == [] then 0
    else
      var ev := events[0];
      (if ev.KeyDown? && ev.key == DownArrow then 1 else if ev.KeyDown? && ev.key == UpArrow then -1 else 0)
      + Shift(events[1..])
  }

  /** BACKSPACE presses among the events. */
  function Backspaces(events: seq<Event>): nat
    decreases |events|
  {
    if events == [] then 0
    else (if events[0].KeyDown? && events[0].key == Backspace then 1 else 0) + Backspaces(events[1..])
  }

  /** Only the count of arrow presses matters: the selection ends at the
      start moved by DOWNs minus UPs, modulo the number of races. */
  lemma {:induction false} SelectionCounts(selected: int, events: seq<Event>)
    requires 0 <= selected < |Races|
    ensures Selection(selected, events) == (selected + Shift(events)) % |Races|
    decreases |events|
  {
    if events != [] {
      var next := SelectStep(selected, events[0]);
      SelectionCounts(next, events[1..]);
      var d := Shift(events) - Shift(events[1..]);
      assert next == (selected + d) % |Races|;
      ModShift(selected + d, Shift(events[1..]));
    }
  }

  /** Reducing modulo 4 before adding more does not change the result. */
  lemma ModShift(a: int, b: int)
    ensures (a % 4 + b) % 4 == (a + b) % 4
  {
    var q := a / 4;
    assert a == 4 * q + a % 4;
    assert a + b == 4 * q + (a % 4 + b);
  }

  /** The name field loses one character per BACKSPACE, from the end, and
      never more than it has. */
  lemma {:induction false} NameFieldCounts(name: string, events: seq<Event>)
    ensures Backspaces(events) <= |name| ==> NameField(name, events) == name[..|name| - Backspaces(events)]
    ensures Backspaces(events) > |name| ==> NameField(name, events) == []
    decreases |events|
  {
    if events != [] {
      var next := NameStep(name, events[0]);
      NameFieldCounts(next, events[1..]);
      if events[0].KeyDown? && events[0].key == Backspace && name != [] {
        assert next == name[..|name| - 1];
        if Backspaces(events) <= |name| {
          assert next[..|next| - Backspaces(events[1..])] == name[..|name| - Backspaces(events)];
        }
      }
    }
  }

  /** Handling one more event continues the selection where it was. */
  lemma {:induction false} SelectionSnoc(selected: int, events: seq<Event>, ev: Event)
    requires 0 <= selected < |Races|
    ensures Selection(selected, events + [ev]) == SelectStep(Selection(selected, events), ev)
    decreases |events|
  {
    if events == [] {
      assert events + [ev] == [ev];
      assert [ev][1..] == [];
    } else {
      assert (events + [ev])[1..] == events[1..] + [ev];
      SelectionSnoc(SelectStep(selected, events[0]), events[1..], ev);
    }
  }

  /** Handling one more event continues the name field where it was. */
  lemma {:induction false} NameFieldSnoc(name: string, events: seq<Event>, ev: Event)
    ensures NameField(name, events + [ev]) == NameStep(NameField(name, events), ev)
    decreases |events|
  {
    if events == [] {
      assert events + [ev] == [ev];
      assert [ev][1..] == [];
    } else {
      assert (events + [ev])[1..] == events[1..] + [ev];
      NameFieldSnoc(NameStep(name, events[0]), events[1..], ev);
    }
  }

  /** The screen has no text entry: the name field only ever shrinks, so
      from its empty start it stays empty and every character is named
      "Player". */
  lemma {:induction false} NameStaysEmpty(events: seq<Event>)
    ensures NameField("", events) == ""
    ensures ChosenName(NameField("", events)) == "Player"
    decreases |events|
  {
    if events != [] {
      NameStaysEmpty(events[1..]);
    }
  }

  /** Up followed by Down, or Down followed by Up, leaves the selection
      where it was. */
  lemma ArrowsUndo(selected: int, u: string, v: string)
    requires 0 <= selected < |Races|
    ensures Selection(selected, [KeyDown(UpArrow, u), KeyDown(DownArrow, v)]) == selected
    ensures Selection(selected, [KeyDown(DownArrow, u), KeyDown(UpArrow, v)]) == selected
  {
    var up, down := (selected - 1) % |Races|, (selected + 1) % |Races|;
    assert (up + 1) % |Races| == selected && (down - 1) % |Races| == selected;
    assert Selection(up, [KeyDown(DownArrow, v)]) == Selection((up + 1) % |Races|, []);
    assert Selection(down, [KeyDown(UpArrow, v)]) == Selection((down - 1) % |Races|, []);
    assert [KeyDown(UpArrow, u), KeyDown(DownArrow, v)][1..] == [KeyDown(DownArrow, v)];
    assert [KeyDown(DownArrow, u), KeyDown(UpArrow, v)][1..] == [KeyDown(UpArrow, v)];
  }

  predicate IsKey(ev: Event, k: Key)
  {
    ev.KeyDown? && ev.key == k
  }

  /** The part of the screen its events change: the selection, the name
      field, the preview's profile, whether the preview went to the HUD,
      and the metadata cache. */
  datatype Form = Form(selected: int, name: string, profile: Profile, handedOff: bool, cache: map<string, Json>)

  /** One event of the update loop on a Form: UP and DOWN select and build
      a fresh preview, BACKSPACE shortens the name, RETURN looks the race
      up, labels the preview and applies its bonuses, handing it to the
      HUD unless a bonus line raised (the flag is then false). */
  function EventStep(f: Form, ev: Event, response: Option<Json>): (r: (Form, bool))
    requires 0 <= f.selected < |Races|
    ensures r.0.selected == SelectStep(f.selected, ev) && r.0.name == NameStep(f.name, ev)
    ensures !r.1 ==> IsKey(ev, Enter)
    ensures !IsKey(ev, Enter) ==> r.0.handedOff == f.handedOff && r.0.cache == f.cache
    ensures IsKey(ev, UpArrow) || IsKey(ev, DownArrow) ==> r.0.profile == FreshProfile(Races[r.0.selected])
    ensures IsKey(ev, Enter) ==>
              var (meta, table) := CacheLookup(f.cache, Races[f.selected], response);
              && r.0.cache == table
              && r.0.profile.name == ChosenName(f.name) && r.0.profile.race == Races[f.selected]
              && BonusesApplied(BonusesOf(meta), r.1, f.profile.maxHealth, f.profile.health, f.profile.speed,
                                f.profile.damage, r.0.profile.maxHealth, r.0.profile.health, r.0.profile.speed,
                                r.0.profile.damage)
              && r.0.handedOff == (r.1 || f.handedOff)
  {
    if IsKey(ev, UpArrow) || IsKey(ev, DownArrow) then
      var s := SelectStep(f.selected, ev);
      (f.(selected := s, profile := FreshProfile(Races[s])), true)
    else if IsKey(ev, Backspace) then (f.(name := DropLast(f.name)), true)
    else if IsKey(ev, Enter) then
      var race := Races[f.selected];
      var (meta, table) := CacheLookup(f.cache, race, response);
      var (p, ok) := WithBonuses(BonusesOf(meta), f.profile.(name := ChosenName(f.name), race := race));
      (f.(profile := p, handedOff := ok || f.handedOff, cache := table), ok)
    else (f, true)
  }

  /** The event loop on a Form: the events in order, up to and including
      the first RETURN whose bonuses raise; the count is of the events
      handled. */
  function Run(f: Form, events: seq<Event>, responses: seq<Option<Json>>): (r: (Form, bool, nat))
    requires 0 <= f.selected < |Races| && |responses| == |events|
    ensures 0 <= r.0.selected < |Races| && r.2 <= |events|
    ensures r.1 ==> r.2 == |events|
    ensures !r.1 ==> 0 < r.2 && IsKey(events[r.2 - 1], Enter)
    decreases |events|
  {
    if events == [] then (f, true, 0)
    else
      var n := |events| - 1;
      var before := Run(f, events[..n], responses[..n]);
      if !before.1 then before
      else
        var after := EventStep(before.0, events[n], responses[n]);
        (after.0, after.1, n + 1)
  }

  /** One more event after a run that has not raised is one EventStep. */
  lemma RunStep(f: Form, events: seq<Event>, responses: seq<Option<Json>>, i: nat)
    requires 0 <= f.selected < |Races| && |responses| == |events| && i < |events|
    requires Run(f, events[..i], responses[..i]).1
    ensures var s := EventStep(Run(f, events[..i], responses[..i]).0, events[i], responses[i]);
            Run(f, events[..i + 1], responses[..i + 1]) == (s.0, s.1, i + 1)
  {
    PrefixOfPrefix(events, i);
    PrefixOfPrefix(responses, i);
  }

  lemma PrefixOfPrefix<T>(s: seq<T>, i: nat)
    requires i < |s|
    ensures s[..i + 1][..i] == s[..i]
  {
  }

  /** Once a RETURN has raised, later events are not handled. */
  lemma {:induction false} RunHalts(f: Form, events: seq<Event>, responses: seq<Option<Json>>, k: nat)
    requires 0 <= f.selected < |Races| && |responses| == |events| && k <= |events|
    requires !Run(f, events[..k], responses[..k]).1
    ensures Run(f, events, responses) == Run(f, events[..k], responses[..k])
    decreases |events|
  {
    if k < |events| {
      var n := |events| - 1;
      assert events[..n][..k] == events[..k] && responses[..n][..k] == responses[..k];
      RunHalts(f, events[..n], responses[..n], k);
    } else {
      assert events[..k] == events && responses[..k] == responses;
    }
  }

  /** The selection and the name field of a run are those of the arrow
      and BACKSPACE presses among the events it handled. */
  lemma {:induction false} RunTracks(f: Form, events: seq<Event>, responses: seq<Option<Json>>)
    requires 0 <= f.selected < |Races| && |responses| == |events|
    ensures var r := Run(f, events, responses);
            && r.0.selected == Selection(f.selected, events[..r.2])
            && r.0.name == NameField(f.name, events[..r.2])
    decreases |events|
  {
    if events == [] {
      assert events[..0] == [];
    } else {
      var n := |events| - 1;
      var before := Run(f, events[..n], responses[..n]);
      RunTracks(f, events[..n], responses[..n]);
      assert events[..n][..before.2] == events[..before.2];
      if before.1 {
        assert events[..n + 1] == events[..n] + [events[n]];
        SelectionSnoc(f.selected, events[..n], events[n]);
        NameFieldSnoc(f.name, events[..n], events[n]);
      }
    }
  }

  /** Once handed to the HUD, the preview stays handed over. */
  lemma {:induction false} HandOffKept(f: Form, events: seq<Event>, responses: seq<Option<Json>>)
    requires 0 <= f.selected < |Races| && |responses| == |events| && f.handedOff
    ensures Run(f, events, responses).0.handedOff
    decreases |events|
  {
    if events != [] {
      var n := |events| - 1;
      HandOffKept(f, events[..n], responses[..n]);
      var before := Run(f, events[..n], responses[..n]);
      if before.1 {
        StepHandOff(before.0, events[n], responses[n]);
      }
    }
  }

  /** The preview reaches the HUD only through a RETURN among the events
      handled. */
  lemma {:induction false} HandOffNeedsReturn(f: Form, events: seq<Event>, responses: seq<Option<Json>>)
    requires 0 <= f.selected < |Races| && |responses| == |events| && !f.handedOff
    ensures var r := Run(f, events, responses);
            r.0.handedOff ==> exists j :: 0 <= j < r.2 && IsKey(events[j], Enter)
    decreases |events|
  {
    if events != [] {
      var n := |events| - 1;
      HandOffNeedsReturn(f, events[..n], responses[..n]);
      var before := Run(f, events[..n], responses[..n]);
      if before.0.handedOff {
        var j :| 0 <= j < before.2 && IsKey(events[..n][j], Enter);
        assert IsKey(events[j], Enter);
      } else if before.1 {
        StepHandOff(before.0, events[n], responses[n]);
        assert Run(f, events, responses).0.handedOff ==> IsKey(events[n], Enter);
      }
    }
  }

  /** One event hands the preview over only if it is RETURN, and never
      takes it back. */
  lemma StepHandOff(f: Form, ev: Event, response: Option<Json>)
    requires 0 <= f.selected < |Races|
    ensures var r := EventStep(f, ev, response).0;
            && (f.handedOff ==> r.handedOff)
            && (r.handedOff && !f.handedOff ==> IsKey(ev, Enter))
  {
  }

  /** Nothing stops a second RETURN: when the race's bonuses do not raise,
      RETURN twice hands the preview over and adds the health and speed
      bonuses to it twice, the second time from the cached metadata. */
  lemma {:induction false} ReturnTwiceAddsTwice(f: Form, u: string, v: string, first: Option<Json>, later: Option<Json>)
    requires 0 <= f.selected < |Races|
    requires var b := BonusesOf(CacheLookup(f.cache, Races[f.selected], first).0);
             Addable(b, "health") && Addable(b, "speed")
    ensures var b := BonusesOf(CacheLookup(f.cache, Races[f.selected], first).0);
            var r := Run(f, [KeyDown(Enter, u), KeyDown(Enter, v)], [first, later]);
            && r.1 && r.2 == 2 && r.0.handedOff
            && r.0.profile.maxHealth == f.profile.maxHealth + 2 * Bonus(b, "health")
            && r.0.profile.health == r.0.profile.maxHealth
            && r.0.profile.speed == f.profile.speed + 2 * Bonus(b, "speed")
  {
    var events, responses := [KeyDown(Enter, u), KeyDown(Enter, v)], [first, later];
    var race := Races[f.selected];
    var (meta, table) := CacheLookup(f.cache, race, first);
    var b := BonusesOf(meta);
    assert events[..0] == [] && responses[..0] == [];
    RunStep(f, events, responses, 0);
    var s1 := EventStep(f, events[0], first);
    assert s1.0.cache == table && s1.0.selected == f.selected && s1.1;
    assert s1.0.profile.maxHealth == f.profile.maxHealth + Bonus(b, "health");
    assert s1.0.profile.speed == f.profile.speed + Bonus(b, "speed");
    LookupIsMemoised(f.cache, race, first, later);
    RunStep(f, events, responses, 1);
    var s2 := EventStep(s1.0, events[1], later);
    assert s2.1 && s2.0.handedOff;
    assert s2.0.profile.maxHealth == s1.0.profile.maxHealth + Bonus(b, "health");
    assert events[..2] == events && responses[..2] == responses;
  }

  // ───────────────────────── the screen ─────────────────────────

  class CharacterCreateScreen {
    var selected: int
    var charName: string
    var preview: Player
    var previewTimer: real
    var previewFrame: int
    var previewDir: int
    /** Set once RETURN has handed the preview to the HUD screen. */
    var handedOff: bool
    /** The module-wide RACE_CACHE. */
    const cache: RaceCache

    ghost predicate Valid()
      reads this`selected, this`previewTimer, this`previewFrame, this`previewDir, this`preview,
            preview`rect, preview`frameIndex, preview`maxEnergy, preview`energy
    {
      0 <= selected < |Races| && AnimInRange(AnimOf()) && preview.Valid()
    }

    function AnimOf(): Anim
      reads this`previewTimer, this`previewFrame, this`previewDir
    {
      Anim(previewTimer, previewFrame, previewDir)
    }

    function ProfileOf(): Profile
      reads this`preview, preview`name, preview`race, preview`maxHealth, preview`health, preview`speed,
            preview`damageBonus
    {
      Profile(preview.name, preview.race, preview.maxHealth, preview.health, preview.speed, preview.damageBonus)
    }

    function FormOf(): Form
      reads this`selected, this`charName, this`handedOff, cache`entries, this`preview, preview`name, preview`race,
            preview`maxHealth, preview`health, preview`speed, preview`damageBonus
    {
      Form(selected, charName, ProfileOf(), handedOff, cache.entries)
    }

    /** CharacterCreateScreen.__init__: the first race selected, an empty
        name, its preview player, the animation at rest. */
    constructor (cache: RaceCache)
      ensures Valid() && fresh(preview)
      ensures selected == 0 && charName == "" && !handedOff && this.cache == cache
      ensures ProfileOf() == FreshProfile(Races[0])
      ensures AnimOf() == Anim(0.0, 0, 0)
    {
      selected := 0;
      charName := "";
      preview := new Player(PreviewX, PreviewY, Races[0]);
      previewTimer, previewFrame, previewDir := 0.0, 0, 0;
      handedOff := false;
      this.cache := cache;
    }

    /** The animation half of update: the timer, and on a new frame the
        preview turns to the current direction; then the preview is
        updated with no key held and its own animation overridden. */
    method Animate(dt: real)
      requires Valid()
      modifies this`previewTimer, this`previewFrame, this`previewDir,
               preview`rect, preview`facing, preview`timeSinceDash, preview`energy, preview`frameIndex,
               preview`frameTimer, preview`timeSinceLastShot
      ensures Valid()
      ensures AnimOf() == AnimStep(old(AnimOf()), dt)
      ensures preview.facing == if old(previewTimer) + dt >= AnimDelay then DirFacing(previewDir) else old(preview.facing)
      ensures preview.frameIndex == old(preview.frameIndex)
      ensures FormOf() == old(FormOf())
    {
      previewTimer := previewTimer + dt;
      if previewTimer >= AnimDelay {
        previewTimer := 0.0;
        previewFrame := (previewFrame + 1) % AnimFrames;
        if previewFrame == 0 {
          previewDir := (previewDir + 1) % 4;
        }
        preview.facing := DirFacing(previewDir);
      }
      StandStill(dt, NoKeys, PreviewArea);
    }

    /** preview.update with no key held and override_animation set: the
        facing and the animation frame stay as the screen set them. */
    method StandStill(dt: real, k: Keys, area: Rect)
      requires preview.Valid() && !Moving(k)
      modifies preview`rect, preview`facing, preview`timeSinceDash, preview`energy, preview`frameIndex,
               preview`frameTimer, preview`timeSinceLastShot
      ensures preview.Valid()
      ensures preview.facing == old(preview.facing) && preview.frameIndex == old(preview.frameIndex)
      ensures ProfileOf() == old(ProfileOf())
    {
      preview.Update(k, dt, area, [], true);
    }

    /** RETURN: the race's metadata through the cache, the name and race
        stored on the preview, then the bonuses: health is added to the
        maximum and restores health, damage is stored as given, speed is
        added. An entry that cannot be added raises, which ends the update
        there (`ok` false); otherwise the preview goes to the HUD. */
    method Choose(race: string, response: Option<Json>) returns (ok: bool, ghost meta: Json)
      modifies preview`name, preview`race, preview`maxHealth, preview`health, preview`damageBonus, preview`speed,
               cache`entries, cache`fetches, this`handedOff
      ensures (meta, cache.entries) == CacheLookup(old(cache.entries), race, response)
      ensures (ProfileOf(), ok) == WithBonuses(BonusesOf(meta), old(ProfileOf()).(name := ChosenName(charName), race := race))
      ensures handedOff == (ok || old(handedOff))
    {
      var data := cache.Get(race, response);
      meta := data;
      Label(race);
      ok := ApplyBonuses(BonusesOf(data));
      if ok {
        handedOff := true;
      }
    }

    /** The name and race RETURN stores on the preview player. */
    method Label(race: string)
      modifies preview`name, preview`race
      ensures ProfileOf() == old(ProfileOf()).(name := ChosenName(charName), race := race)
    {
      preview.name := ChosenName(charName);
      preview.race := race;
    }

    /** The bonus half of RETURN on the preview player. */
    method ApplyBonuses(b: map<string, Json>) returns (ok: bool)
      modifies preview`maxHealth, preview`health, preview`damageBonus, preview`speed
      ensures (ProfileOf(), ok) == WithBonuses(b, old(ProfileOf()))
    {
      if !Addable(b, "health") {
        return false;
      }
      preview.maxHealth := preview.maxHealth + Bonus(b, "health");
      preview.health := preview.maxHealth;
      preview.damageBonus := Get(b, "damage", JNum(0));
      if !Addable(b, "speed") {
        return false;
      }
      preview.speed := preview.speed + Bonus(b, "speed");
      return true;
    }

    /** One event of the update loop, proved to be EventStep. `response`
        is what the metadata request would return should this event need
        it. */
    method HandleEvent(ev: Event, response: Option<Json>) returns (ok: bool)
      requires Valid()
      modifies this`selected, this`preview, this`charName, this`handedOff,
               preview`name, preview`race, preview`maxHealth, preview`health, preview`damageBonus, preview`speed,
               cache`entries, cache`fetches
      ensures Valid()
      ensures (FormOf(), ok) == EventStep(old(FormOf()), ev, response)
      ensures preview == old(preview) || fresh(preview)
      ensures unchanged(this`previewTimer, this`previewFrame, this`previewDir)
    {
      ok := true;
      if ev.KeyDown? {
        if ev.key == UpArrow || ev.key == DownArrow {
          Pick(SelectStep(selected, ev));
        } else if ev.key == Backspace {
          charName := DropLast(charName);
        } else if ev.key == Enter {
          ok := Confirm(response);
        }
      }
    }

    /** UP or DOWN: select race `s` and build a fresh preview of it. */
    method Pick(s: int)
      requires 0 <= s < |Races|
      modifies this`selected, this`preview
      ensures selected == s && fresh(preview) && preview.Valid()
      ensures ProfileOf() == FreshProfile(Races[s])
    {
      selected := s;
      preview := new Player(PreviewX, PreviewY, Races[s]);
    }

    /** RETURN as seen from the event loop: the preview, still valid,
        carries the chosen name, the selected race and the bonuses, and is
        handed to the HUD unless a bonus could not be added. */
    method Confirm(response: Option<Json>) returns (ok: bool)
      requires Valid()
      modifies preview`name, preview`race, preview`maxHealth, preview`health, preview`damageBonus, preview`speed,
               cache`entries, cache`fetches, this`handedOff
      ensures Valid()
      ensures (FormOf(), ok) == EventStep(old(FormOf()), KeyDown(Enter, ""), response)
    {
      ghost var meta;
      ok, meta := Choose(Races[selected], response);
    }

    /** The event loop of update, proved to be Run: an exception raised
        by RETURN ends it; `n` counts the events handled, the failing one
        included. */
    method HandleEvents(events: seq<Event>, responses: seq<Option<Json>>) returns (ok: bool, ghost n: nat)
      requires Valid() && |responses| == |events|
      modifies this, preview`name, preview`race, preview`maxHealth, preview`health, preview`damageBonus,
               preview`speed, cache`entries, cache`fetches
      ensures Valid()
      ensures (FormOf(), ok, n) == Run(old(FormOf()), events, responses)
      ensures selected == Selection(old(selected), events[..n])
      ensures charName == NameField(old(charName), events[..n])
      ensures AnimOf() == old(AnimOf())
    {
      ghost var start := FormOf();
      ok, n := EventLoop(events, responses);
      if ok {
        assert events[..n] == events && responses[..n] == responses;
      } else {
        RunHalts(start, events, responses, n);
      }
      RunTracks(start, events, responses);
    }

    /** The loop itself: the events handled so far are a run of their own. */
    method EventLoop(events: seq<Event>, responses: seq<Option<Json>>) returns (ok: bool, ghost n: nat)
      requires Valid() && |responses| == |events|
      modifies this, preview`name, preview`race, preview`maxHealth, preview`health, preview`damageBonus,
               preview`speed, cache`entries, cache`fetches
      ensures Valid() && n <= |events| && (ok ==> n == |events|)
      ensures (FormOf(), ok, n) == Run(old(FormOf()), events[..n], responses[..n])
      ensures AnimOf() == old(AnimOf())
    {
      ghost var start := FormOf();
      ok := true;
      var i := 0;
      while i < |events| && ok
        invariant 0 <= i <= |events| && Valid()
        invariant preview == old(preview) || fresh(preview)
        invariant (FormOf(), ok, i) == Run(start, events[..i], responses[..i])
        invariant AnimOf() == old(AnimOf())
      {
        ok := HandleEvent(events[i], responses[i]);
        RunStep(start, events, responses, i);
        i := i + 1;
      }
      n := i;
    }

    /** CharacterCreateScreen.update(dt, events): the preview animation,
        then the events. */
    method Update(dt: real, events: seq<Event>, responses: seq<Option<Json>>) returns (ok: bool, ghost n: nat)
      requires Valid() && |responses| == |events|
      modifies this, preview`name, preview`race, preview`maxHealth, preview`health, preview`damageBonus,
               preview`speed, preview`rect, preview`facing, preview`timeSinceDash, preview`energy,
               preview`frameIndex, preview`frameTimer, preview`timeSinceLastShot, cache`entries, cache`fetches
      ensures Valid()
      ensures AnimOf() == AnimStep(old(AnimOf()), dt)
      ensures (FormOf(), ok, n) == Run(old(FormOf()), events, responses)
      ensures selected == Selection(old(selected), events[..n])
      ensures charName == NameField(old(charName), events[..n])
    {
      Animate(dt);
      ok, n := HandleEvents(events, responses);
    }
  }
}
