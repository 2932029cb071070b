/**
 * The JSON values the game reads from its config files and the race
 * metadata endpoint, as far as the game looks at them: whole numbers,
 * strings, objects, and everything else lumped together.
 */
module JsonValue {
  datatype Json = JNum(n: int) | JStr(s: string) | JObj(fields: map<string, Json>) | JOther

  /** dict.get(key, default) */
  function Get(fields: map<string, Json>, key: string, default: Json): Json
  {
    if key in fields then fields[key] else default
  }

  const EmptyObject: Json := JObj(map[])
}
