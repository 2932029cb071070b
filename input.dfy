/**
 * The pygame events the screens react to, reduced to what their handlers
 * tell apart.
 */
module Input {
  /** The keys the handlers test for; every other key is OtherKey. */
  datatype Key = Escape | Tab | Enter | Backspace | UpArrow | DownArrow | OtherKey

  /** A pygame event as a handler sees it: a key press with the text it
      types, a mouse click at a point, or anything else. */
  datatype Event = KeyDown(key: Key, unicode: string) | MouseDown(x: int, y: int) | OtherEvent
}
