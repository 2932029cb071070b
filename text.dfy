/**
 * Python's `str.strip()` on the chat and name inputs: the longest slice
 * with no whitespace at either end.
 */
module Text {
  /** str.isspace for the Latin-1 range: tab, line feed, vertical tab,
      form feed, carriage return, the four separators 0x1C-0x1F, space,
      next line (0x85) and no-break space (0xA0). */
  predicate IsSpace(c: char)
  {
    c == ' ' || c == '\t' || c == '\n' || c == '\r' || c == '\U{0B}' || c == '\U{0C}'
    || ('\U{1C}' <= c <= '\U{1F}') || c == '\U{85}' || c == '\U{A0}'
  }

  /** The length of the run of whitespace the text starts with. */
  function LeadingSpaces(s: string): (n: nat)
    ensures n <= |s|
    ensures forall i :: 0 <= i < n ==> IsSpace(s[i])
    ensures n == |s| || !IsSpace(s[n])
    decreases |s|
  {
    if s != [] && IsSpace(s[0]) then 1 + LeadingSpaces(s[1..]) else 0
  }

  /** The length of the run of whitespace the text ends with. */
  function TrailingSpaces(s: string): (n: nat)
    ensures n <= |s|
    ensures forall i :: |s| - n <= i < |s| ==> IsSpace(s[i])
    ensures n == |s| || !IsSpace(s[|s| - n - 1])
    decreases |s|
  {
    if s != [] && IsSpace(s[|s| - 1]) then 1 + TrailingSpaces(s[..|s| - 1]) else 0
  }

  /** Drop leading whitespace. */
  function TrimStart(s: string): string
  {
    s[LeadingSpaces(s)..]
  }

  /** Drop trailing whitespace. */
  function TrimEnd(s: string): string
  {
    s[..|s| - TrailingSpaces(s)]
  }

  /** str.strip() */
  function Strip(s: string): (r: string)
  {
    TrimEnd(TrimStart(s))
  }

  /** The stripped text is empty exactly when the input is all
      whitespace; otherwise it starts and ends with a non-space. */
  lemma {:induction false} StripMeaning(s: string)
    ensures Strip(s) == [] <==> forall i :: 0 <= i < |s| ==> IsSpace(s[i])
    ensures Strip(s) != [] ==> !IsSpace(Strip(s)[0]) && !IsSpace(Strip(s)[|Strip(s)| - 1])
  {
    var t := TrimStart(s);
    var r := TrimEnd(t);
    if r == [] {
      assert |t| == TrailingSpaces(t);
      assert LeadingSpaces(s) == |s|;
    } else {
      assert r[0] == t[0];
    }
  }

  /** Strip keeps the slice of the input between its leading and its
      trailing whitespace, and what it drops is whitespace. */
  lemma {:induction false} StripSlice(s: string)
    ensures var k := LeadingSpaces(s);
            && k + |Strip(s)| <= |s| && Strip(s) == s[k..k + |Strip(s)|]
            && (forall i :: 0 <= i < k ==> IsSpace(s[i]))
            && (forall i :: k + |Strip(s)| <= i < |s| ==> IsSpace(s[i]))
  {
    var k := LeadingSpaces(s);
    var t := TrimStart(s);
    var r := TrimEnd(t);
    assert r == s[k..k + |r|];
    forall i | k + |r| <= i < |s|
      ensures IsSpace(s[i])
    {
      assert s[i] == t[i - k];
    }
  }

  /** Stripping twice strips nothing more. */
  lemma {:induction false} StripIdempotent(s: string)
    ensures Strip(Strip(s)) == Strip(s)
  {
    var r := Strip(s);
    StripMeaning(s);
    if r != [] {
      assert LeadingSpaces(r) == 0;
      assert TrimStart(r) == r;
      assert TrailingSpaces(r) == 0;
    }
  }

  /** `s[:-1]`: the last character dropped, nothing on an empty string. */
  function DropLast(s: string): (r: string)
    ensures s == [] ==> r == []
    ensures s != [] ==> r + [s[|s| - 1]] == s
  {
    if s == [] then [] else s[..|s| - 1]
  }
}
