/**
 * The Kotlin/JVM string operations the application relies on: `trim`,
 * `isBlank`, `lowercase`, `equals(ignoreCase = true)`, `startsWith`,
 * `removePrefix`, `contains`, `replaceFirstChar { it.uppercase() }` and
 * `String.hashCode`.
 */
module Text {

  /** `Char.isWhitespace` on the JVM: `Character.isWhitespace || Character.isSpaceChar`. */
  predicate IsWhitespace(c: char) {
    var n := c as int;
    (9 <= n <= 13) || (28 <= n <= 32) || n == 0xA0 || n == 0x1680
    || (0x2000 <= n <= 0x200A) || n == 0x2028 || n == 0x2029
    || n == 0x202F || n == 0x205F || n == 0x3000
  }

  /** `CharSequence.isBlank`: empty or whitespace only. */
  predicate IsBlank(s: string) {
    forall i :: 0 <= i < |s| ==> IsWhitespace(s[i])
  }

  /** Drops the leading whitespace. */
  function TrimStart(s: string): (r: string)
    ensures |r| <= |s| && r == s[|s| - |r|..]
    ensures forall i :: 0 <= i < |s| - |r| ==> IsWhitespace(s[i])
    ensures r == [] || !IsWhitespace(r[0])
  {
    if |s| > 0 && IsWhitespace(s[0]) then TrimStart(s[1..]) else s
  }

  /** Drops the trailing whitespace. */
  function TrimEnd(s: string): (r: string)
    ensures |r| <= |s| && r == s[..|r|]
    ensures forall i :: |r| <= i < |s| ==> IsWhitespace(s[i])
    ensures r == [] || !IsWhitespace(r[|r| - 1])
  {
    if |s| > 0 && IsWhitespace(s[|s| - 1]) then TrimEnd(s[..|s| - 1]) else s
  }

  /** Neither the first nor the last character is whitespace. */
  predicate NoOuterWhitespace(r: string) {
    r == [] || (!IsWhitespace(r[0]) && !IsWhitespace(r[|r| - 1]))
  }

  /** `String.trim()`: the leading and then the trailing whitespace dropped. */
  function Trim(s: string): (r: string)
    ensures NoOuterWhitespace(r)
    ensures r == [] <==> IsBlank(s)
  {
    TrimEnds(s);
    TrimBlank(s);
    TrimEnd(TrimStart(s))
  }

  /** Trimming both ends leaves no whitespace at either end. */
  lemma TrimEnds(s: string)
    ensures NoOuterWhitespace(TrimEnd(TrimStart(s)))
  {
    var t := TrimStart(s);
    var r := TrimEnd(t);
    if r != [] {
      assert r[0] == t[0];
    }
  }

  /** Trimming both ends gives nothing exactly for a blank string. */
  lemma TrimBlank(s: string)
    ensures TrimEnd(TrimStart(s)) == [] <==> IsBlank(s)
  {
    var t := TrimStart(s);
    if t != [] {
      assert s[|s| - |t|] == t[0];
    }
  }

  /** Trimming a trimmed string changes nothing. */
  lemma TrimIdempotent(s: string)
    ensures Trim(Trim(s)) == Trim(s)
  {
    var r := Trim(s);
    assert TrimStart(r) == r;
    assert TrimEnd(r) == r;
  }

  /** A string without whitespace at either end is its own trim. */
  lemma TrimOfTrimmed(s: string)
    requires s == [] || (!IsWhitespace(s[0]) && !IsWhitespace(s[|s| - 1]))
    ensures Trim(s) == s
  {
  }

  /**
   * `Char.lowercaseChar` for the letters the application's type names use:
   * ASCII, Latin-1 and the Serbian Latin letters with diacritics.
   */
  function LowerChar(c: char): (r: char)
    ensures IsWhitespace(r) == IsWhitespace(c)
  {
    var n := c as int;
    if 'A' <= c <= 'Z' || (0xC0 <= n <= 0xDE && n != 0xD7) then (n + 32) as char
    else if n == 0x106 || n == 0x10C || n == 0x110 || n == 0x160 || n == 0x17D then (n + 1) as char
    else c
  }

  /** `Char.uppercase()` for the same letters; the German sharp s becomes two letters. */
  function UpperChar(c: char): (r: string)
    ensures |r| >= 1
  {
    var n := c as int;
    if n == 0xDF then "SS"
    else if 'a' <= c <= 'z' || (0xE0 <= n <= 0xFE && n != 0xF7) then [(n - 32) as char]
    else if n == 0x107 || n == 0x10D || n == 0x111 || n == 0x161 || n == 0x17E then [(n - 1) as char]
    else [c]
  }

  /** `String.lowercase()`, character by character. */
  function ToLower(s: string): (r: string)
    ensures |r| == |s|
    ensures forall i :: 0 <= i < |s| ==> r[i] == LowerChar(s[i])
  {
    seq(|s|, i requires 0 <= i < |s| => LowerChar(s[i]))
  }

  lemma {:induction false} ToLowerIdempotent(s: string)
    ensures ToLower(ToLower(s)) == ToLower(s)
  {
    forall i | 0 <= i < |s| ensures ToLower(ToLower(s))[i] == ToLower(s)[i] {
      var c := s[i];
      assert LowerChar(LowerChar(c)) == LowerChar(c);
    }
  }

  /** Lowercasing maps whitespace to whitespace and nothing else to it, so trimming commutes with it. */
  lemma {:induction false} TrimToLowerCommute(s: string)
    ensures Trim(ToLower(s)) == ToLower(Trim(s))
    decreases |s|
  {
    TrimStartToLower(s);
    TrimEndToLower(TrimStart(s));
  }

  lemma {:induction false} TrimStartToLower(s: string)
    ensures TrimStart(ToLower(s)) == ToLower(TrimStart(s))
    decreases |s|
  {
    if |s| > 0 && IsWhitespace(s[0]) {
      assert ToLower(s)[1..] == ToLower(s[1..]);
      TrimStartToLower(s[1..]);
    }
  }

  lemma {:induction false} TrimEndToLower(s: string)
    ensures TrimEnd(ToLower(s)) == ToLower(TrimEnd(s))
    decreases |s|
  {
    if |s| > 0 && IsWhitespace(s[|s| - 1]) {
      assert ToLower(s)[..|s| - 1] == ToLower(s[..|s| - 1]);
      TrimEndToLower(s[..|s| - 1]);
    }
  }

  /** `a.trim().equals(b.trim(), ignoreCase = true)` as the legacy answer matching uses it. */
  predicate EqualsIgnoreCase(a: string, b: string) {
    ToLower(a) == ToLower(b)
  }

  /** `String.startsWith(prefix)`. */
  predicate StartsWith(s: string, prefix: string) {
    |prefix| <= |s| && s[..|prefix|] == prefix
  }

  /** `String.removePrefix(prefix)`. */
  function RemovePrefix(s: string, prefix: string): (r: string)
    ensures StartsWith(s, prefix) ==> prefix + r == s
    ensures !StartsWith(s, prefix) ==> r == s
  {
    if StartsWith(s, prefix) then s[|prefix|..] else s
  }

  /** `CharSequence.contains(other)`: `other` occurs in `s` at some position. */
  predicate Contains(s: string, other: string)
    decreases |s|
  {
    StartsWith(s, other) || (|s| > 0 && Contains(s[1..], other))
  }

  lemma {:induction false} ContainsAt(s: string, other: string, k: nat)
    requires k + |other| <= |s| && s[k..k + |other|] == other
    ensures Contains(s, other)
    decreases k
  {
    if k > 0 {
      assert s[1..][k - 1..k - 1 + |other|] == other;
      ContainsAt(s[1..], other, k - 1);
    }
  }

  /** `replaceFirstChar { it.uppercase() }`. */
  function CapitalizeFirst(s: string): (r: string)
    ensures s == [] ==> r == []
    ensures s != [] ==> r == UpperChar(s[0]) + s[1..]
  {
    if s == [] then [] else UpperChar(s[0]) + s[1..]
  }

  /** The UTF-16 code units of one character, as the JVM stores it. */
  function Utf16(c: char): (r: seq<int>)
    ensures 1 <= |r| <= 2
    ensures forall i :: 0 <= i < |r| ==> 0 <= r[i] < 0x1_0000
  {
    var n := c as int;
    if n < 0x1_0000 then [n]
    else [0xD800 + (n - 0x1_0000) / 0x400, 0xDC00 + (n - 0x1_0000) % 0x400]
  }

  /** `h = 31 * h + unit` over a run of code units, in 32-bit arithmetic. */
  function HashUnits(h: bv32, units: seq<int>): bv32
    requires forall i :: 0 <= i < |units| ==> 0 <= units[i] < 0x1_0000
    decreases |units|
  {
    if units == [] then h else HashUnits(h * 31 + units[0] as bv32, units[1..])
  }

  /** `String.hashCode()` as a 32-bit pattern: the polynomial hash of the UTF-16 code units. */
  function HashCode(s: string): bv32 {
    if s == [] then 0 else HashUnits(HashCode(s[..|s| - 1]), Utf16(s[|s| - 1]))
  }
}
