/** The two JavaScript string operations the office page's validation relies on:
    `String.prototype.trim` and the `length` property, which counts UTF-16 code
    units rather than characters. Dafny's `char` is a Unicode scalar value. */
module JsString {

  /** The characters `trim` removes: ECMAScript WhiteSpace (tab, vertical tab,
      form feed, space, no-break space, byte-order mark and the Zs category)
      and LineTerminator (line feed, carriage return, U+2028, U+2029). Every
      such character is a single code unit. Next line (U+0085), the Mongolian
      vowel separator (U+180E) and the zero-width space (U+200B) are not in
      the set, although some other languages' trims remove them. */
  function IsWhitespace(c: char): (b: bool)
    ensures c == ' ' || c == '\t' || c == '\n' || c == '\r' ==> b
    ensures b ==> CodeUnits(c) == 1
    ensures c as int == 0x85 || c as int == 0x180E || c as int == 0x200B ==> !b
  {
    var n := c as int;
    (0x09 <= n <= 0x0D) || n == 0x20 || n == 0xA0 || n == 0x1680 ||
    (0x2000 <= n <= 0x200A) || n == 0x2028 || n == 0x2029 || n == 0x202F ||
    n == 0x205F || n == 0x3000 || n == 0xFEFF
  }

  /** Drops leading whitespace: the result is a suffix of `s` starting at its
      first non-whitespace character. */
  function TrimStart(s: string): (r: string)
    ensures |r| <= |s| && r == s[|s| - |r|..]
    ensures r != [] ==> !IsWhitespace(r[0])
    ensures forall i :: 0 <= i < |s| - |r| ==> IsWhitespace(s[i])
  {
    if s != [] && IsWhitespace(s[0]) then TrimStart(s[1..]) else s
  }

  /** Drops trailing whitespace: the result is a prefix of `s` ending at its
      last non-whitespace character. */
  function TrimEnd(s: string): (r: string)
    ensures |r| <= |s| && r == s[..|r|]
    ensures r != [] ==> !IsWhitespace(r[|r| - 1])
    ensures forall i :: |r| <= i < |s| ==> IsWhitespace(s[i])
  {
    if s != [] && IsWhitespace(s[|s| - 1]) then TrimEnd(s[..|s| - 1]) else s
  }

  /** No whitespace at either end. */
  predicate Trimmed(t: string) {
    t == [] || (!IsWhitespace(t[0]) && !IsWhitespace(t[|t| - 1]))
  }

  /** `s.trim()`: the slice of `s` between its first and last non-whitespace
      characters, empty when `s` is all whitespace. */
  function Trim(s: string): (r: string)
    ensures Trimmed(r)
    ensures r == [] <==> forall i :: 0 <= i < |s| ==> IsWhitespace(s[i])
    ensures |r| <= |s|
  {
    var t := TrimStart(s);
    var r := TrimEnd(t);
    assert r == s[|s| - |t|..|s| - |t| + |r|];
    assert r == [] ==> t == [];
    assert r != [] ==> r[0] == s[|s| - |t|];
    r
  }

  /** The trimmed string is the run of `s` that starts after its leading
      whitespace. */
  lemma TrimIsSlice(s: string)
    ensures var k := |s| - |TrimStart(s)|;
      k + |Trim(s)| <= |s| && Trim(s) == s[k..k + |Trim(s)|]
  {
  }

  /** `trim` drops only whitespace: every character of `s` before the
      trimmed run and every one after it is whitespace. */
  lemma TrimDropsOnlyWhitespace(s: string)
    ensures var k := |s| - |TrimStart(s)|;
      k + |Trim(s)| <= |s| &&
      (forall i :: 0 <= i < k ==> IsWhitespace(s[i])) &&
      (forall i :: k + |Trim(s)| <= i < |s| ==> IsWhitespace(s[i]))
  {
    PrefixOfSuffix(s, TrimStart(s), Trim(s));
  }

  /** A prefix `r` of the suffix `t` of `s` is the slice of `s` that starts
      where `t` does, and what follows `r` in `s` is what follows it in `t`. */
  lemma PrefixOfSuffix(s: string, t: string, r: string)
    requires |t| <= |s| && t == s[|s| - |t|..]
    requires |r| <= |t| && r == t[..|r|]
    ensures forall i :: |s| - |t| + |r| <= i < |s| ==> s[i] == t[i - (|s| - |t|)]
  {
  }

  /** A string without leading or trailing whitespace is its own trim. */
  lemma TrimmedIsFixed(t: string)
    requires Trimmed(t)
    ensures Trim(t) == t
  {
  }

  /** Trimming twice is trimming once. */
  lemma TrimIdempotent(s: string)
    ensures Trim(Trim(s)) == Trim(s)
  {
    TrimmedIsFixed(Trim(s));
  }

  /** Number of UTF-16 code units of one character: two for a character
      outside the Basic Multilingual Plane (a surrogate pair), else one. */
  function CodeUnits(c: char): (n: nat)
    ensures 1 <= n <= 2
    ensures n == 2 <==> c as int > 0xFFFF
  {
    if c as int >= 0x10000 then 2 else 1
  }

  /** `s.length` in JavaScript: the number of UTF-16 code units. */
  function Utf16Length(s: string): (n: nat)
    ensures |s| <= n <= 2 * |s|
  {
    if s == [] then 0 else CodeUnits(s[0]) + Utf16Length(s[1..])
  }

  /** A string is shorter than two code units exactly when it is empty or is a
      single character of the Basic Multilingual Plane. */
  lemma ShortIffSingleBmp(s: string)
    ensures Utf16Length(s) < 2 <==> s == [] || (|s| == 1 && s[0] as int < 0x10000)
  {
  }
}
