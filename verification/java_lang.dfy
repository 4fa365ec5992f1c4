/**
  The few pieces of the Java platform the topology projection relies on:
  nullable references, fixed-width integers, `StringUtil.isEmpty` and
  `String.trim()`.
 */
module JavaLang {

  /** A Java reference that may be `null`. */
  datatype Option<+T> = None | Some(value: T)

  /** Java `int`: every value is only copied, never computed on. */
  newtype int32 = x: int | -0x8000_0000 <= x < 0x8000_0000

  /** Java `long`. */
  newtype int64 = x: int | -0x8000_0000_0000_0000 <= x < 0x8000_0000_0000_0000

  /** `StringUtil.isEmpty`: a null reference or a string of length zero. */
  predicate IsEmpty(s: Option<string>) {
    s.None? || |s.value| == 0
  }

  /** The characters `String.trim()` strips: every code point up to U+0020. */
  predicate IsTrimmable(c: char) {
    c <= ' '
  }

  /** Number of strippable characters at the front of `s`. */
  function LeadingTrimmable(s: string): (n: nat)
    ensures n <= |s|
    ensures forall k :: 0 <= k < n ==> IsTrimmable(s[k])
    ensures n < |s| ==> !IsTrimmable(s[n])
  {
    if |s| > 0 && IsTrimmable(s[0]) then 1 + LeadingTrimmable(s[1..]) else 0
  }

  /** Number of strippable characters at the back of `s`. */
  function TrailingTrimmable(s: string): (n: nat)
    ensures n <= |s|
    ensures forall k :: |s| - n <= k < |s| ==> IsTrimmable(s[k])
    ensures n < |s| ==> !IsTrimmable(s[|s| - 1 - n])
  {
    if |s| > 0 && IsTrimmable(s[|s| - 1]) then 1 + TrailingTrimmable(s[..|s| - 1]) else 0
  }

  /**
    `String.trim()`: the longest infix of `s` that neither starts nor ends with
    a strippable character; everything cut off on either side is strippable.
   */
  function Trim(s: string): (r: string)
    ensures LeadingTrimmable(s) + |r| <= |s|
    ensures r == s[LeadingTrimmable(s)..LeadingTrimmable(s) + |r|]
    ensures forall k :: 0 <= k < LeadingTrimmable(s) ==> IsTrimmable(s[k])
    ensures forall k :: LeadingTrimmable(s) + |r| <= k < |s| ==> IsTrimmable(s[k])
    ensures r != [] ==> !IsTrimmable(r[0]) && !IsTrimmable(r[|r| - 1])
  {
    var t := s[LeadingTrimmable(s)..];
    t[..|t| - TrailingTrimmable(t)]
  }

  /** A string with no strippable character at either end is left as it is. */
  lemma TrimKeepsClean(s: string)
    requires s != [] ==> !IsTrimmable(s[0]) && !IsTrimmable(s[|s| - 1])
    ensures Trim(s) == s
  {
  }

  /** Trimming twice is trimming once. */
  lemma TrimIdempotent(s: string)
    ensures Trim(Trim(s)) == Trim(s)
  {
  }
}
