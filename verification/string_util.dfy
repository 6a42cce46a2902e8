/** The two string utilities the configuration code relies on:
    Spring's `StringUtils.hasText` and Java's `String.indexOf`. */
module StringUtil {
  import opened Common

  /** Java's `Character.isWhitespace`: the space, line and paragraph
      separators other than the no-break spaces U+00A0, U+2007 and
      U+202F, plus the controls U+0009..U+000D and U+001C..U+001F. */
  predicate IsWhitespace(c: char) {
    var n := c as int;
    n == 0x20 || (0x09 <= n <= 0x0D) || (0x1C <= n <= 0x1F)
    || n == 0x1680 || (0x2000 <= n <= 0x2006) || (0x2008 <= n <= 0x200A)
    || n == 0x2028 || n == 0x2029 || n == 0x205F || n == 0x3000
  }

  /** `StringUtils.hasText`: not null and holding a non-whitespace character. */
  predicate HasText(s: Option<string>) {
    s.Some? && exists i :: 0 <= i < |s.value| && !IsWhitespace(s.value[i])
  }

  /** The index of the first character of `s` that lies in `cs`, or -1
      when there is none (`String.indexOf` generalised to a set). */
  function IndexOfAny(s: string, cs: set<char>): (i: int)
    ensures -1 <= i < |s|
    ensures i >= 0 ==> s[i] in cs
    ensures forall j :: 0 <= j < |s| && (i < 0 || j < i) ==> s[j] !in cs
  {
    if s == [] then -1
    else if s[0] in cs then 0
    else
      var j := IndexOfAny(s[1..], cs);
      if j < 0 then -1 else j + 1
  }

  /** Searching a concatenation whose first part holds none of `cs`
      finds the match in the second part, shifted by the first's length. */
  lemma {:induction false} IndexOfAnySkip(a: string, b: string, cs: set<char>)
    requires forall j :: 0 <= j < |a| ==> a[j] !in cs
    ensures IndexOfAny(a + b, cs) == if IndexOfAny(b, cs) < 0 then -1 else |a| + IndexOfAny(b, cs)
  {
    if a != [] {
      assert (a + b)[1..] == a[1..] + b;
      IndexOfAnySkip(a[1..], b, cs);
    } else {
      assert a + b == b;
    }
  }
}
