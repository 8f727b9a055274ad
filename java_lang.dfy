/** The few pieces of the Java and Spring runtime that the account-context code relies on:
    null references, thrown exceptions, `String.trim`, `StringUtils.hasText`,
    `String.equalsIgnoreCase`, `String.contains` and the printing of null in a concatenation. */
module JavaLang {

  /** A Java reference that may be null. */
  datatype Option<+T> = None | Some(value: T)

  /** A Java call that returns a value or throws. */
  datatype Result<+T, +E> = Ok(value: T) | Err(error: E)

  /** A Java call that returns nothing or throws. */
  datatype Outcome<+E> = Pass | Fail(error: E)

  /** A `java.lang.Long`: 64 bits, compared by value. */
  type Long = bv64

  /** `String.valueOf(s)` as string concatenation applies it: a null reference prints as "null". */
  function StringOf(s: Option<string>): string
  {
    match s
    case Some(text) => text
    case None => "null"
  }

  // ---------------------------------------------------------------------------------------------
  // String.trim(): strips every leading and trailing code unit not above ' ' (U+0020).

  function TrimLeading(s: string): (r: string)
    ensures |r| <= |s| && r == s[|s| - |r|..]
    ensures r == [] || r[0] > ' '
    ensures forall i :: 0 <= i < |s| - |r| ==> s[i] <= ' '
    decreases |s|
  {
    if s != [] && s[0] <= ' ' then TrimLeading(s[1..]) else s
  }

  function TrimTrailing(s: string): (r: string)
    ensures |r| <= |s| && r == s[..|r|]
    ensures r == [] || r[|r| - 1] > ' '
    ensures forall i :: |r| <= i < |s| ==> s[i] <= ' '
    decreases |s|
  {
    if s != [] && s[|s| - 1] <= ' ' then TrimTrailing(s[..|s| - 1]) else s
  }

  function Trim(s: string): string
  {
    TrimTrailing(TrimLeading(s))
  }

  /** `login.trim().isEmpty()` holds exactly when every code unit of `login` is at most ' '. */
  lemma TrimEmptyIffBlank(s: string)
    ensures Trim(s) == [] <==> forall i :: 0 <= i < |s| ==> s[i] <= ' '
  {
    var lead := TrimLeading(s);
    assert lead == [] || lead[0] == s[|s| - |lead|];
    if exists k :: 0 <= k < |s| && s[k] > ' ' {
      var k :| 0 <= k < |s| && s[k] > ' ';
      assert |s| - |lead| <= k;
      assert lead[k - (|s| - |lead|)] == s[k];
    }
  }

  // ---------------------------------------------------------------------------------------------
  // StringUtils.hasText(): not null and at least one character that Character.isWhitespace rejects.

  /** `Character.isWhitespace`: the Unicode space, line and paragraph separators other than the
      no-break spaces U+00A0, U+2007 and U+202F, plus the controls U+0009..U+000D and U+001C..U+001F.
      U+180E is listed as it was a space separator up to Java 8. */
  predicate IsWhitespace(c: char)
  {
    var n := c as int;
    (0x09 <= n <= 0x0D) || (0x1C <= n <= 0x20)
    || n == 0x1680 || n == 0x180E
    || (0x2000 <= n <= 0x2006) || (0x2008 <= n <= 0x200A)
    || n == 0x2028 || n == 0x2029 || n == 0x205F || n == 0x3000
  }

  predicate HasText(s: Option<string>)
  {
    s.Some? && exists i :: 0 <= i < |s.value| && !IsWhitespace(s.value[i])
  }

  // ---------------------------------------------------------------------------------------------
  // String.equalsIgnoreCase(): folding is modelled on ASCII letters only.

  function ToLowerAscii(c: char): (d: char)
    ensures 'A' <= c <= 'Z' ==> 'a' <= d <= 'z' && d as int == c as int + 32
    ensures !('A' <= c <= 'Z') ==> d == c
  {
    if 'A' <= c <= 'Z' then (c as int + 32) as char else c
  }

  predicate SameIgnoringCase(a: string, b: string)
  {
    |a| == |b| && forall i :: 0 <= i < |a| ==> ToLowerAscii(a[i]) == ToLowerAscii(b[i])
  }

  /** `a.equalsIgnoreCase(b)`, where a null `b` is never equal. */
  predicate EqualsIgnoreCase(a: string, b: Option<string>)
  {
    b.Some? && SameIgnoringCase(a, b.value)
  }

  lemma SameIgnoringCaseIsEquivalence(a: string, b: string, c: string)
    ensures SameIgnoringCase(a, a)
    ensures SameIgnoringCase(a, b) ==> SameIgnoringCase(b, a)
    ensures SameIgnoringCase(a, b) && SameIgnoringCase(b, c) ==> SameIgnoringCase(a, c)
  {
  }

  // ---------------------------------------------------------------------------------------------
  // String.contains()

  predicate Contains(s: string, part: string)
  {
    exists i :: 0 <= i <= |s| && part <= s[i..]
  }
}
