/** Python's string operations that the meal planner relies on: the ordering of
    `str` values (used by every sort by time or by name), `str.strip()` and
    `str.lower()` (used on CSV headers). */
module Text {

  /** Python's `a <= b` on `str`: lexicographic comparison by code point, where
      a proper prefix is smaller than the longer string. (Dafny's own `<=` on
      sequences means "is a prefix of", which is not this.) */
  predicate Le(a: string, b: string)
    decreases |a|
  {
    if |a| == 0 then true
    else if |b| == 0 then false
    else if a[0] != b[0] then a[0] < b[0]
    else Le(a[1..], b[1..])
  }

  /** Python's `a < b` on `str`. */
  predicate Lt(a: string, b: string) {
    !Le(b, a)
  }

  lemma {:induction false} LeReflexive(a: string)
    ensures Le(a, a)
    decreases |a|
  {
    if |a| > 0 {
      LeReflexive(a[1..]);
    }
  }

  lemma {:induction false} LeTotal(a: string, b: string)
    ensures Le(a, b) || Le(b, a)
    decreases |a|
  {
    if |a| > 0 && |b| > 0 && a[0] == b[0] {
      LeTotal(a[1..], b[1..]);
    }
  }

  lemma {:induction false} LeTransitive(a: string, b: string, c: string)
    requires Le(a, b) && Le(b, c)
    ensures Le(a, c)
    decreases |a|
  {
    if |a| > 0 && |b| > 0 && |c| > 0 && a[0] == b[0] && b[0] == c[0] {
      LeTransitive(a[1..], b[1..], c[1..]);
    }
  }

  lemma {:induction false} LeAntisymmetric(a: string, b: string)
    requires Le(a, b) && Le(b, a)
    ensures a == b
    decreases |a|
  {
    if |a| > 0 && |b| > 0 {
      LeAntisymmetric(a[1..], b[1..]);
      assert a == [a[0]] + a[1..] && b == [b[0]] + b[1..];
    }
  }

  /** `Lt` is `Le` without equality. */
  lemma LtIsStrict(a: string, b: string)
    ensures Lt(a, b) <==> Le(a, b) && a != b
  {
    LeTotal(a, b);
    LeReflexive(a);
    if Le(a, b) && Le(b, a) {
      LeAntisymmetric(a, b);
    }
  }

  lemma LtLeTransitive(a: string, b: string, c: string)
    requires Lt(a, b) && Le(b, c)
    ensures Lt(a, c)
  {
    if Le(c, a) {
      LeTransitive(b, c, a);
    }
  }

  /** The characters Python's `str.isspace()` accepts, which `str.strip()`
      with no argument removes: the controls U+0009 to U+000D and U+001C to
      U+001F, the space, U+0085, and the Unicode space and separator
      characters. */
  predicate IsSpace(c: char) {
    || '\t' <= c <= '\r'
    || '\U{001C}' <= c <= ' '
    || c == '\U{0085}' || c == '\U{00A0}' || c == '\U{1680}'
    || '\U{2000}' <= c <= '\U{200A}'
    || c == '\U{2028}' || c == '\U{2029}' || c == '\U{202F}' || c == '\U{205F}' || c == '\U{3000}'
  }

  /** The number of white-space characters `s` starts with. */
  function LeadingSpaces(s: string): (n: nat)
    ensures n <= |s|
    ensures forall k :: 0 <= k < n ==> IsSpace(s[k])
    ensures n < |s| ==> !IsSpace(s[n])
  {
    if s == [] || !IsSpace(s[0]) then 0 else 1 + LeadingSpaces(s[1..])
  }

  /** The number of white-space characters `s` ends with. */
  function TrailingSpaces(s: string): (n: nat)
    ensures n <= |s|
    ensures forall k :: |s| - n <= k < |s| ==> IsSpace(s[k])
    ensures n < |s| ==> !IsSpace(s[|s| - n - 1])
  {
    if s == [] || !IsSpace(s[|s| - 1]) then 0 else 1 + TrailingSpaces(s[..|s| - 1])
  }

  /** Python's `s.strip()`: the infix of `s` that starts at its first and ends
      at its last non-white-space character; everything around it is white
      space. */
  function Strip(s: string): (r: string)
    ensures r == [] || (!IsSpace(r[0]) && !IsSpace(r[|r| - 1]))
    ensures LeadingSpaces(s) + |r| <= |s| && r == s[LeadingSpaces(s)..LeadingSpaces(s) + |r|]
    ensures forall k :: 0 <= k < LeadingSpaces(s) ==> IsSpace(s[k])
    ensures forall k :: LeadingSpaces(s) + |r| <= k < |s| ==> IsSpace(s[k])
  {
    var i := LeadingSpaces(s);
    if i == |s| then [] else s[i..|s| - TrailingSpaces(s)]
  }

  /** Python's `c.lower()` on the Latin capitals A-Z. */
  function LowerChar(c: char): (r: char)
    ensures !('A' <= r <= 'Z')
    ensures 'a' <= c <= 'z' || !('A' <= c <= 'Z') ==> r == c
  {
    if 'A' <= c <= 'Z' then (c as int + 32) as char else c
  }

  /** Whether a string contains no ASCII capital letter. */
  predicate NoCapitals(s: string) {
    forall i :: 0 <= i < |s| ==> !('A' <= s[i] <= 'Z')
  }

  /** Python's `s.lower()`, character by character. */
  function Lower(s: string): (r: string)
    ensures |r| == |s|
    ensures forall i :: 0 <= i < |s| ==> r[i] == LowerChar(s[i])
    ensures NoCapitals(r)
  {
    seq(|s|, i requires 0 <= i < |s| => LowerChar(s[i]))
  }
}
