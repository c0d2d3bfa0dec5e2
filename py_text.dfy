/**
 * The few Python string operations the router probe applies to `ping` output,
 * with Python's semantics: `s.split(sep)` for a one-character separator,
 * `pat in s`, `s.split(pat)[1]` and `s.split()[0]`.
 */
module PyText {

  import opened Optional

  /**
   * Python's `str.isspace` for one character: the characters `str.split()`
   * without an argument separates on (ASCII whitespace, the four information
   * separators U+001C..U+001F, and the Unicode space and line separators).
   */
  predicate IsSpace(c: char) {
    || ('\t' <= c <= '\r')
    || ('\U{1C}' <= c <= ' ')
    || c == '\U{85}' || c == '\U{A0}' || c == '\U{1680}'
    || ('\U{2000}' <= c <= '\U{200A}')
    || c == '\U{2028}' || c == '\U{2029}' || c == '\U{202F}' || c == '\U{205F}' || c == '\U{3000}'
  }

  /** The ranges in `IsSpace` are exactly the characters Python's `str.isspace` accepts. */
  lemma IsSpaceListed(c: char)
    ensures IsSpace(c) <==> c in PythonWhitespace
  {
  }

  /** The characters Python's `str.isspace` accepts, one by one. */
  const PythonWhitespace: set<char> := {
    '\t', '\n', '\U{0B}', '\U{0C}', '\r', '\U{1C}', '\U{1D}', '\U{1E}', '\U{1F}', ' ',
    '\U{85}', '\U{A0}', '\U{1680}',
    '\U{2000}', '\U{2001}', '\U{2002}', '\U{2003}', '\U{2004}', '\U{2005}',
    '\U{2006}', '\U{2007}', '\U{2008}', '\U{2009}', '\U{200A}',
    '\U{2028}', '\U{2029}', '\U{202F}', '\U{205F}', '\U{3000}'}

  /** `sep.join(parts)` for a one-character separator. */
  function Join(parts: seq<string>, sep: char): string
    requires |parts| > 0
  {
    if |parts| == 1 then parts[0] else parts[0] + [sep] + Join(parts[1..], sep)
  }

  /**
   * `s.split(sep)`: never empty (`"".split("\n") == [""]`), no piece holds the
   * separator, and joining the pieces back gives `s`.
   */
  function Split(s: string, sep: char): (parts: seq<string>)
    ensures |parts| > 0
    ensures forall i :: 0 <= i < |parts| ==> sep !in parts[i]
    ensures Join(parts, sep) == s
  {
    if |s| == 0 then [""]
    else
      var rest := Split(s[1..], sep);
      if s[0] == sep then
        assert ([""] + rest)[1..] == rest;
        [""] + rest
      else
        var parts := [[s[0]] + rest[0]] + rest[1..];
        assert parts[1..] == rest[1..];
        assert s == [s[0]] + s[1..];
        parts
  }

  /** `pat` occurs in `s` starting at index `i`. */
  predicate OccursAt(s: string, pat: string, i: nat) {
    i + |pat| <= |s| && s[i..i + |pat|] == pat
  }

  /** `s.find(pat, from)`: the first occurrence of `pat` at or after `from`, if any. */
  function FindFrom(s: string, pat: string, from: nat): (r: Option<nat>)
    ensures r.Some? ==> from <= r.value && OccursAt(s, pat, r.value)
    ensures r.Some? ==> forall j :: from <= j < r.value ==> !OccursAt(s, pat, j)
    ensures r.None? ==> forall j :: from <= j ==> !OccursAt(s, pat, j)
    decreases |s| - from
  {
    if from + |pat| > |s| then None
    else if s[from..from + |pat|] == pat then Some(from)
    else FindFrom(s, pat, from + 1)
  }

  /** `pat in s`. */
  predicate Contains(s: string, pat: string) {
    exists i: nat | i <= |s| :: OccursAt(s, pat, i)
  }

  /** `pat in s` holds exactly when `s.find(pat)` finds an occurrence. */
  lemma ContainsFinds(s: string, pat: string)
    ensures Contains(s, pat) <==> FindFrom(s, pat, 0).Some?
  {
  }

  /** An occurrence covering index `m` puts the character at `m` into the pattern. */
  lemma OccurrenceCovers(s: string, pat: string, i: nat, m: nat)
    requires OccursAt(s, pat, i) && m < |s|
    ensures i <= m < i + |pat| ==> s[m] in pat
  {
    if i <= m < i + |pat| {
      assert s[i..i + |pat|][m - i] == s[m];
    }
  }

  /** An occurrence inside the left part of a concatenation is one in the whole. */
  lemma OccursLeft(x: string, y: string, pat: string, i: nat)
    requires i + |pat| <= |x|
    ensures OccursAt(x + y, pat, i) <==> OccursAt(x, pat, i)
  {
    assert (x + y)[i..i + |pat|] == x[i..i + |pat|];
  }

  /** An occurrence inside the right part of a concatenation is one in the whole, shifted. */
  lemma OccursRight(x: string, y: string, pat: string, j: nat)
    ensures OccursAt(x + y, pat, |x| + j) <==> OccursAt(y, pat, j)
  {
    if j + |pat| <= |y| {
      assert (x + y)[|x| + j..|x| + j + |pat|] == y[j..j + |pat|];
    }
  }

  /**
   * A pattern without the separator occurs around a separator exactly when
   * it occurs on one side of it: no occurrence straddles the separator.
   */
  lemma ContainsAround(a: string, sep: char, b: string, pat: string)
    requires sep !in pat
    ensures Contains(a + [sep] + b, pat) <==> Contains(a, pat) || Contains(b, pat)
  {
    var left := a + [sep];
    var s := left + b;
    assert s == a + ([sep] + b);
    if Contains(s, pat) {
      var i: nat :| i <= |s| && OccursAt(s, pat, i);
      assert s[|a|] == sep;
      OccurrenceCovers(s, pat, i, |a|);
      if i + |pat| <= |a| {
        OccursLeft(a, [sep] + b, pat, i);
      } else {
        OccursRight(left, b, pat, i - |left|);
      }
    }
    if Contains(a, pat) {
      var i: nat :| i <= |a| && OccursAt(a, pat, i);
      OccursLeft(a, [sep] + b, pat, i);
    }
    if Contains(b, pat) {
      var j: nat :| j <= |b| && OccursAt(b, pat, j);
      OccursRight(left, b, pat, j);
    }
  }

  /**
   * A pattern without the separator occurs in the joined text exactly when
   * it occurs in one of the pieces.
   */
  lemma {:induction false} ContainsJoin(parts: seq<string>, sep: char, pat: string)
    requires |parts| > 0
    requires sep !in pat
    ensures Contains(Join(parts, sep), pat) <==> exists i :: 0 <= i < |parts| && Contains(parts[i], pat)
  {
    if |parts| > 1 {
      var rest := parts[1..];
      ContainsJoin(rest, sep, pat);
      ContainsAround(parts[0], sep, Join(rest, sep), pat);
      if exists i :: 1 <= i < |parts| && Contains(parts[i], pat) {
        var i :| 1 <= i < |parts| && Contains(parts[i], pat);
        assert rest[i - 1] == parts[i];
      }
      if exists i :: 0 <= i < |rest| && Contains(rest[i], pat) {
        var i :| 0 <= i < |rest| && Contains(rest[i], pat);
        assert parts[i + 1] == rest[i];
      }
    }
  }

  /**
   * `s.split(pat)[1]`: the text after the first occurrence of `pat` up to the
   * next one (or the end), or `None` where Python raises `IndexError` because
   * `pat` does not occur.
   */
  function SecondField(s: string, pat: string): (r: Option<string>)
    requires |pat| > 0
    ensures r.Some? <==> Contains(s, pat)
    ensures r.Some? ==>
      var start := FindFrom(s, pat, 0).value + |pat|;
      && start + |r.value| <= |s|
      && s[start..start + |r.value|] == r.value
      && (forall j :: 0 <= j < |r.value| ==> !OccursAt(s[start..], pat, j))
      && (start + |r.value| == |s| || OccursAt(s[start..], pat, |r.value|))
  {
    match FindFrom(s, pat, 0)
    case None => None
    case Some(i) =>
      var rest := s[i + |pat|..];
      match FindFrom(rest, pat, 0)
      case None => Some(rest)
      case Some(j) => Some(rest[..j])
  }

  /** The number of whitespace characters `s` starts with. */
  function LeadingSpaces(s: string): (n: nat)
    ensures n <= |s|
    ensures forall i :: 0 <= i < n ==> IsSpace(s[i])
    ensures n == |s| || !IsSpace(s[n])
  {
    if |s| == 0 || !IsSpace(s[0]) then 0 else 1 + LeadingSpaces(s[1..])
  }

  /** The number of non-whitespace characters `s` starts with. */
  function WordLength(s: string): (n: nat)
    ensures n <= |s|
    ensures forall i :: 0 <= i < n ==> !IsSpace(s[i])
    ensures n == |s| || IsSpace(s[n])
  {
    if |s| == 0 || IsSpace(s[0]) then 0 else 1 + WordLength(s[1..])
  }

  /**
   * `s.split()[0]`: the first maximal run of non-whitespace characters, or
   * `None` where Python raises `IndexError` because `s` is blank.
   */
  function FirstToken(s: string): (t: Option<string>)
    ensures t.None? <==> forall i :: 0 <= i < |s| ==> IsSpace(s[i])
    ensures t.Some? ==> |t.value| > 0 && forall i :: 0 <= i < |t.value| ==> !IsSpace(t.value[i])
    ensures t.Some? ==>
      var k := LeadingSpaces(s);
      && k + |t.value| <= |s|
      && s[k..k + |t.value|] == t.value
      && (k + |t.value| == |s| || IsSpace(s[k + |t.value|]))
  {
    var k := LeadingSpaces(s);
    if k == |s| then None else Some(s[k..k + WordLength(s[k..])])
  }
}
