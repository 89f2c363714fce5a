/** The Python string operations the router applies to the model's reply:
    `str.upper`, `str.startswith`, `str.split(sep, 1)` and `str.strip`. */
module Text {
  import opened Wrappers

  /** Python's `str.isspace` set, which a bare `strip()` removes: the ASCII
      controls TAB..CR and FS..US, the space, NEL, NBSP and the Unicode
      space separators, line and paragraph separators. */
  predicate IsSpace(c: char) {
    || ('\t' <= c <= '\r')
    || ('\U{1C}' <= c <= '\U{1F}')
    || c == ' '
    || c == '\U{85}'
    || c == '\U{A0}'
    || c == '\U{1680}'
    || ('\U{2000}' <= c <= '\U{200A}')
    || c == '\U{2028}'
    || c == '\U{2029}'
    || c == '\U{202F}'
    || c == '\U{205F}'
    || c == '\U{3000}'
  }

  /** `s.lstrip()`. */
  function TrimStart(s: string): (r: string)
    ensures |r| <= |s| && r == s[|s| - |r|..]
    ensures forall i :: 0 <= i < |s| - |r| ==> IsSpace(s[i])
    ensures |r| > 0 ==> !IsSpace(r[0])
  {
    if |s| > 0 && IsSpace(s[0]) then TrimStart(s[1..]) else s
  }

  /** `s.rstrip()`. */
  function TrimEnd(s: string): (r: string)
    ensures |r| <= |s| && r == s[..|r|]
    ensures forall i :: |r| <= i < |s| ==> IsSpace(s[i])
    ensures |r| > 0 ==> !IsSpace(r[|r| - 1])
  {
    if |s| > 0 && IsSpace(s[|s| - 1]) then TrimEnd(s[..|s| - 1]) else s
  }

  /** `s.strip()`. */
  function Strip(s: string): string {
    TrimEnd(TrimStart(s))
  }

  /** `s[a..b]` is what remains of `s` once its surrounding whitespace is
      removed: only whitespace lies outside it, and none at its two ends. */
  ghost predicate StripBounds(s: string, a: int, b: int) {
    && 0 <= a <= b <= |s|
    && (forall i :: 0 <= i < a ==> IsSpace(s[i]))
    && (forall i :: b <= i < |s| ==> IsSpace(s[i]))
    && (a < b ==> !IsSpace(s[a]) && !IsSpace(s[b - 1]))
  }

  /** What it means for `t` to be `s` with its surrounding whitespace removed. */
  ghost predicate IsStripOf(t: string, s: string) {
    exists a, b :: StripBounds(s, a, b) && t == s[a..b]
  }

  /** `lstrip` stops exactly at the first non-space character. */
  lemma TrimStartStopsAt(s: string, a: nat)
    requires a <= |s|
    requires forall i :: 0 <= i < a ==> IsSpace(s[i])
    requires a == |s| || !IsSpace(s[a])
    ensures TrimStart(s) == s[a..]
  {
  }

  /** `rstrip` stops exactly after the last non-space character. */
  lemma TrimEndStopsAt(s: string, b: nat)
    requires b <= |s|
    requires forall i :: b <= i < |s| ==> IsSpace(s[i])
    requires b == 0 || !IsSpace(s[b - 1])
    ensures TrimEnd(s) == s[..b]
  {
  }

  /** `Strip` meets the description. */
  lemma StripSatisfies(s: string)
    ensures IsStripOf(Strip(s), s)
  {
    var l := TrimStart(s);
    var r := TrimEnd(l);
    var a := |s| - |l|;
    var b := a + |r|;
    assert r == s[a..b];
    forall i | b <= i < |s|
      ensures IsSpace(s[i])
    {
      assert s[i] == l[i - a];
    }
    if a < b {
      assert s[a] == r[0];
      assert s[b - 1] == r[|r| - 1];
    }
    assert StripBounds(s, a, b);
  }

  /** An all-whitespace string strips to nothing. */
  lemma StripAllSpace(s: string)
    requires forall i :: 0 <= i < |s| ==> IsSpace(s[i])
    ensures Strip(s) == []
  {
    TrimStartStopsAt(s, |s|);
  }

  /** `rstrip` of a suffix `s[a..]` stops after the last non-space character. */
  lemma TrimEndOfSuffix(s: string, a: int, b: int)
    requires 0 <= a < b <= |s|
    requires forall i :: b <= i < |s| ==> IsSpace(s[i])
    requires !IsSpace(s[b - 1])
    ensures TrimEnd(s[a..]) == s[a..b]
  {
  }

  /** Non-empty bounds meeting the description pick out exactly `Strip(s)`. */
  lemma StripBoundsDetermine(s: string, a: int, b: int)
    requires StripBounds(s, a, b) && a < b
    ensures s[a..b] == Strip(s)
  {
    TrimStartStopsAt(s, a);
    TrimEndOfSuffix(s, a, b);
  }

  /** Nothing but `Strip(s)` meets the description: the stripped text is
      determined by the characterisation alone. */
  lemma StripUnique(s: string, t: string)
    requires IsStripOf(t, s)
    ensures t == Strip(s)
  {
    var a, b :| StripBounds(s, a, b) && t == s[a..b];
    if a == b {
      StripAllSpace(s);
    } else {
      StripBoundsDetermine(s, a, b);
    }
  }

  /** `c.upper()` on ASCII letters; every other character is left as it is. */
  function UpperChar(c: char): char {
    if 'a' <= c <= 'z' then (c as int - 32) as char else c
  }

  /** `s.upper()`, character by character. */
  function Upper(s: string): (r: string)
    ensures |r| == |s|
  {
    seq(|s|, i requires 0 <= i < |s| => UpperChar(s[i]))
  }

  /** `s.startswith(p)`. */
  predicate StartsWith(s: string, p: string) {
    |p| <= |s| && s[..|p|] == p
  }

  /** Position of the first `sep` in `s`, if any (`s.find(sep)`). */
  function FirstIndex(s: string, sep: char): (r: Option<nat>)
    ensures r.None? <==> sep !in s
    ensures r.Some? ==> r.value < |s| && s[r.value] == sep && sep !in s[..r.value]
  {
    if |s| == 0 then None
    else if s[0] == sep then Some(0)
    else
      match FirstIndex(s[1..], sep)
      case None => None
      case Some(k) =>
        assert s[..k + 1] == [s[0]] + s[1..][..k];
        Some(k + 1)
  }

  /** `s.split(sep, 1)[1]`: the text after the first `sep`; with no `sep` the
      split has one part and the index raises (None here). */
  function AfterFirst(s: string, sep: char): (r: Option<string>)
    ensures r.None? <==> sep !in s
    ensures r.Some? ==> exists k :: 0 <= k < |s| && s[k] == sep && sep !in s[..k] && r.value == s[k + 1..]
  {
    match FirstIndex(s, sep)
    case None => None
    case Some(k) => Some(s[k + 1..])
  }
}
