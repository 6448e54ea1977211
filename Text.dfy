/** The handful of Python string operations the two agents rely on: `str.strip`,
    substring search (`in`, `split(sep, 1)`), `str.lower` on the ASCII range,
    `sep.join(parts)` and `str(n)` for a natural number. */
module Text {
  import opened Wrappers

  /** Python's notion of whitespace (`str.isspace`, and `\s` in a `str` pattern). */
  predicate IsSpace(c: char) {
    || ('\t' <= c <= '\r')
    || ('\U{1C}' <= c <= ' ')
    || c == '\U{85}' || c == '\U{A0}' || c == '\U{1680}'
    || ('\U{2000}' <= c <= '\U{200A}')
    || c == '\U{2028}' || c == '\U{2029}' || c == '\U{202F}' || c == '\U{205F}' || c == '\U{3000}'
  }

  /** `\w` restricted to ASCII: letters, digits and the underscore. */
  predicate IsWordChar(c: char) {
    ('a' <= c <= 'z') || ('A' <= c <= 'Z') || ('0' <= c <= '9') || c == '_'
  }

  /** Every position in [i, j) is a whitespace character of s. */
  predicate AllSpace(s: string, i: int, j: int) {
    forall k :: i <= k < j ==> 0 <= k < |s| && IsSpace(s[k])
  }

  /** Every position in [i, j) is a word character of s. */
  predicate AllWord(s: string, i: int, j: int) {
    forall k :: i <= k < j ==> 0 <= k < |s| && IsWordChar(s[k])
  }

  /** lit occurs in s starting at position i. */
  predicate HasAt(s: string, i: int, lit: string) {
    0 <= i && i + |lit| <= |s| && s[i..i + |lit|] == lit
  }

  predicate HasPrefix(s: string, lit: string) {
    HasAt(s, 0, lit)
  }

  lemma HasAtExtend(s: string, t: string, i: int, lit: string)
    requires HasAt(s, i, lit)
    ensures HasAt(s + t, i, lit)
  {
    assert (s + t)[i..i + |lit|] == s[i..i + |lit|];
  }

  lemma HasAtShift(s: string, t: string, i: int, lit: string)
    requires HasAt(t, i, lit)
    ensures HasAt(s + t, |s| + i, lit)
  {
    assert (s + t)[|s| + i..|s| + i + |lit|] == t[i..i + |lit|];
  }

  /** What occurs in the middle part of a text occurs in the whole, shifted by the first part. */
  lemma HasAtWithin(front: string, middle: string, back: string, i: int, lit: string)
    requires HasAt(middle, i, lit)
    ensures HasAt(front + middle + back, |front| + i, lit)
  {
    HasAtShift(front, middle, i, lit);
    HasAtExtend(front + middle, back, |front| + i, lit);
  }

  /** The first occurrence of lit in s at or after position i. */
  function FindFrom(s: string, lit: string, i: nat): (r: Option<nat>)
    ensures r.Some? ==> i <= r.value && HasAt(s, r.value, lit)
    ensures r.Some? ==> forall j :: i <= j < r.value ==> !HasAt(s, j, lit)
    ensures r.None? ==> forall j :: i <= j ==> !HasAt(s, j, lit)
    decreases |s| - i
  {
    if i + |lit| > |s| then None
    else if s[i..i + |lit|] == lit then Some(i)
    else FindFrom(s, lit, i + 1)
  }

  /** `s.find(lit)`, with None for Python's -1. */
  function Find(s: string, lit: string): (r: Option<nat>)
    ensures r.Some? ==> HasAt(s, r.value, lit) && forall j :: 0 <= j < r.value ==> !HasAt(s, j, lit)
    ensures r.None? <==> forall j :: !HasAt(s, j, lit)
  {
    FindFrom(s, lit, 0)
  }

  /** `lit in s`. */
  predicate Contains(s: string, lit: string)
  {
    Find(s, lit).Some?
  }

  /** `s.split(lit, 1)[1]`: what follows the first occurrence of lit. */
  function After(s: string, lit: string): (r: string)
    requires Contains(s, lit)
    ensures exists i :: HasAt(s, i, lit) && (forall j :: 0 <= j < i ==> !HasAt(s, j, lit))
                        && r == s[i + |lit|..]
  {
    var i := Find(s, lit).value;
    s[i + |lit|..]
  }

  /** The end of the run of whitespace that starts at i. */
  function SkipSpaces(s: string, i: nat): (j: nat)
    requires i <= |s|
    ensures i <= j <= |s| && AllSpace(s, i, j)
    ensures j < |s| ==> !IsSpace(s[j])
    decreases |s| - i
  {
    if i < |s| && IsSpace(s[i]) then SkipSpaces(s, i + 1) else i
  }

  /** The end of the run of word characters that starts at i. */
  function SkipWord(s: string, i: nat): (j: nat)
    requires i <= |s|
    ensures i <= j <= |s| && AllWord(s, i, j)
    ensures j < |s| ==> !IsWordChar(s[j])
    decreases |s| - i
  {
    if i < |s| && IsWordChar(s[i]) then SkipWord(s, i + 1) else i
  }

  /** The start of the run of whitespace that ends at j, not going below lo. */
  function TrailingSpaceStart(s: string, lo: nat, j: nat): (k: nat)
    requires lo <= j <= |s|
    ensures lo <= k <= j && AllSpace(s, k, j)
    ensures k > lo ==> !IsSpace(s[k - 1])
    decreases j
  {
    if j > lo && IsSpace(s[j - 1]) then TrailingSpaceStart(s, lo, j - 1) else j
  }

  /** s neither starts nor ends with whitespace. */
  predicate IsStripped(s: string) {
    s == [] || (!IsSpace(s[0]) && !IsSpace(s[|s| - 1]))
  }

  /** `s.strip()`: s without its leading and trailing whitespace. */
  function Strip(s: string): (r: string)
    ensures IsStripped(r)
    ensures exists i :: 0 <= i && i + |r| <= |s| && s[i..i + |r|] == r
                        && AllSpace(s, 0, i) && AllSpace(s, i + |r|, |s|)
  {
    var i := SkipSpaces(s, 0);
    var k := TrailingSpaceStart(s, i, |s|);
    assert AllSpace(s, 0, i) && AllSpace(s, k, |s|);
    s[i..k]
  }

  /** Stripping is the identity on text that is already stripped, so it is idempotent. */
  lemma StripStripped(s: string)
    requires IsStripped(s)
    ensures Strip(s) == s
  {
    var i := SkipSpaces(s, 0);
    if s != [] {
      assert !IsSpace(s[0]);
      assert i == 0;
      var k := TrailingSpaceStart(s, 0, |s|);
      assert !IsSpace(s[|s| - 1]);
      assert k == |s|;
    }
  }

  function LowerChar(c: char): char {
    if 'A' <= c <= 'Z' then (c as int + 32) as char else c
  }

  /** `s.lower()` on the ASCII range; every other character is kept. */
  function Lower(s: string): string {
    seq(|s|, i requires 0 <= i < |s| => LowerChar(s[i]))
  }

  /** Lower-casing confuses a character that is not a lower-case letter with exactly
      itself and its lower-case form. */
  lemma LowerCharMatches(c: char, u: char)
    requires !('a' <= u <= 'z')
    ensures LowerChar(c) == LowerChar(u) <==> c == u || c == LowerChar(u)
  {
  }

  /** `sep.join(parts)`. */
  function Join(sep: string, parts: seq<string>): (r: string)
    decreases |parts|
  {
    if |parts| == 0 then ""
    else if |parts| == 1 then parts[0]
    else Join(sep, parts[..|parts| - 1]) + sep + parts[|parts| - 1]
  }

  /** Where part i starts in `sep.join(parts)`. */
  function Offset(sep: string, parts: seq<string>, i: nat): nat
    requires i <= |parts|
  {
    if i == 0 then 0 else Offset(sep, parts, i - 1) + |parts[i - 1]| + |sep|
  }

  lemma {:induction false} OffsetPrefix(sep: string, parts: seq<string>, m: nat, i: nat)
    requires i <= m <= |parts|
    ensures Offset(sep, parts[..m], i) == Offset(sep, parts, i)
  {
    if i > 0 {
      OffsetPrefix(sep, parts, m, i - 1);
    }
  }

  /** Nothing follows the last part. */
  lemma {:induction false} JoinLength(sep: string, parts: seq<string>)
    requires |parts| > 0
    ensures |Join(sep, parts)| == Offset(sep, parts, |parts| - 1) + |parts[|parts| - 1]|
    decreases |parts|
  {
    var n := |parts|;
    if n > 1 {
      JoinLength(sep, parts[..n - 1]);
      OffsetPrefix(sep, parts, n - 1, n - 2);
    }
  }

  /** Part i of `sep.join(parts)` sits at Offset(i). */
  lemma {:induction false} JoinPartAt(sep: string, parts: seq<string>, i: nat)
    requires i < |parts|
    ensures HasAt(Join(sep, parts), Offset(sep, parts, i), parts[i])
    decreases |parts|
  {
    var n := |parts|;
    if n == 1 {
      assert Join(sep, parts)[0..|parts[0]|] == parts[0];
    } else {
      var init := parts[..n - 1];
      var j := Join(sep, init);
      assert Join(sep, parts) == j + (sep + parts[n - 1]);
      if i < n - 1 {
        JoinPartAt(sep, init, i);
        OffsetPrefix(sep, parts, n - 1, i);
        HasAtExtend(j, sep + parts[n - 1], Offset(sep, parts, i), parts[i]);
      } else {
        JoinLength(sep, init);
        OffsetPrefix(sep, parts, n - 1, n - 2);
        assert HasAt(parts[n - 1], 0, parts[n - 1]);
        HasAtShift(j + sep, parts[n - 1], 0, parts[n - 1]);
      }
    }
  }

  /** A separator follows every part but the last. */
  lemma {:induction false} JoinSepAt(sep: string, parts: seq<string>, i: nat)
    requires i + 1 < |parts|
    ensures HasAt(Join(sep, parts), Offset(sep, parts, i) + |parts[i]|, sep)
    decreases |parts|
  {
    var n := |parts|;
    if i < n - 2 {
      var init := parts[..n - 1];
      var j := Join(sep, init);
      assert Join(sep, parts) == j + (sep + parts[n - 1]);
      JoinSepAt(sep, init, i);
      OffsetPrefix(sep, parts, n - 1, i);
      HasAtExtend(j, sep + parts[n - 1], Offset(sep, parts, i) + |parts[i]|, sep);
    } else {
      JoinSepLast(sep, parts);
    }
  }

  /** The separator before the last part. */
  lemma JoinSepLast(sep: string, parts: seq<string>)
    requires |parts| >= 2
    ensures HasAt(Join(sep, parts), Offset(sep, parts, |parts| - 2) + |parts[|parts| - 2]|, sep)
  {
    var n := |parts|;
    var init := parts[..n - 1];
    var j := Join(sep, init);
    JoinLength(sep, init);
    OffsetPrefix(sep, parts, n - 1, n - 2);
    assert HasAt(sep, 0, sep);
    HasAtWithin(j, sep, parts[n - 1], 0, sep);
  }

  /** Appending one part extends the joined text, so an earlier join is a prefix of a later one. */
  lemma JoinAppend(sep: string, parts: seq<string>, x: string)
    requires |parts| > 0
    ensures Join(sep, parts + [x]) == Join(sep, parts) + sep + x
  {
    assert (parts + [x])[..|parts|] == parts;
  }

  function DigitChar(d: nat): char
    requires d < 10
  {
    ('0' as int + d) as char
  }

  /** `str(n)` for a natural number: its decimal digits. */
  function NatToString(n: nat): (r: string)
    ensures |r| >= 1
    ensures forall i :: 0 <= i < |r| ==> '0' <= r[i] <= '9'
    decreases n
  {
    if n < 10 then [DigitChar(n)] else NatToString(n / 10) + [DigitChar(n % 10)]
  }

  /** The value of a string of decimal digits (`int(s)`). */
  function DecimalValue(s: string): nat
    requires forall i :: 0 <= i < |s| ==> '0' <= s[i] <= '9'
  {
    if s == [] then 0
    else 10 * DecimalValue(s[..|s| - 1]) + (s[|s| - 1] as int - '0' as int)
  }

  /** `int(str(n)) == n`, and `str(n)` has no leading zero. */
  lemma {:induction false} NatToStringRoundTrip(n: nat)
    ensures DecimalValue(NatToString(n)) == n
    ensures |NatToString(n)| > 1 ==> NatToString(n)[0] != '0'
    decreases n
  {
    if n >= 10 {
      NatToStringRoundTrip(n / 10);
      var r := NatToString(n);
      assert r[..|r| - 1] == NatToString(n / 10);
    }
  }
}
