/** String primitives used by the feature extractor: the regular-expression
    character classes, Python's `str.lower`, `str.strip`, `str.split`,
    `str.count`, the `in` operator on strings and `re.findall` of a `[...]+`
    class. */
module Text {

  // ---------------------------------------------------------------------------
  // Character classes

  /** `[a-zA-Z]` */
  predicate IsAsciiLetter(c: char) {
    'a' <= c <= 'z' || 'A' <= c <= 'Z'
  }

  /** `[0-9]`, and `\d` restricted to ASCII */
  predicate IsAsciiDigit(c: char) {
    '0' <= c <= '9'
  }

  /** `[0-9a-fA-F]` */
  predicate IsHexDigit(c: char) {
    IsAsciiDigit(c) || 'a' <= c <= 'f' || 'A' <= c <= 'F'
  }

  /** `\w` restricted to ASCII */
  predicate IsWordChar(c: char) {
    IsAsciiLetter(c) || IsAsciiDigit(c) || c == '_'
  }

  /** `[-_@!$*+]` */
  predicate IsOtherSpecial(c: char) {
    c == '-' || c == '_' || c == '@' || c == '!' || c == '$' || c == '*' || c == '+'
  }

  /** The characters for which Python's `str.isspace` holds. */
  predicate IsSpace(c: char) {
    || '\t' <= c <= '\r' || '\U{1C}' <= c <= ' '
    || c == '\U{85}' || c == '\U{A0}' || c == '\U{1680}'
    || '\U{2000}' <= c <= '\U{200A}' || c == '\U{2028}' || c == '\U{2029}'
    || c == '\U{202F}' || c == '\U{205F}' || c == '\U{3000}'
  }

  // ---------------------------------------------------------------------------
  // Case, prefixes, stripping

  function LowerChar(c: char): char {
    if 'A' <= c <= 'Z' then (c as int + 32) as char else c
  }

  /** `str.lower`, on ASCII letters */
  function Lower(s: string): string {
    seq(|s|, i requires 0 <= i < |s| => LowerChar(s[i]))
  }

  /** `str.startswith` */
  predicate StartsWith(s: string, prefix: string) {
    |prefix| <= |s| && s[..|prefix|] == prefix
  }

  function TrimStart(s: string): string
    decreases |s|
  {
    if s != [] && IsSpace(s[0]) then TrimStart(s[1..]) else s
  }

  function TrimEnd(s: string): string
    decreases |s|
  {
    if s != [] && IsSpace(s[|s| - 1]) then TrimEnd(s[..|s| - 1]) else s
  }

  /** `str.strip()` with no argument */
  function Strip(s: string): string {
    TrimEnd(TrimStart(s))
  }

  // ---------------------------------------------------------------------------
  // Substrings: `t in s`, and `s.count(t)`

  predicate OccursAt(s: string, t: string, i: nat) {
    i + |t| <= |s| && s[i..i + |t|] == t
  }

  /** Python's `t in s` */
  predicate Contains(s: string, t: string)
    decreases |s|
  {
    StartsWith(s, t) || (s != [] && Contains(s[1..], t))
  }

  lemma {:induction false} ContainsIffOccurs(s: string, t: string)
    ensures Contains(s, t) <==> exists i: nat :: OccursAt(s, t, i)
    decreases |s|
  {
    if s != [] {
      ContainsIffOccurs(s[1..], t);
      if StartsWith(s, t) {
        assert OccursAt(s, t, 0);
      }
      if Contains(s[1..], t) {
        var i: nat :| OccursAt(s[1..], t, i);
        assert s[i + 1..i + 1 + |t|] == s[1..][i..i + |t|];
        assert OccursAt(s, t, i + 1);
      }
      if i: nat :| OccursAt(s, t, i) {
        if i > 0 {
          assert s[1..][i - 1..i - 1 + |t|] == s[i..i + |t|];
          assert OccursAt(s[1..], t, i - 1);
        }
      }
    } else if t == [] {
      assert OccursAt(s, t, 0);
    }
  }

  /** A substring of a substring is a substring. */
  lemma ContainsTransitive(s: string, t: string, u: string)
    requires Contains(s, t) && Contains(t, u)
    ensures Contains(s, u)
  {
    ContainsIffOccurs(s, t);
    ContainsIffOccurs(t, u);
    var i: nat :| OccursAt(s, t, i);
    var j: nat :| OccursAt(t, u, j);
    assert forall m :: 0 <= m < |u| ==> s[i + j + m] == t[j + m] == u[m];
    assert s[i + j..i + j + |u|] == u;
    assert OccursAt(s, u, i + j);
    ContainsIffOccurs(s, u);
  }

  /** Python's `s.count(t)` for a non-empty `t`: non-overlapping occurrences,
      scanned from the left. */
  function CountOccurrences(s: string, t: string): (n: nat)
    requires t != []
    ensures n * |t| <= |s|
    decreases |s|
  {
    if |s| < |t| then 0
    else if StartsWith(s, t) then
      var rest := CountOccurrences(s[|t|..], t);
      assert (1 + rest) * |t| == |t| + rest * |t|;
      1 + rest
    else CountOccurrences(s[1..], t)
  }

  /** `s.count(t) > 0` exactly when `t in s`. */
  lemma {:induction false} CountOccurrencesPositive(s: string, t: string)
    requires t != []
    ensures CountOccurrences(s, t) > 0 <==> Contains(s, t)
    decreases |s|
  {
    if |s| < |t| {
      ContainsIffOccurs(s, t);
    } else if !StartsWith(s, t) {
      CountOccurrencesPositive(s[1..], t);
    }
  }

  // ---------------------------------------------------------------------------
  // Counting characters

  /** `s.count(c)` for one character */
  function Count(s: string, c: char): (n: nat)
    ensures n <= |s|
  {
    if s == [] then 0 else (if s[0] == c then 1 else 0) + Count(s[1..], c)
  }

  /** `len(re.findall('[...]', s))` for a one-character class */
  function CountWhere(s: string, p: char -> bool): (n: nat)
    ensures n <= |s|
  {
    if s == [] then 0 else (if p(s[0]) then 1 else 0) + CountWhere(s[1..], p)
  }

  /** Letters, digits, `=`, `?`, `&` and the other specials are disjoint
      classes, so their counts add up to at most the length. */
  lemma {:induction false} ClassCountsBounded(s: string)
    ensures CountWhere(s, IsAsciiLetter) + CountWhere(s, IsAsciiDigit)
            + Count(s, '=') + Count(s, '?') + Count(s, '&')
            + CountWhere(s, IsOtherSpecial) <= |s|
  {
    if s != [] {
      ClassCountsBounded(s[1..]);
    }
  }

  // ---------------------------------------------------------------------------
  // `str.split(sep)` and its inverse `sep.join(parts)`

  /** Python's `s.split(sep)` for a one-character separator. */
  function Split(s: string, sep: char): (parts: seq<string>)
    ensures |parts| >= 1
  {
    if s == [] then [[]]
    else
      var rest := Split(s[1..], sep);
      if s[0] == sep then [[]] + rest
      else [[s[0]] + rest[0]] + rest[1..]
  }

  /** No part contains the separator, and there is one part more than there
      are separators. */
  lemma {:induction false} SplitParts(s: string, sep: char)
    ensures |Split(s, sep)| == Count(s, sep) + 1
    ensures forall i :: 0 <= i < |Split(s, sep)| ==> sep !in Split(s, sep)[i]
  {
    if s != [] {
      SplitParts(s[1..], sep);
    }
  }

  /** The position of the first `c` in `s`. */
  function IndexOf(s: string, c: char): (k: nat)
    requires c in s
    ensures k < |s| && s[k] == c && c !in s[..k]
  {
    if s[0] == c then 0
    else
      var k := 1 + IndexOf(s[1..], c);
      assert s[..k] == [s[0]] + s[1..][..k - 1];
      k
  }

  /** When `s[k]` is the first separator, `Split` cuts there. */
  lemma {:induction false} SplitAtFirst(s: string, sep: char, k: nat)
    requires k < |s| && s[k] == sep && sep !in s[..k]
    ensures Split(s, sep) == [s[..k]] + Split(s[k + 1..], sep)
  {
    if k > 0 {
      assert s[1..][..k - 1] == s[1..k];
      assert s[1..][k..] == s[k + 1..];
      SplitAtFirst(s[1..], sep, k - 1);
      assert [s[0]] + s[1..k] == s[..k];
    }
  }

  /** Without a separator there is one part, the whole string. */
  lemma {:induction false} SplitWithoutSeparator(s: string, sep: char)
    requires sep !in s
    ensures Split(s, sep) == [s]
  {
    if s != [] {
      SplitWithoutSeparator(s[1..], sep);
      assert [s[0]] + s[1..] == s;
    }
  }

  // ---------------------------------------------------------------------------
  // Maximal runs: `re.findall('[...]+', s)`

  /** Length of the longest prefix of `s` whose characters all satisfy `p`. */
  function LeadingRun(s: string, p: char -> bool): (k: nat)
    ensures k <= |s|
    ensures forall j :: 0 <= j < k ==> p(s[j])
    ensures k < |s| ==> !p(s[k])
  {
    if s != [] && p(s[0]) then 1 + LeadingRun(s[1..], p) else 0
  }

  /** The maximal runs of `p`-characters, left to right, as `re.findall`
      returns them for the pattern `[...]+`. */
  function Runs(s: string, p: char -> bool): seq<string>
    decreases |s|
  {
    if s == [] then []
    else if !p(s[0]) then Runs(s[1..], p)
    else
      var k := LeadingRun(s, p);
      [s[..k]] + Runs(s[k..], p)
  }

  /** Every run is a non-empty block of `s` made only of `p`-characters. */
  lemma {:induction false} RunsAreBlocks(s: string, p: char -> bool, r: string)
    requires r in Runs(s, p)
    ensures r != [] && Contains(s, r)
    ensures forall j :: 0 <= j < |r| ==> p(r[j])
    decreases |s|
  {
    if s != [] {
      if !p(s[0]) {
        RunsAreBlocks(s[1..], p, r);
        assert Contains(s, r);
      } else {
        var k := LeadingRun(s, p);
        if r == s[..k] {
          assert StartsWith(s, r);
        } else {
          RunsAreBlocks(s[k..], p, r);
          ContainsIffOccurs(s[k..], r);
          var i: nat :| OccursAt(s[k..], r, i);
          assert s[k + i..k + i + |r|] == s[k..][i..i + |r|];
          assert OccursAt(s, r, k + i);
          ContainsIffOccurs(s, r);
        }
      }
    }
  }

  /** `max(len(x) for x in xs)`, 0 for an empty list. */
  function MaxLength(xs: seq<string>): (m: nat)
    ensures forall i :: 0 <= i < |xs| ==> |xs[i]| <= m
    ensures xs == [] ==> m == 0
    ensures xs != [] ==> exists i :: 0 <= i < |xs| && |xs[i]| == m
  {
    if xs == [] then 0
    else
      var rest := MaxLength(xs[1..]);
      if |xs[0]| >= rest then |xs[0]| else rest
  }

  /** Any block of `p`-characters is no longer than the longest run. */
  lemma {:induction false} BlockWithinLongestRun(s: string, p: char -> bool, i: nat, j: nat)
    requires i <= j <= |s|
    requires forall k :: i <= k < j ==> p(s[k])
    ensures j - i <= MaxLength(Runs(s, p))
    decreases |s|
  {
    if i < j {
      if !p(s[0]) {
        assert i > 0;
        BlockWithinLongestRun(s[1..], p, i - 1, j - 1);
      } else {
        var k := LeadingRun(s, p);
        var runs := Runs(s, p);
        assert runs == [s[..k]] + Runs(s[k..], p);
        if i < k {
          assert j <= k;
          assert |runs[0]| == k;
        } else {
          BlockWithinLongestRun(s[k..], p, i - k, j - k);
          var rest := Runs(s[k..], p);
          if rest != [] {
            var m :| 0 <= m < |rest| && |rest[m]| == MaxLength(rest);
            assert runs[m + 1] == rest[m];
          }
        }
      }
    }
  }
}
