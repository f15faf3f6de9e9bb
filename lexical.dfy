/** Lexical and domain statistics of a URL (api/app.py:48-83): pure functions
    of the URL text, of what `urlparse` returns for it and of the
    subdomain/domain/suffix triple that `tldextract` returns. */
module Lexical {
  import opened Wrappers
  import opened Text
  import opened Schema

  /** The parts of `urlparse(u)` the extractor reads. */
  datatype SplitUrl = SplitUrl(scheme: string, netloc: string)

  /** `urlparse` itself, which the model does not look inside; `None` when it
      raises `ValueError`. */
  type UrlParser = string -> Option<SplitUrl>

  /** `tldextract.extract(u)`: the public-suffix split of the host. */
  datatype DomainInfo = DomainInfo(subdomain: string, domain: string, suffix: string)

  /** The URL under analysis with what the two parsers made of it. */
  datatype Target = Target(url: string, parts: SplitUrl, info: DomainInfo)

  /** `domain_info.domain + '.' + domain_info.suffix` (line 50) */
  function RegisteredDomain(d: DomainInfo): string {
    d.domain + "." + d.suffix
  }

  function Flag(b: bool): real {
    if b then 1.0 else 0.0
  }

  /** `n / d if d > 0 else 0`, in exact arithmetic. */
  function Ratio(n: nat, d: nat): (r: real)
    ensures d == 0 ==> r == 0.0
    ensures n <= d ==> 0.0 <= r <= 1.0
  {
    if d > 0 then n as real / d as real else 0.0
  }

  /** A ratio with a positive denominator is 1 exactly when both counts agree. */
  lemma RatioIsOne(n: nat, d: nat)
    requires d > 0
    ensures Ratio(n, d) == 1.0 <==> n == d
  {
    assert Ratio(n, d) * d as real == n as real;
  }

  // ---------------------------------------------------------------------------
  // `%XX` escapes: re.findall(r'%[0-9a-fA-F]{2}', url)

  predicate EscapeAt(s: string, i: nat) {
    i + 3 <= |s| && s[i] == '%' && IsHexDigit(s[i + 1]) && IsHexDigit(s[i + 2])
  }

  /** The number of matches `re.findall` reports: the scan resumes after each
      match, so matches never overlap. */
  function CountEscapes(s: string): (n: nat)
    ensures 3 * n <= |s|
    decreases |s|
  {
    if |s| < 3 then 0
    else if EscapeAt(s, 0) then 1 + CountEscapes(s[3..])
    else CountEscapes(s[1..])
  }

  /** Some escape is found exactly when there is an escape somewhere. */
  lemma {:induction false} CountEscapesPositive(s: string)
    ensures CountEscapes(s) > 0 <==> exists i: nat :: EscapeAt(s, i)
    decreases |s|
  {
    if |s| >= 3 {
      if EscapeAt(s, 0) {
      } else {
        CountEscapesPositive(s[1..]);
        if i: nat :| EscapeAt(s[1..], i) {
          assert EscapeAt(s, i + 1);
        }
        if i: nat :| EscapeAt(s, i) {
          assert i > 0;
          assert EscapeAt(s[1..], i - 1);
        }
      }
    } else {
      if i: nat :| EscapeAt(s, i) {
        assert false;
      }
    }
  }

  // ---------------------------------------------------------------------------
  // The longest run of letters (line 58)

  function LongestLetterRun(url: string): nat {
    MaxLength(Runs(url, IsAsciiLetter))
  }

  predicate LetterBlock(s: string, i: nat, j: nat) {
    i <= j <= |s| && forall k :: i <= k < j ==> IsAsciiLetter(s[k])
  }

  /** The longest match of `[a-zA-Z]+` is the longest block of letters. */
  lemma LongestLetterRunIsMaximum(url: string)
    ensures LongestLetterRun(url) <= |url|
    ensures forall i: nat, j: nat :: LetterBlock(url, i, j) ==> j - i <= LongestLetterRun(url)
    ensures exists i: nat, j: nat :: LetterBlock(url, i, j) && j - i == LongestLetterRun(url)
  {
    var runs := Runs(url, IsAsciiLetter);
    var m := LongestLetterRun(url);
    forall i: nat, j: nat | LetterBlock(url, i, j)
      ensures j - i <= m
    {
      BlockWithinLongestRun(url, IsAsciiLetter, i, j);
    }
    if runs == [] {
      assert LetterBlock(url, 0, 0) && 0 - 0 == m;
    } else {
      var r :| 0 <= r < |runs| && |runs[r]| == m;
      RunsAreBlocks(url, IsAsciiLetter, runs[r]);
      ContainsIffOccurs(url, runs[r]);
      var i: nat :| OccursAt(url, runs[r], i);
      assert forall k :: i <= k < i + m ==> url[k] == runs[r][k - i];
      assert LetterBlock(url, i, i + m) && (i + m) - i == m;
    }
  }

  // ---------------------------------------------------------------------------
  // Subdomains (line 62)

  /** `len(subdomain.split('.')) if subdomain else 0` */
  function SubdomainCount(subdomain: string): nat {
    if subdomain != "" then |Split(subdomain, '.')| else 0
  }

  lemma SubdomainCountIsLabels(subdomain: string)
    ensures SubdomainCount(subdomain) == 0 <==> subdomain == ""
    ensures subdomain != "" ==> SubdomainCount(subdomain) == Count(subdomain, '.') + 1
  {
    SplitParts(subdomain, '.');
  }

  // ---------------------------------------------------------------------------
  // The dotted-quad test: re.match(r'^(\d{1,3}\.){3}\d{1,3}$', netloc) (lines 55-56)

  /** The regular expression, group by group. `\d{1,3}` can only stop at a
      non-digit, so the matcher takes the whole leading run of digits; Python's
      `$` also matches just before a final newline. */
  predicate MatchDotted(s: string, dots: nat)
    decreases dots
  {
    var k := LeadingRun(s, IsAsciiDigit);
    1 <= k <= 3 &&
    if dots == 0 then k == |s| || (k + 1 == |s| && s[k] == '\n')
    else k < |s| && s[k] == '.' && MatchDotted(s[k + 1..], dots - 1)
  }

  predicate IsDomainIPMatch(netloc: string) {
    MatchDotted(netloc, 3)
  }

  predicate IsOctetText(g: string) {
    1 <= |g| <= 3 && forall j :: 0 <= j < |g| ==> IsAsciiDigit(g[j])
  }

  predicate AllOctets(groups: seq<string>) {
    forall i :: 0 <= i < |groups| ==> IsOctetText(groups[i])
  }

  /** Exactly four `.`-separated groups of one to three digits. */
  predicate DottedQuad(s: string) {
    |Split(s, '.')| == 4 && AllOctets(Split(s, '.'))
  }

  lemma {:induction false} MatchDottedIffGroups(s: string, dots: nat)
    requires '\n' !in s
    ensures MatchDotted(s, dots) <==> |Split(s, '.')| == dots + 1 && AllOctets(Split(s, '.'))
    decreases dots
  {
    if '.' !in s {
      MatchDottedLastGroup(s, dots);
    } else if dots != 0 {
      var d := IndexOf(s, '.');
      assert '\n' !in s[d + 1..];
      MatchDottedIffGroups(s[d + 1..], dots - 1);
      MatchDottedStep(s, dots, d);
    } else {
      var d := IndexOf(s, '.');
      SplitAtFirst(s, '.', d);
      SplitParts(s, '.');
    }
  }

  /** `MatchDottedIffGroups` on a string without a `.`: a single group. */
  lemma MatchDottedLastGroup(s: string, dots: nat)
    requires '\n' !in s && '.' !in s
    ensures MatchDotted(s, dots) <==> |Split(s, '.')| == dots + 1 && AllOctets(Split(s, '.'))
  {
    var k := LeadingRun(s, IsAsciiDigit);
    SplitWithoutSeparator(s, '.');
    assert Split(s, '.') == [s];
    if k < |s| {
      assert s[k] in s;
    }
    if AllOctets(Split(s, '.')) {
      assert IsOctetText(Split(s, '.')[0]);
      assert k == |s|;
    }
    if MatchDotted(s, dots) {
      assert k == |s|;
    }
  }

  /** The step of `MatchDottedIffGroups` over the first group (up to the `.`
      at `d`), given the equivalence for the rest of the string. */
  lemma MatchDottedStep(s: string, dots: nat, d: nat)
    requires '\n' !in s && dots != 0
    requires '.' in s && d == IndexOf(s, '.')
    requires MatchDotted(s[d + 1..], dots - 1) <==>
               |Split(s[d + 1..], '.')| == dots && AllOctets(Split(s[d + 1..], '.'))
    ensures MatchDotted(s, dots) <==> |Split(s, '.')| == dots + 1 && AllOctets(Split(s, '.'))
  {
    SplitAtFirst(s, '.', d);
    if MatchDotted(s, dots) {
      GroupOfMatch(s, dots, d);
      OctetsAfterGroup(s, d);
    }
    if |Split(s, '.')| == dots + 1 && AllOctets(Split(s, '.')) {
      GroupBeforeOctets(s, d);
      MatchDottedGroup(s, d, dots);
    }
  }

  /** A match takes the digits up to the first `.` as its first group. */
  lemma GroupOfMatch(s: string, dots: nat, d: nat)
    requires dots != 0 && MatchDotted(s, dots)
    requires '.' in s && d == IndexOf(s, '.')
    ensures IsOctetText(s[..d]) && MatchDotted(s[d + 1..], dots - 1)
  {
    var k := LeadingRun(s, IsAsciiDigit);
    assert s[k] == '.';
    assert k == d;
    assert forall j :: 0 <= j < d ==> s[..d][j] == s[j];
  }

  /** A first group of digits and octets after it make octets. */
  lemma OctetsAfterGroup(s: string, d: nat)
    requires '.' in s && d == IndexOf(s, '.')
    requires IsOctetText(s[..d]) && AllOctets(Split(s[d + 1..], '.'))
    ensures AllOctets(Split(s, '.'))
  {
    SplitAtFirst(s, '.', d);
  }

  /** Octets split off their first group, which the matcher takes whole. */
  lemma GroupBeforeOctets(s: string, d: nat)
    requires '.' in s && d == IndexOf(s, '.')
    requires AllOctets(Split(s, '.'))
    ensures LeadingRun(s, IsAsciiDigit) == d && 1 <= d <= 3
    ensures AllOctets(Split(s[d + 1..], '.'))
  {
    SplitAtFirst(s, '.', d);
    var rest := s[d + 1..];
    assert Split(s, '.')[0] == s[..d];
    assert IsOctetText(s[..d]);
    forall i | 0 <= i < |Split(rest, '.')|
      ensures IsOctetText(Split(rest, '.')[i])
    {
      assert Split(rest, '.')[i] == Split(s, '.')[i + 1];
    }
  }

  /** On a newline-free netloc the pattern accepts exactly the dotted quads;
      a port, a user part or a fifth group rules it out. */
  lemma IsDomainIPIffDottedQuad(netloc: string)
    requires '\n' !in netloc
    ensures IsDomainIPMatch(netloc) <==> DottedQuad(netloc)
  {
    MatchDottedIffGroups(netloc, 3);
  }

  // ---------------------------------------------------------------------------
  // The 19 lexical columns (lines 52-83)

  /** The sum `all_specials` of line 80. */
  function SpecialCount(url: string): nat {
    Count(url, '=') + Count(url, '?') + Count(url, '&') + CountWhere(url, IsOtherSpecial)
  }

  /** The value the extractor stores for a lexical column; 0 for the others. */
  function LexicalValue(f: Feature, t: Target): real {
    var url := t.url;
    match f
    case URLLength => |url| as real
    case DomainLength => |RegisteredDomain(t.info)| as real
    case IsDomainIP => Flag(IsDomainIPMatch(t.parts.netloc))
    case CharContinuationRate => Ratio(LongestLetterRun(url), |url|)
    case TLDLength => |t.info.suffix| as real
    case NoOfSubDomain => SubdomainCount(t.info.subdomain) as real
    case HasObfuscation => Flag(CountEscapes(url) > 0)
    case NoOfObfuscatedChar => CountEscapes(url) as real
    case ObfuscationRatio => Ratio(CountEscapes(url), |url|)
    case NoOfLettersInURL => CountWhere(url, IsAsciiLetter) as real
    case LetterRatioInURL => Ratio(CountWhere(url, IsAsciiLetter), |url|)
    case NoOfDegitsInURL => CountWhere(url, IsAsciiDigit) as real
    case DegitRatioInURL => Ratio(CountWhere(url, IsAsciiDigit), |url|)
    case NoOfEqualsInURL => Count(url, '=') as real
    case NoOfQMarkInURL => Count(url, '?') as real
    case NoOfAmpersandInURL => Count(url, '&') as real
    case NoOfOtherSpecialCharsInURL => CountWhere(url, IsOtherSpecial) as real
    case SpacialCharRatioInURL => Ratio(SpecialCount(url), |url|)
    case IsHTTPS => Flag(t.parts.scheme == "https")
    case _ => 0.0
  }

  /** Every ratio column is 0 for the empty URL. */
  lemma RatiosOfEmptyUrl(t: Target)
    requires t.url == ""
    ensures LexicalValue(URLLength, t) == 0.0
    ensures LexicalValue(CharContinuationRate, t) == 0.0
    ensures LexicalValue(ObfuscationRatio, t) == 0.0
    ensures LexicalValue(LetterRatioInURL, t) == 0.0
    ensures LexicalValue(DegitRatioInURL, t) == 0.0
    ensures LexicalValue(SpacialCharRatioInURL, t) == 0.0
  {
  }

  /** For a non-empty URL each ratio column is its count divided by
      `URLLength`: the obfuscation, letter and digit ratios. */
  lemma CountRatiosOfNonEmptyUrl(t: Target)
    requires t.url != ""
    ensures LexicalValue(URLLength, t) > 0.0
    ensures LexicalValue(ObfuscationRatio, t)
            == LexicalValue(NoOfObfuscatedChar, t) / LexicalValue(URLLength, t)
    ensures LexicalValue(LetterRatioInURL, t)
            == LexicalValue(NoOfLettersInURL, t) / LexicalValue(URLLength, t)
    ensures LexicalValue(DegitRatioInURL, t)
            == LexicalValue(NoOfDegitsInURL, t) / LexicalValue(URLLength, t)
  {
  }

  /** For a non-empty URL, the continuation rate is the longest letter run over
      `URLLength`, and the special-character ratio is the sum of the four
      special counts over `URLLength`. */
  lemma RunAndSpecialRatiosOfNonEmptyUrl(t: Target)
    requires t.url != ""
    ensures LexicalValue(CharContinuationRate, t)
            == LongestLetterRun(t.url) as real / LexicalValue(URLLength, t)
    ensures LexicalValue(SpacialCharRatioInURL, t)
            == (LexicalValue(NoOfEqualsInURL, t) + LexicalValue(NoOfQMarkInURL, t)
                + LexicalValue(NoOfAmpersandInURL, t) + LexicalValue(NoOfOtherSpecialCharsInURL, t))
               / LexicalValue(URLLength, t)
  {
  }

  /** Every ratio column lies in [0, 1]: each count is at most the length. */
  lemma RatiosInUnitInterval(t: Target)
    ensures 0.0 <= LexicalValue(CharContinuationRate, t) <= 1.0
    ensures 0.0 <= LexicalValue(ObfuscationRatio, t) <= 1.0
    ensures 0.0 <= LexicalValue(LetterRatioInURL, t) <= 1.0
    ensures 0.0 <= LexicalValue(DegitRatioInURL, t) <= 1.0
    ensures 0.0 <= LexicalValue(SpacialCharRatioInURL, t) <= 1.0
  {
    LongestLetterRunIsMaximum(t.url);
    ClassCountsBounded(t.url);
  }

  /** The character-class counts are disjoint, so they add up to at most
      `URLLength`. */
  lemma ClassCountsWithinLength(t: Target)
    ensures LexicalValue(NoOfLettersInURL, t) + LexicalValue(NoOfDegitsInURL, t)
            + LexicalValue(NoOfEqualsInURL, t) + LexicalValue(NoOfQMarkInURL, t)
            + LexicalValue(NoOfAmpersandInURL, t) + LexicalValue(NoOfOtherSpecialCharsInURL, t)
            <= LexicalValue(URLLength, t)
  {
    ClassCountsBounded(t.url);
  }

  /** `HasObfuscation` is 1 exactly when some `%XX` escape occurs, and the
      escapes, three characters each and never overlapping, fit in the URL. */
  lemma ObfuscationColumns(t: Target)
    ensures LexicalValue(HasObfuscation, t) == 1.0 <==> LexicalValue(NoOfObfuscatedChar, t) > 0.0
    ensures LexicalValue(HasObfuscation, t) == 1.0 <==> exists i: nat :: EscapeAt(t.url, i)
    ensures 3.0 * LexicalValue(NoOfObfuscatedChar, t) <= LexicalValue(URLLength, t)
  {
    CountEscapesPositive(t.url);
  }

  /** The domain columns: `DomainLength` is the registered label, a dot and the
      suffix; `NoOfSubDomain` counts the dot-separated labels of the subdomain;
      `IsDomainIP` is the dotted-quad test and `IsHTTPS` the exact scheme test. */
  lemma DomainColumns(t: Target)
    ensures LexicalValue(DomainLength, t) == (|t.info.domain| + 1) as real + LexicalValue(TLDLength, t)
    ensures LexicalValue(NoOfSubDomain, t) == 0.0 <==> t.info.subdomain == ""
    ensures t.info.subdomain != "" ==>
              LexicalValue(NoOfSubDomain, t) == (Count(t.info.subdomain, '.') + 1) as real
    ensures '\n' !in t.parts.netloc ==>
              (LexicalValue(IsDomainIP, t) == 1.0 <==> DottedQuad(t.parts.netloc))
    ensures LexicalValue(IsDomainIP, t) in {0.0, 1.0}
    ensures LexicalValue(IsHTTPS, t) == 1.0 <==> t.parts.scheme == "https"
  {
    SubdomainCountIsLabels(t.info.subdomain);
    if '\n' !in t.parts.netloc {
      IsDomainIPIffDottedQuad(t.parts.netloc);
    }
  }

  /** A bare domain has no subdomain; one label makes one. */
  lemma SubdomainExamples()
    ensures SubdomainCount("") == 0 && SubdomainCount("a") == 1
  {
  }

  /** A group of one to three digits followed by a `.` and a match of the
      remaining groups. */
  lemma MatchDottedGroup(s: string, k: nat, dots: nat)
    requires 1 <= k <= 3 && k < |s| && dots != 0
    requires forall j :: 0 <= j < k ==> IsAsciiDigit(s[j])
    requires s[k] == '.' && MatchDotted(s[k + 1..], dots - 1)
    ensures MatchDotted(s, dots)
  {
    assert LeadingRun(s, IsAsciiDigit) == k;
  }

  lemma IpExample()
    ensures IsDomainIPMatch("192.168.1.1")
  {
    var s := "192.168.1.1";
    assert LeadingRun(s[10..], IsAsciiDigit) == 1;
    assert s[8..][2..] == s[10..];
    MatchDottedGroup(s[8..], 1, 1);
    assert s[4..][4..] == s[8..];
    MatchDottedGroup(s[4..], 3, 2);
    MatchDottedGroup(s, 3, 3);
  }

  lemma HostNameExample()
    ensures !IsDomainIPMatch("example.com")
  {
  }

  lemma PortExample()
    ensures !IsDomainIPMatch("192.168.1.1:8080")
  {
  }
}
