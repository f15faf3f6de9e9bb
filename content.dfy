/** Content analysis over an already fetched and parsed page
    (api/app.py:92-163). The page is the record a parser hands over; `urlparse`
    is the `UrlParser` input, so each place where the analysis can raise is
    explicit. */
module Content {
  import opened Wrappers
  import opened Text
  import opened Lexical

  /** What the analysis reads from the response and from the BeautifulSoup
      tree. */
  datatype Page = Page(
    lines: seq<string>,                // str(soup).splitlines()
    title: Option<string>,             // soup.find('title').string (None: no tag, or no single string)
    hasFavicon: bool,                  // a <link> whose rel matches 'icon', any case
    hasViewport: bool,                 // <meta name="viewport">
    hasDescription: bool,              // <meta name="description">
    redirectUrls: seq<string>,         // [r.url for r in response.history]
    scriptBodies: seq<Option<string>>, // script.string for every <script>
    iframes: nat,                      // number of <iframe>
    formActions: seq<Option<string>>,  // form.get('action') for every <form>
    hasSubmit: bool,                   // <input type="submit"> or <button type="submit">
    hasHidden: bool,                   // <input type="hidden">
    hasPassword: bool,                 // <input type="password">
    text: string,                      // soup.get_text()
    images: nat,                       // number of <img>
    stylesheets: nat,                  // number of <link rel="stylesheet">
    anchorHrefs: seq<string>           // link['href'] for every <a> with an href
  )

  /** The primary GET (line 88). Its status code is carried but never read. */
  datatype FetchOutcome = FetchFailed | Fetched(status: int, page: Page)

  /** The GET of `/robots.txt` (line 108); `RobotsFailed` is any exception. */
  datatype RobotsOutcome = RobotsFailed | RobotsReply(status: int, body: string)

  // ---------------------------------------------------------------------------
  // Title and word-set similarity (lines 95-103)

  /** `title_tag and title_tag.string`: an empty string is false in Python. */
  predicate TitlePresent(p: Page) {
    p.title.Some? && p.title.value != ""
  }

  function TitleText(p: Page): string {
    if TitlePresent(p) then Strip(p.title.value) else ""
  }

  /** `set(re.findall(r'\w+', s.lower()))` */
  function Words(s: string): set<string> {
    set w | w in Runs(Lower(s), IsWordChar)
  }

  /** `len(a & b) / len(a | b) if a | b else 0` */
  function Jaccard(a: set<string>, b: set<string>): real {
    Ratio(|a * b|, |a + b|)
  }

  /** The similarity is a ratio in [0, 1]: 0 when the sets share no word
      (or are both empty), and 1 exactly when they are equal and non-empty. */
  lemma JaccardBounds(a: set<string>, b: set<string>)
    ensures a + b == {} ==> Jaccard(a, b) == 0.0
    ensures 0.0 <= Jaccard(a, b) <= 1.0
    ensures a == b && a != {} ==> Jaccard(a, b) == 1.0
    ensures Jaccard(a, b) == 1.0 ==> a == b && a != {}
    ensures a * b == {} ==> Jaccard(a, b) == 0.0
  {
    IntersectionWithinUnion(a, b);
    assert a == b ==> a * b == a + b;
    if a + b != {} {
      RatioIsOne(|a * b|, |a + b|);
    }
  }

  /** The intersection is never larger than the union, and is as large only
      when the two sets are equal. */
  lemma IntersectionWithinUnion(a: set<string>, b: set<string>)
    ensures |a * b| <= |a + b|
    ensures |a * b| == |a + b| ==> a == b
  {
    var i, u := a * b, a + b;
    assert u == i + (u - i);
    assert |u| == |i| + |u - i|;
    if |i| == |u| {
      assert u - i == {};
      assert forall x :: x in a ==> x in b;
      assert forall x :: x in b ==> x in a;
    }
  }

  function DomainTitleScore(t: Target, p: Page): real {
    Jaccard(Words(RegisteredDomain(t.info)), Words(TitleText(p)))
  }

  function UrlTitleScore(t: Target, p: Page): real {
    Jaccard(Words(t.url), Words(TitleText(p)))
  }

  // ---------------------------------------------------------------------------
  // robots.txt (line 109)

  predicate RobotsDisallows(r: RobotsOutcome) {
    r.RobotsReply? && r.status == 200 && Contains(r.body, "Disallow: /")
  }

  // ---------------------------------------------------------------------------
  // Self redirects (line 115): the comprehension parses every history URL.

  /** `len([r for r in history if urlparse(r.url).netloc == netloc])`, or
      `None` when one of the `urlparse` calls raises. */
  function SelfRedirects(urls: seq<string>, netloc: string, parse: UrlParser): (r: Option<nat>)
    ensures r.None? <==> exists j :: 0 <= j < |urls| && parse(urls[j]).None?
    ensures r.Some? ==> r.value <= |urls|
  {
    if urls == [] then Some(0)
    else
      var rest := SelfRedirects(urls[1..], netloc, parse);
      match parse(urls[0])
      case None => None
      case Some(u) =>
        if rest.None? then None
        else Some(rest.value + if u.netloc == netloc then 1 else 0)
  }

  // ---------------------------------------------------------------------------
  // Popups (lines 119-124)

  /** `script.string.lower().count('window.open') if script.string else 0` */
  function PopupsIn(body: Option<string>): nat {
    if body.Some? && body.value != "" then CountOccurrences(Lower(body.value), "window.open") else 0
  }

  function SumPopups(bodies: seq<Option<string>>): nat {
    if bodies == [] then 0 else SumPopups(bodies[..|bodies| - 1]) + PopupsIn(bodies[|bodies| - 1])
  }

  method CountPopups(bodies: seq<Option<string>>) returns (count: nat)
    ensures count == SumPopups(bodies)
  {
    count := 0;
    for i := 0 to |bodies|
      invariant count == SumPopups(bodies[..i])
    {
      assert bodies[..i + 1][..i] == bodies[..i];
      if bodies[i].Some? && bodies[i].value != "" {
        count := count + CountOccurrences(Lower(bodies[i].value), "window.open");
      }
    }
    assert bodies[..|bodies|] == bodies;
  }

  /** The script bodies add up independently: splitting the list anywhere
      splits the total. */
  lemma {:induction false} SumPopupsAppend(a: seq<Option<string>>, b: seq<Option<string>>)
    ensures SumPopups(a + b) == SumPopups(a) + SumPopups(b)
    decreases |b|
  {
    if b != [] {
      var b' := b[..|b| - 1];
      assert (a + b)[..|a + b| - 1] == a + b';
      SumPopupsAppend(a, b');
    } else {
      assert a + b == a;
    }
  }

  /** Some popup is counted exactly when some non-empty script body mentions
      `window.open`, in any case. */
  lemma {:induction false} SumPopupsPositive(bodies: seq<Option<string>>)
    ensures SumPopups(bodies) > 0 <==>
            exists j :: 0 <= j < |bodies| && bodies[j].Some? && Contains(Lower(bodies[j].value), "window.open")
  {
    if bodies != [] {
      var last := bodies[|bodies| - 1];
      var init := bodies[..|bodies| - 1];
      SumPopupsPositive(init);
      if last.Some? {
        CountOccurrencesPositive(Lower(last.value), "window.open");
        if last.value == "" {
          assert !Contains(Lower(last.value), "window.open");
        }
      }
      if j :| 0 <= j < |bodies| && bodies[j].Some? && Contains(Lower(bodies[j].value), "window.open") {
        if j < |bodies| - 1 {
          assert init[j] == bodies[j];
        }
      }
      if j :| 0 <= j < |init| && init[j].Some? && Contains(Lower(init[j].value), "window.open") {
        assert bodies[j] == init[j];
      }
    }
  }

  // ---------------------------------------------------------------------------
  // Externally submitted forms (lines 128-134)

  datatype FormScan = NoExternalForm | ExternalForm | FormActionUnparsable

  /** `form.get('action', '').strip()` */
  function StrippedAction(action: Option<string>): string {
    Strip(action.GetOr(""))
  }

  /** The first two tests of line 132, which decide whether `urlparse` runs. */
  predicate IsTargetAction(a: string) {
    a != "" && !StartsWith(a, "#")
  }

  /** The whole test of line 132 holds. */
  predicate SubmitsElsewhere(action: Option<string>, netloc: string, parse: UrlParser) {
    var a := StrippedAction(action);
    IsTargetAction(a) && parse(a).Some? && parse(a).value.netloc != "" && parse(a).value.netloc != netloc
  }

  /** The `urlparse` of line 132 raises. */
  predicate ActionRaises(action: Option<string>, parse: UrlParser) {
    var a := StrippedAction(action);
    IsTargetAction(a) && parse(a).None?
  }

  /** The outcome of the loop: the first form that submits elsewhere or raises
      decides it. */
  function ScanForms(actions: seq<Option<string>>, netloc: string, parse: UrlParser): FormScan {
    if actions == [] then NoExternalForm
    else if ActionRaises(actions[0], parse) then FormActionUnparsable
    else if SubmitsElsewhere(actions[0], netloc, parse) then ExternalForm
    else ScanForms(actions[1..], netloc, parse)
  }

  method FindExternalForm(actions: seq<Option<string>>, netloc: string, parse: UrlParser)
    returns (r: FormScan)
    ensures r == ScanForms(actions, netloc, parse)
  {
    r := NoExternalForm;
    var i := 0;
    while i < |actions|
      invariant 0 <= i <= |actions|
      invariant ScanForms(actions[i..], netloc, parse) == ScanForms(actions, netloc, parse)
    {
      var action := Strip(actions[i].GetOr(""));
      if action != "" && !StartsWith(action, "#") {
        var parts := parse(action);
        if parts.None? {
          return FormActionUnparsable;
        }
        if parts.value.netloc !in ["", netloc] {
          r := ExternalForm;
          break;
        }
      }
      assert actions[i..][1..] == actions[i + 1..];
      i := i + 1;
    }
  }

  /** Form `j` submits elsewhere and no earlier form makes `urlparse` raise. */
  predicate ExternalFirstAt(actions: seq<Option<string>>, j: nat, netloc: string, parse: UrlParser) {
    j < |actions| && SubmitsElsewhere(actions[j], netloc, parse)
    && forall k :: 0 <= k < j ==> !ActionRaises(actions[k], parse)
  }

  /** Form `j` makes `urlparse` raise and no earlier form submits elsewhere. */
  predicate RaisesFirstAt(actions: seq<Option<string>>, j: nat, netloc: string, parse: UrlParser) {
    j < |actions| && ActionRaises(actions[j], parse)
    && forall k :: 0 <= k < j ==> !SubmitsElsewhere(actions[k], netloc, parse)
  }

  lemma ExternalFirstAtShift(actions: seq<Option<string>>, j: nat, netloc: string, parse: UrlParser)
    requires 0 < j < |actions|
    ensures ExternalFirstAt(actions, j, netloc, parse) <==>
            !ActionRaises(actions[0], parse) && ExternalFirstAt(actions[1..], j - 1, netloc, parse)
  {
    assert forall k :: 0 <= k < j - 1 ==> actions[1..][k] == actions[k + 1];
  }

  lemma RaisesFirstAtShift(actions: seq<Option<string>>, j: nat, netloc: string, parse: UrlParser)
    requires 0 < j < |actions|
    ensures RaisesFirstAt(actions, j, netloc, parse) <==>
            !SubmitsElsewhere(actions[0], netloc, parse) && RaisesFirstAt(actions[1..], j - 1, netloc, parse)
  {
    assert forall k :: 0 <= k < j - 1 ==> actions[1..][k] == actions[k + 1];
  }

  /** `HasExternalFormSubmit` becomes 1 exactly when some form submits to
      another host and no earlier form made `urlparse` raise. */
  lemma {:induction false} ScanFormsFindsExternal(actions: seq<Option<string>>, netloc: string, parse: UrlParser)
    ensures ScanForms(actions, netloc, parse) == ExternalForm <==>
            exists j: nat :: ExternalFirstAt(actions, j, netloc, parse)
  {
    if actions != [] {
      var rest := actions[1..];
      ScanFormsFindsExternal(rest, netloc, parse);
      if ScanForms(rest, netloc, parse) == ExternalForm && !ActionRaises(actions[0], parse) {
        var j: nat :| ExternalFirstAt(rest, j, netloc, parse);
        ExternalFirstAtShift(actions, j + 1, netloc, parse);
      }
      if j: nat :| ExternalFirstAt(actions, j, netloc, parse) {
        if j > 0 {
          ExternalFirstAtShift(actions, j, netloc, parse);
        }
      }
      if SubmitsElsewhere(actions[0], netloc, parse) && !ActionRaises(actions[0], parse) {
        assert ExternalFirstAt(actions, 0, netloc, parse);
      }
    }
  }

  /** The loop raises exactly when some form's action makes `urlparse` raise
      before any form submits elsewhere. */
  lemma {:induction false} ScanFormsRaises(actions: seq<Option<string>>, netloc: string, parse: UrlParser)
    ensures ScanForms(actions, netloc, parse) == FormActionUnparsable <==>
            exists j: nat :: RaisesFirstAt(actions, j, netloc, parse)
  {
    if actions != [] {
      var rest := actions[1..];
      ScanFormsRaises(rest, netloc, parse);
      if ScanForms(rest, netloc, parse) == FormActionUnparsable && !SubmitsElsewhere(actions[0], netloc, parse) {
        var j: nat :| RaisesFirstAt(rest, j, netloc, parse);
        RaisesFirstAtShift(actions, j + 1, netloc, parse);
      }
      if j: nat :| RaisesFirstAt(actions, j, netloc, parse) {
        if j > 0 {
          RaisesFirstAtShift(actions, j, netloc, parse);
        }
      }
      if ActionRaises(actions[0], parse) {
        assert RaisesFirstAt(actions, 0, netloc, parse);
      }
    }
  }

  /** Without any unparsable action, the flag is set exactly when some form
      submits elsewhere. */
  lemma ScanFormsWithoutErrors(actions: seq<Option<string>>, netloc: string, parse: UrlParser)
    requires forall j :: 0 <= j < |actions| ==> !ActionRaises(actions[j], parse)
    ensures ScanForms(actions, netloc, parse) == ExternalForm <==>
            exists j :: 0 <= j < |actions| && SubmitsElsewhere(actions[j], netloc, parse)
  {
    ScanFormsFindsExternal(actions, netloc, parse);
    if j :| 0 <= j < |actions| && SubmitsElsewhere(actions[j], netloc, parse) {
      assert ExternalFirstAt(actions, j, netloc, parse);
    }
  }

  // ---------------------------------------------------------------------------
  // Keyword flags (lines 136, 141-145)

  const BankWords: seq<string> := ["bank", "ng\U{E2}n h\U{E0}ng"]
  const PayWords: seq<string> := ["pay", "payment", "thanh to\U{E1}n"]
  const CryptoWords: seq<string> := ["crypto", "bitcoin", "ethereum", "coin"]
  const CopyrightWords: seq<string> := ["copyright", "\U{A9}"]
  const SocialDomains: seq<string> := ["facebook.com", "twitter.com", "instagram.com"]

  /** `any(word in text for word in words)` */
  predicate AnyWordIn(text: string, words: seq<string>) {
    exists i :: 0 <= i < |words| && Contains(text, words[i])
  }

  /** `soup.find('a', href=re.compile(r'facebook\.com|twitter\.com|instagram\.com'))`:
      a case-sensitive search in every href. */
  predicate LinksToSocialNet(hrefs: seq<string>) {
    exists j :: 0 <= j < |hrefs| && AnyWordIn(hrefs[j], SocialDomains)
  }

  /** 'payment' contains 'pay' and 'bitcoin' contains 'coin', so two of the
      listed words never change a flag. */
  lemma KeywordListsReduce(text: string)
    ensures AnyWordIn(text, PayWords) <==> Contains(text, "pay") || Contains(text, PayWords[2])
    ensures AnyWordIn(text, CryptoWords) <==>
            Contains(text, "crypto") || Contains(text, "ethereum") || Contains(text, "coin")
  {
    if Contains(text, "payment") {
      assert Contains("payment", "pay");
      ContainsTransitive(text, "payment", "pay");
    }
    if Contains(text, "bitcoin") {
      assert Contains("bitcoin", "coin") by {
        assert StartsWith("bitcoin"[3..], "coin");
        assert "bitcoin"[1..][1..][1..] == "bitcoin"[3..];
      }
      ContainsTransitive(text, "bitcoin", "coin");
    }
    assert PayWords[0] == "pay" && PayWords[1] == "payment";
    assert CryptoWords[0] == "crypto" && CryptoWords[1] == "bitcoin";
    assert CryptoWords[2] == "ethereum" && CryptoWords[3] == "coin";
    assert AnyWordIn(text, PayWords) ==> Contains(text, "pay") || Contains(text, PayWords[2]);
    assert Contains(text, "pay") ==> AnyWordIn(text, PayWords);
    assert Contains(text, PayWords[2]) ==> AnyWordIn(text, PayWords);
    assert Contains(text, "crypto") ==> AnyWordIn(text, CryptoWords);
    assert Contains(text, "ethereum") ==> AnyWordIn(text, CryptoWords);
    assert Contains(text, "coin") ==> AnyWordIn(text, CryptoWords);
  }

  // ---------------------------------------------------------------------------
  // Anchor classification (lines 151-163)

  datatype AnchorKind = EmptyRef | SelfRef | ExternalRef

  /** The bucket of one href; `None` when the `urlparse` of line 157 raises. */
  function Classify(href: string, netloc: string, parse: UrlParser): (k: Option<AnchorKind>)
    ensures k == Some(EmptyRef) <==> href == "" || StartsWith(href, "#") || StartsWith(href, "javascript:")
    ensures k.None? <==> !(href == "" || StartsWith(href, "#") || StartsWith(href, "javascript:")) && parse(href).None?
    ensures k == Some(SelfRef) ==> parse(href).Some? && parse(href).value.netloc in {"", netloc}
    ensures k == Some(ExternalRef) ==> parse(href).Some? && parse(href).value.netloc !in {"", netloc}
  {
    if href == "" || StartsWith(href, "#") || StartsWith(href, "javascript:") then Some(EmptyRef)
    else match parse(href)
      case None => None
      case Some(u) => if u.netloc == netloc || u.netloc == "" then Some(SelfRef) else Some(ExternalRef)
  }

  /** How many hrefs fall into bucket `kind`. */
  function CountKind(hrefs: seq<string>, kind: AnchorKind, netloc: string, parse: UrlParser): nat {
    if hrefs == [] then 0
    else CountKind(hrefs[..|hrefs| - 1], kind, netloc, parse)
         + if Classify(hrefs[|hrefs| - 1], netloc, parse) == Some(kind) then 1 else 0
  }

  predicate AnyUnparsableHref(hrefs: seq<string>, netloc: string, parse: UrlParser) {
    exists j :: 0 <= j < |hrefs| && Classify(hrefs[j], netloc, parse).None?
  }

  datatype AnchorCounts = AnchorCounts(selfRefs: nat, emptyRefs: nat, externalRefs: nat)

  /** The three counters after the loop, or `None` when the loop raises. */
  function AnchorTally(hrefs: seq<string>, netloc: string, parse: UrlParser): Option<AnchorCounts> {
    if AnyUnparsableHref(hrefs, netloc, parse) then None
    else Some(AnchorCounts(CountKind(hrefs, SelfRef, netloc, parse),
                           CountKind(hrefs, EmptyRef, netloc, parse),
                           CountKind(hrefs, ExternalRef, netloc, parse)))
  }

  method ClassifyAnchors(hrefs: seq<string>, netloc: string, parse: UrlParser)
    returns (r: Option<AnchorCounts>)
    ensures r == AnchorTally(hrefs, netloc, parse)
  {
    var selfRefs, emptyRefs, externalRefs := 0, 0, 0;
    for i := 0 to |hrefs|
      invariant !AnyUnparsableHref(hrefs[..i], netloc, parse)
      invariant selfRefs == CountKind(hrefs[..i], SelfRef, netloc, parse)
      invariant emptyRefs == CountKind(hrefs[..i], EmptyRef, netloc, parse)
      invariant externalRefs == CountKind(hrefs[..i], ExternalRef, netloc, parse)
    {
      var href := hrefs[i];
      assert hrefs[..i + 1][..i] == hrefs[..i];
      if href == "" || StartsWith(href, "#") || StartsWith(href, "javascript:") {
        emptyRefs := emptyRefs + 1;
      } else {
        var parts := parse(href);
        if parts.None? {
          assert Classify(hrefs[..|hrefs|][i], netloc, parse).None?;
          assert hrefs[..|hrefs|] == hrefs;
          return None;
        }
        if parts.value.netloc == netloc || parts.value.netloc == "" {
          selfRefs := selfRefs + 1;
        } else {
          externalRefs := externalRefs + 1;
        }
      }
      assert forall j :: 0 <= j < i ==> hrefs[..i + 1][j] == hrefs[..i][j];
    }
    assert hrefs[..|hrefs|] == hrefs;
    r := Some(AnchorCounts(selfRefs, emptyRefs, externalRefs));
  }

  /** When no href makes `urlparse` raise, the three buckets partition the
      anchors that carry an href. */
  lemma {:induction false} AnchorBucketsPartition(hrefs: seq<string>, netloc: string, parse: UrlParser)
    requires !AnyUnparsableHref(hrefs, netloc, parse)
    ensures CountKind(hrefs, SelfRef, netloc, parse) + CountKind(hrefs, EmptyRef, netloc, parse)
            + CountKind(hrefs, ExternalRef, netloc, parse) == |hrefs|
  {
    if hrefs != [] {
      var init := hrefs[..|hrefs| - 1];
      assert forall j :: 0 <= j < |init| ==> init[j] == hrefs[j];
      AnchorBucketsPartition(init, netloc, parse);
      assert Classify(hrefs[|hrefs| - 1], netloc, parse).Some?;
    }
  }
}
