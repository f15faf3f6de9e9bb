/** `extract_features` (api/app.py:44-184): the lexical columns, the content
    analysis inside the `try`, the two default-fill loops of the failure path
    and of the end, and the selection of `FEATURE_COLUMNS`; and `check_url`
    (api/app.py:188-208), which maps the vector to a verdict. */
module Extract {
  import opened Wrappers
  import opened Text
  import opened Schema
  import opened Lexical
  import opened Content

  // ---------------------------------------------------------------------------
  // Specification: which content columns the analysis assigns, and to what

  /** How many of the four content stages the `try` block completes: none when
      the fetch fails, and otherwise it stops at the first `urlparse` that
      raises: on a redirect URL, on a form action, on an anchor href. */
  function StagesReached(t: Target, fetch: FetchOutcome, parse: UrlParser): (n: nat)
    ensures n <= 4
  {
    match fetch
    case FetchFailed => 0
    case Fetched(_, p) =>
      if SelfRedirects(p.redirectUrls, t.parts.netloc, parse).None? then 1
      else if ScanForms(p.formActions, t.parts.netloc, parse) == FormActionUnparsable then 2
      else if AnchorTally(p.anchorHrefs, t.parts.netloc, parse).None? then 3
      else 4
  }

  /** Stage 1 (lines 92-114): page size, title, favicon, robots.txt, viewport
      and the length of the redirect chain, as the values written into
      `features`. */
  datatype PageMeasures = PageMeasures(
    lineOfCode: real, largestLineLength: real, hasTitle: real, domainTitleMatchScore: real,
    urlTitleMatchScore: real, hasFavicon: real, robots: real, isResponsive: real, noOfUrlRedirect: real)

  function MeasurePage(t: Target, p: Page, robots: RobotsOutcome): PageMeasures {
    PageMeasures(
      |p.lines| as real, MaxLength(p.lines) as real, Flag(TitlePresent(p)),
      DomainTitleScore(t, p), UrlTitleScore(t, p), Flag(p.hasFavicon),
      Flag(RobotsDisallows(robots)), Flag(p.hasViewport), |p.redirectUrls| as real)
  }

  function PageEntries(m: PageMeasures): map<Feature, real> {
    map[
      LineOfCode := m.lineOfCode,
      LargestLineLength := m.largestLineLength,
      HasTitle := m.hasTitle,
      DomainTitleMatchScore := m.domainTitleMatchScore,
      URLTitleMatchScore := m.urlTitleMatchScore,
      HasFavicon := m.hasFavicon,
      Robots := m.robots,
      IsResponsive := m.isResponsive,
      NoOfURLRedirect := m.noOfUrlRedirect
    ]
  }

  /** Stage 2 (lines 115-129): self redirects, description, pop-ups, iframes
      and the external-form flag. */
  datatype RedirectAndFormMeasures = RedirectAndFormMeasures(
    noOfSelfRedirect: real, hasDescription: real, noOfPopup: real, noOfIFrame: real,
    hasExternalFormSubmit: real)

  function MeasureRedirectsAndForms(t: Target, p: Page, parse: UrlParser): RedirectAndFormMeasures {
    RedirectAndFormMeasures(
      SelfRedirects(p.redirectUrls, t.parts.netloc, parse).GetOr(0) as real, Flag(p.hasDescription),
      SumPopups(p.scriptBodies) as real, p.iframes as real,
      Flag(ScanForms(p.formActions, t.parts.netloc, parse) == ExternalForm))
  }

  function RedirectAndFormEntries(m: RedirectAndFormMeasures): map<Feature, real> {
    map[
      NoOfSelfRedirect := m.noOfSelfRedirect,
      HasDescription := m.hasDescription,
      NoOfPopup := m.noOfPopup,
      NoOfiFrame := m.noOfIFrame,
      HasExternalFormSubmit := m.hasExternalFormSubmit
    ]
  }

  /** Stage 3 (lines 136-149): social links, form fields, keywords and
      resource counts. */
  datatype BodyMeasures = BodyMeasures(
    hasSocialNet: real, hasSubmitButton: real, hasHiddenFields: real, hasPasswordField: real,
    bank: real, pay: real, crypto: real, hasCopyrightInfo: real,
    noOfImage: real, noOfCss: real, noOfJs: real)

  function MeasureBody(p: Page): BodyMeasures {
    var text := Lower(p.text);
    BodyMeasures(
      Flag(LinksToSocialNet(p.anchorHrefs)), Flag(p.hasSubmit), Flag(p.hasHidden), Flag(p.hasPassword),
      Flag(AnyWordIn(text, BankWords)), Flag(AnyWordIn(text, PayWords)),
      Flag(AnyWordIn(text, CryptoWords)), Flag(AnyWordIn(text, CopyrightWords)),
      p.images as real, p.stylesheets as real, |p.scriptBodies| as real)
  }

  function BodyEntries(m: BodyMeasures): map<Feature, real> {
    map[
      HasSocialNet := m.hasSocialNet,
      HasSubmitButton := m.hasSubmitButton,
      HasHiddenFields := m.hasHiddenFields,
      HasPasswordField := m.hasPasswordField,
      Bank := m.bank,
      Pay := m.pay,
      Crypto := m.crypto,
      HasCopyrightInfo := m.hasCopyrightInfo,
      NoOfImage := m.noOfImage,
      NoOfCSS := m.noOfCss,
      NoOfJS := m.noOfJs
    ]
  }

  /** Stage 4 (lines 150-163): the three anchor counts, when the anchor loop
      completes. */
  function Tally(t: Target, p: Page, parse: UrlParser): AnchorCounts {
    AnchorTally(p.anchorHrefs, t.parts.netloc, parse).GetOr(AnchorCounts(0, 0, 0))
  }

  function AnchorEntries(c: AnchorCounts): map<Feature, real> {
    map[
      NoOfSelfRef := c.selfRefs as real,
      NoOfEmptyRef := c.emptyRefs as real,
      NoOfExternalRef := c.externalRefs as real
    ]
  }

  /** Everything the content analysis computes for a page, whether or not it
      gets as far as assigning it. */
  datatype Measures = Measures(
    page: PageMeasures, redirectsAndForms: RedirectAndFormMeasures, body: BodyMeasures, anchors: AnchorCounts)

  function Measure(t: Target, p: Page, robots: RobotsOutcome, parse: UrlParser): Measures {
    Measures(MeasurePage(t, p, robots), MeasureRedirectsAndForms(t, p, parse), MeasureBody(p), Tally(t, p, parse))
  }

  /** The measure that fills a content column. */
  function ContentValue(f: Feature, m: Measures): real {
    match f
    case LineOfCode => m.page.lineOfCode
    case LargestLineLength => m.page.largestLineLength
    case HasTitle => m.page.hasTitle
    case DomainTitleMatchScore => m.page.domainTitleMatchScore
    case URLTitleMatchScore => m.page.urlTitleMatchScore
    case HasFavicon => m.page.hasFavicon
    case Robots => m.page.robots
    case IsResponsive => m.page.isResponsive
    case NoOfURLRedirect => m.page.noOfUrlRedirect
    case NoOfSelfRedirect => m.redirectsAndForms.noOfSelfRedirect
    case HasDescription => m.redirectsAndForms.hasDescription
    case NoOfPopup => m.redirectsAndForms.noOfPopup
    case NoOfiFrame => m.redirectsAndForms.noOfIFrame
    case HasExternalFormSubmit => m.redirectsAndForms.hasExternalFormSubmit
    case HasSocialNet => m.body.hasSocialNet
    case HasSubmitButton => m.body.hasSubmitButton
    case HasHiddenFields => m.body.hasHiddenFields
    case HasPasswordField => m.body.hasPasswordField
    case Bank => m.body.bank
    case Pay => m.body.pay
    case Crypto => m.body.crypto
    case HasCopyrightInfo => m.body.hasCopyrightInfo
    case NoOfImage => m.body.noOfImage
    case NoOfCSS => m.body.noOfCss
    case NoOfJS => m.body.noOfJs
    case NoOfSelfRef => m.anchors.selfRefs as real
    case NoOfEmptyRef => m.anchors.emptyRefs as real
    case NoOfExternalRef => m.anchors.externalRefs as real
    case _ => 0.0
  }

  /** The entries the `try` block adds to `features`: the stages it completes. */
  function ContentEntries(t: Target, fetch: FetchOutcome, robots: RobotsOutcome, parse: UrlParser): map<Feature, real> {
    match fetch
    case FetchFailed => map[]
    case Fetched(_, p) =>
      var n := StagesReached(t, fetch, parse);
      var upTo1 := PageEntries(MeasurePage(t, p, robots));
      var upTo2 := upTo1 + RedirectAndFormEntries(MeasureRedirectsAndForms(t, p, parse));
      var upTo3 := upTo2 + BodyEntries(MeasureBody(p));
      if n == 1 then upTo1
      else if n == 2 then upTo2
      else if n == 3 then upTo3
      else upTo3 + AnchorEntries(Tally(t, p, parse))
  }

  /** The final value of a column: the lexical value for the 19 lexical
      columns; for a content column, its measure when the analysis completed
      the column's stage, and otherwise the 0 of the fill loops. */
  function FeatureValue(f: Feature, t: Target, fetch: FetchOutcome, robots: RobotsOutcome, parse: UrlParser): real {
    if StageOf(f) == 0 then LexicalValue(f, t)
    else if fetch.Fetched? && StageOf(f) <= StagesReached(t, fetch, parse) then
      ContentValue(f, Measure(t, fetch.page, robots, parse))
    else 0.0
  }

  /** The row `pd.DataFrame([features])[FEATURE_COLUMNS]`. */
  function FeatureVector(t: Target, fetch: FetchOutcome, robots: RobotsOutcome, parse: UrlParser): seq<real> {
    seq(|Columns|, i requires 0 <= i < |Columns| => FeatureValue(Columns[i], t, fetch, robots, parse))
  }

  /** `ContentEntries`, case by case on where the analysis stops. */
  lemma ContentEntriesByStage(t: Target, p: Page, fetch: FetchOutcome, robots: RobotsOutcome, parse: UrlParser)
    requires fetch.Fetched? && fetch.page == p
    ensures var upTo1 := PageEntries(MeasurePage(t, p, robots));
            var upTo2 := upTo1 + RedirectAndFormEntries(MeasureRedirectsAndForms(t, p, parse));
            var upTo3 := upTo2 + BodyEntries(MeasureBody(p));
            ContentEntries(t, fetch, robots, parse) ==
              if SelfRedirects(p.redirectUrls, t.parts.netloc, parse).None? then upTo1
              else if ScanForms(p.formActions, t.parts.netloc, parse) == FormActionUnparsable then upTo2
              else if AnchorTally(p.anchorHrefs, t.parts.netloc, parse).None? then upTo3
              else upTo3 + AnchorEntries(Tally(t, p, parse))
  {
  }

  /** Each stage writes exactly the columns of that stage ... */
  lemma PageKeys(m: Measures)
    ensures forall f :: f in PageEntries(m.page) <==> StageOf(f) == 1
  {
    forall f
      ensures f in PageEntries(m.page) <==> StageOf(f) == 1
    {
      ColumnAtIndex();
      var i := Index(f);
      if 19 <= i < 28 {
        assert f == ColumnAt(i);
      }
    }
  }

  lemma RedirectAndFormKeys(m: Measures)
    ensures forall f :: f in RedirectAndFormEntries(m.redirectsAndForms) <==> StageOf(f) == 2
  {
    forall f
      ensures f in RedirectAndFormEntries(m.redirectsAndForms) <==> StageOf(f) == 2
    {
      ColumnAtIndex();
      var i := Index(f);
      if 28 <= i < 33 {
        assert f == ColumnAt(i);
      }
    }
  }

  lemma BodyKeys(m: Measures)
    ensures forall f :: f in BodyEntries(m.body) <==> StageOf(f) == 3
  {
    forall f
      ensures f in BodyEntries(m.body) <==> StageOf(f) == 3
    {
      ColumnAtIndex();
      var i := Index(f);
      if 33 <= i < 44 {
        assert f == ColumnAt(i);
      }
    }
  }

  lemma AnchorKeys(m: Measures)
    ensures forall f :: f in AnchorEntries(m.anchors) <==> StageOf(f) == 4
  {
    forall f
      ensures f in AnchorEntries(m.anchors) <==> StageOf(f) == 4
    {
      ColumnAtIndex();
      var i := Index(f);
      if 44 <= i < 47 {
        assert f == ColumnAt(i);
      }
    }
  }

  /** ... each with the measure `ContentValue` gives it. */
  lemma PageValues(m: Measures)
    ensures forall f :: f in PageEntries(m.page) ==> PageEntries(m.page)[f] == ContentValue(f, m)
  {
  }

  lemma RedirectAndFormValues(m: Measures)
    ensures forall f :: f in RedirectAndFormEntries(m.redirectsAndForms) ==>
              RedirectAndFormEntries(m.redirectsAndForms)[f] == ContentValue(f, m)
  {
  }

  lemma BodyValues(m: Measures)
    ensures forall f :: f in BodyEntries(m.body) ==> BodyEntries(m.body)[f] == ContentValue(f, m)
  {
  }

  lemma AnchorValues(m: Measures)
    ensures forall f :: f in AnchorEntries(m.anchors) ==> AnchorEntries(m.anchors)[f] == ContentValue(f, m)
  {
  }

  /** The entries the `try` block adds are the content columns of the stages
      it completes ... */
  lemma ContentKeys(t: Target, fetch: FetchOutcome, robots: RobotsOutcome, parse: UrlParser)
    ensures forall f :: f in ContentEntries(t, fetch, robots, parse) <==>
              fetch.Fetched? && 1 <= StageOf(f) <= StagesReached(t, fetch, parse)
  {
    if fetch.Fetched? {
      var p := fetch.page;
      ContentEntriesByStage(t, p, fetch, robots, parse);
      var m := Measure(t, p, robots, parse);
      PageKeys(m);
      RedirectAndFormKeys(m);
      BodyKeys(m);
      AnchorKeys(m);
    }
  }

  /** ... each with its measure. */
  lemma ContentValues(t: Target, fetch: FetchOutcome, robots: RobotsOutcome, parse: UrlParser)
    ensures forall f :: f in ContentEntries(t, fetch, robots, parse) ==>
              ContentEntries(t, fetch, robots, parse)[f] == ContentValue(f, Measure(t, fetch.page, robots, parse))
  {
    if fetch.Fetched? {
      var p := fetch.page;
      ContentEntriesByStage(t, p, fetch, robots, parse);
      var m := Measure(t, p, robots, parse);
      PageValues(m);
      RedirectAndFormValues(m);
      BodyValues(m);
      AnchorValues(m);
    }
  }

  /** `FeatureValue` read back from the entries of the analysis. */
  lemma FeatureValueFromEntries(t: Target, fetch: FetchOutcome, robots: RobotsOutcome, parse: UrlParser)
    ensures forall f :: FeatureValue(f, t, fetch, robots, parse) ==
              var entries := ContentEntries(t, fetch, robots, parse);
              if f in entries then entries[f] else if StageOf(f) == 0 then LexicalValue(f, t) else 0.0
  {
    ContentKeys(t, fetch, robots, parse);
    ContentValues(t, fetch, robots, parse);
  }

  // ---------------------------------------------------------------------------
  // Map bookkeeping: a run of assignments `features[k] = v` is a union

  lemma NineAssignments(m: map<Feature, real>, a: real, b: real, c: real, d: real, e: real,
                        f: real, g: real, h: real, i: real)
    ensures m[LineOfCode := a][LargestLineLength := b][HasTitle := c][DomainTitleMatchScore := d]
             [URLTitleMatchScore := e][HasFavicon := f][Robots := g][IsResponsive := h][NoOfURLRedirect := i]
            == m + map[LineOfCode := a, LargestLineLength := b, HasTitle := c, DomainTitleMatchScore := d,
                       URLTitleMatchScore := e, HasFavicon := f, Robots := g, IsResponsive := h,
                       NoOfURLRedirect := i]
  {
  }

  lemma FiveAssignments(m: map<Feature, real>, a: real, b: real, c: real, d: real, e: real)
    ensures m[NoOfSelfRedirect := a][HasDescription := b][NoOfPopup := c][NoOfiFrame := d]
             [HasExternalFormSubmit := e]
            == m + map[NoOfSelfRedirect := a, HasDescription := b, NoOfPopup := c, NoOfiFrame := d,
                       HasExternalFormSubmit := e]
  {
  }

  lemma ElevenAssignments(m: map<Feature, real>, a: real, b: real, c: real, d: real, e: real,
                          f: real, g: real, h: real, i: real, j: real, k: real)
    ensures m[HasSocialNet := a][HasSubmitButton := b][HasHiddenFields := c][HasPasswordField := d]
             [Bank := e][Pay := f][Crypto := g][HasCopyrightInfo := h][NoOfImage := i][NoOfCSS := j][NoOfJS := k]
            == m + map[HasSocialNet := a, HasSubmitButton := b, HasHiddenFields := c, HasPasswordField := d,
                       Bank := e, Pay := f, Crypto := g, HasCopyrightInfo := h, NoOfImage := i,
                       NoOfCSS := j, NoOfJS := k]
  {
  }

  lemma ThreeAssignments(m: map<Feature, real>, a: real, b: real, c: real)
    ensures m[NoOfSelfRef := a][NoOfEmptyRef := b][NoOfExternalRef := c]
            == m + map[NoOfSelfRef := a, NoOfEmptyRef := b, NoOfExternalRef := c]
  {
  }

  lemma UnionAssociates(a: map<Feature, real>, b: map<Feature, real>, c: map<Feature, real>)
    ensures a + b + c == a + (b + c)
  {
  }

  // ---------------------------------------------------------------------------
  // The extractor

  /** Lines 92-114. */
  method AssignStage1(features: map<Feature, real>, t: Target, p: Page, robots: RobotsOutcome)
    returns (updated: map<Feature, real>)
    ensures updated == features + PageEntries(MeasurePage(t, p, robots))
  {
    var longest := MaxLength(p.lines) as real;
    var domainScore := DomainTitleScore(t, p);
    var urlScore := UrlTitleScore(t, p);
    var disallows := RobotsDisallows(robots);
    updated := features;
    updated := updated[LineOfCode := |p.lines| as real];
    updated := updated[LargestLineLength := longest];
    updated := updated[HasTitle := Flag(TitlePresent(p))];
    updated := updated[DomainTitleMatchScore := domainScore];
    updated := updated[URLTitleMatchScore := urlScore];
    updated := updated[HasFavicon := Flag(p.hasFavicon)];
    updated := updated[Robots := Flag(disallows)];
    updated := updated[IsResponsive := Flag(p.hasViewport)];
    updated := updated[NoOfURLRedirect := |p.redirectUrls| as real];
    NineAssignments(features, |p.lines| as real, longest, Flag(TitlePresent(p)), domainScore, urlScore,
                    Flag(p.hasFavicon), Flag(disallows), Flag(p.hasViewport), |p.redirectUrls| as real);
  }

  /** Lines 115-129, once the redirect comprehension has counted
      `selfRedirects`; `scan` is the outcome of the form loop, which raises on
      an unparsable action. */
  method AssignStage2(m: map<Feature, real>, t: Target, p: Page, parse: UrlParser, selfRedirects: nat)
    returns (updated: map<Feature, real>, scan: FormScan)
    requires SelfRedirects(p.redirectUrls, t.parts.netloc, parse) == Some(selfRedirects)
    ensures scan == ScanForms(p.formActions, t.parts.netloc, parse)
    ensures updated == m + RedirectAndFormEntries(MeasureRedirectsAndForms(t, p, parse))
  {
    var popups := CountPopups(p.scriptBodies);
    updated := m;
    updated := updated[NoOfSelfRedirect := selfRedirects as real];
    updated := updated[HasDescription := Flag(p.hasDescription)];
    updated := updated[NoOfPopup := popups as real];
    updated := updated[NoOfiFrame := p.iframes as real];
    var beforeForms := updated;
    updated := updated[HasExternalFormSubmit := 0.0];
    scan := FindExternalForm(p.formActions, t.parts.netloc, parse);
    if scan == ExternalForm {
      updated := updated[HasExternalFormSubmit := 1.0];
    }
    assert updated == beforeForms[HasExternalFormSubmit := Flag(scan == ExternalForm)];
    FiveAssignments(m, selfRedirects as real, Flag(p.hasDescription), popups as real, p.iframes as real,
                    Flag(scan == ExternalForm));
  }

  /** Lines 136-149. */
  method AssignStage3(m: map<Feature, real>, p: Page) returns (updated: map<Feature, real>)
    ensures updated == m + BodyEntries(MeasureBody(p))
  {
    var social := LinksToSocialNet(p.anchorHrefs);
    var text := Lower(p.text);
    var bank := AnyWordIn(text, BankWords);
    var pay := AnyWordIn(text, PayWords);
    var crypto := AnyWordIn(text, CryptoWords);
    var copyright := AnyWordIn(text, CopyrightWords);
    updated := m;
    updated := updated[HasSocialNet := Flag(social)];
    updated := updated[HasSubmitButton := Flag(p.hasSubmit)];
    updated := updated[HasHiddenFields := Flag(p.hasHidden)];
    updated := updated[HasPasswordField := Flag(p.hasPassword)];
    updated := updated[Bank := Flag(bank)];
    updated := updated[Pay := Flag(pay)];
    updated := updated[Crypto := Flag(crypto)];
    updated := updated[HasCopyrightInfo := Flag(copyright)];
    updated := updated[NoOfImage := p.images as real];
    updated := updated[NoOfCSS := p.stylesheets as real];
    updated := updated[NoOfJS := |p.scriptBodies| as real];
    ElevenAssignments(m, Flag(social), Flag(p.hasSubmit), Flag(p.hasHidden), Flag(p.hasPassword),
                      Flag(bank), Flag(pay), Flag(crypto), Flag(copyright),
                      p.images as real, p.stylesheets as real, |p.scriptBodies| as real);
  }

  /** Lines 161-163, once the anchor loop has produced its three counts. */
  method AssignStage4(m: map<Feature, real>, anchors: AnchorCounts) returns (updated: map<Feature, real>)
    ensures updated == m + AnchorEntries(anchors)
  {
    updated := m;
    updated := updated[NoOfSelfRef := anchors.selfRefs as real];
    updated := updated[NoOfEmptyRef := anchors.emptyRefs as real];
    updated := updated[NoOfExternalRef := anchors.externalRefs as real];
    ThreeAssignments(m, anchors.selfRefs as real, anchors.emptyRefs as real, anchors.externalRefs as real);
  }

  /** The `try` block of lines 86-163, filling `features` stage by stage;
      `raised` says whether it left through the `except` of line 165. */
  method AnalyseContent(features: map<Feature, real>, t: Target, fetch: FetchOutcome,
                        robots: RobotsOutcome, parse: UrlParser)
    returns (updated: map<Feature, real>, raised: bool)
    ensures raised <==> StagesReached(t, fetch, parse) < 4
    ensures updated == features + ContentEntries(t, fetch, robots, parse)
  {
    if fetch.FetchFailed? {
      return features, true;
    }
    var p := fetch.page;
    var upTo1 := PageEntries(MeasurePage(t, p, robots));
    var upTo2 := upTo1 + RedirectAndFormEntries(MeasureRedirectsAndForms(t, p, parse));
    var upTo3 := upTo2 + BodyEntries(MeasureBody(p));
    ContentEntriesByStage(t, p, fetch, robots, parse);
    updated := AssignStage1(features, t, p, robots);
    var selfRedirects := SelfRedirects(p.redirectUrls, t.parts.netloc, parse);
    if selfRedirects.None? {
      return updated, true;
    }
    var scan;
    updated, scan := AssignStage2(updated, t, p, parse, selfRedirects.value);
    UnionAssociates(features, upTo1, RedirectAndFormEntries(MeasureRedirectsAndForms(t, p, parse)));
    if scan == FormActionUnparsable {
      return updated, true;
    }
    updated := AssignStage3(updated, p);
    UnionAssociates(features, upTo2, BodyEntries(MeasureBody(p)));
    var anchors := ClassifyAnchors(p.anchorHrefs, t.parts.netloc, parse);
    if anchors.None? {
      return updated, true;
    }
    updated := AssignStage4(updated, anchors.value);
    UnionAssociates(features, upTo3, AnchorEntries(anchors.value));
    raised := false;
  }

  /** `for f in keys: if f not in features: features[f] = 0` */
  method FillMissing(features: map<Feature, real>, keys: seq<Feature>) returns (filled: map<Feature, real>)
    ensures forall f :: f in filled <==> f in features || f in keys
    ensures forall f :: f in features ==> filled[f] == features[f]
    ensures forall f :: f in filled && f !in features ==> filled[f] == 0.0
  {
    filled := features;
    for i := 0 to |keys|
      invariant forall f :: f in filled <==> f in features || f in keys[..i]
      invariant forall f :: f in features ==> filled[f] == features[f]
      invariant forall f :: f in filled && f !in features ==> filled[f] == 0.0
    {
      if keys[i] !in filled {
        filled := filled[keys[i] := 0.0];
      }
      assert keys[..i + 1] == keys[..i] + [keys[i]];
    }
    assert keys[..|keys|] == keys;
  }

  /** `filled` keeps every entry of `base` and holds 0 at every key it adds. */
  predicate ZeroFilled(filled: map<Feature, real>, base: map<Feature, real>) {
    && (forall f :: f in base ==> f in filled && filled[f] == base[f])
    && (forall f :: f in filled && f !in base ==> filled[f] == 0.0)
  }

  /** The lexical entries of lines 52-83, one for each column of stage 0. */
  function LexicalEntries(t: Target): map<Feature, real> {
    map f | StageOf(f) == 0 :: LexicalValue(f, t)
  }

  /** The row a `features` dict yields once both fill loops have run: each
      column's entry, or 0 where the dict has none. */
  function Selected(features: map<Feature, real>): seq<real> {
    seq(|Columns|, i requires 0 <= i < |Columns| => if Columns[i] in features then features[Columns[i]] else 0.0)
  }

  /** Lines 165-184: the fill loop of the failure path (only when the `try`
      raised), the fill loop over `FEATURE_COLUMNS`, and the selection of the
      columns in order. */
  method FillAndSelect(features: map<Feature, real>, raised: bool) returns (row: seq<real>)
    ensures row == Selected(features)
  {
    var filled := features;
    if raised {
      filled := FillMissing(filled, ContentColumns);
    }
    assert ZeroFilled(filled, features);
    filled := FillMissing(filled, Columns);
    assert ZeroFilled(filled, features);
    row := seq(|Columns|, i requires 0 <= i < |Columns| => filled[Columns[i]]);
  }

  /** Filling and selecting the lexical and content entries gives
      `FeatureVector`. */
  lemma SelectedEntries(t: Target, fetch: FetchOutcome, robots: RobotsOutcome, parse: UrlParser)
    ensures Selected(LexicalEntries(t) + ContentEntries(t, fetch, robots, parse)) == FeatureVector(t, fetch, robots, parse)
  {
    ContentKeys(t, fetch, robots, parse);
    FeatureValueFromEntries(t, fetch, robots, parse);
    SelectedUnion(LexicalEntries(t), ContentEntries(t, fetch, robots, parse),
                  f => FeatureValue(f, t, fetch, robots, parse));
  }

  /** Selecting from lexical entries for exactly the lexical columns,
      overwritten by content entries, reads each column's `value`. */
  lemma SelectedUnion(lexical: map<Feature, real>, content: map<Feature, real>, value: Feature -> real)
    requires forall f :: f in lexical <==> StageOf(f) == 0
    requires forall f :: f in content ==> StageOf(f) != 0
    requires forall f :: value(f) == if f in content then content[f] else if StageOf(f) == 0 then lexical[f] else 0.0
    ensures Selected(lexical + content) == seq(|Columns|, i requires 0 <= i < |Columns| => value(Columns[i]))
  {
    ColumnKinds();
  }

  /** `extract_features(url)`. `None` when the `urlparse(url)` of line 48,
      which is outside the `try`, raises. */
  method ExtractFeatures(url: string, info: DomainInfo, fetch: FetchOutcome,
                         robots: RobotsOutcome, parse: UrlParser)
    returns (row: Option<seq<real>>)
    ensures parse(url).None? ==> row.None?
    ensures parse(url).Some? ==>
              row == Some(FeatureVector(Target(url, parse(url).value, info), fetch, robots, parse))
  {
    var parsed := parse(url);
    if parsed.None? {
      return None;
    }
    var t := Target(url, parsed.value, info);
    var features, raised := AnalyseContent(LexicalEntries(t), t, fetch, robots, parse);
    var selected := FillAndSelect(features, raised);
    SelectedEntries(t, fetch, robots, parse);
    row := Some(selected);
  }

  // ---------------------------------------------------------------------------
  // check_url (lines 187-208)

  /** The three replies of `check_url`: the 400 for a request without a
      `url`, the `except` reply when extraction raises, and the classifier's
      prediction. */
  datatype Answer = UrlNotProvided | ExtractionFailed | Prediction(phishing: bool)

  /** The HTTP status is 200 for every reply but the 400. */
  predicate AnswerOk(a: Answer) {
    !a.UrlNotProvided?
  }

  /** The `status` field of the JSON reply; the 400 reply has none. */
  function AnswerStatus(a: Answer): Option<string> {
    match a
    case UrlNotProvided => None
    case ExtractionFailed => Some("safe")
    case Prediction(phishing) => Some(if phishing then "phishing" else "safe")
  }

  /** `check_url`. `url` is the request's `url` member, `None` when the body
      is not JSON or has no such member; `predict` is `model.predict` on one
      row. A failed extraction answers `safe`. */
  method CheckUrl(url: Option<string>, info: DomainInfo, fetch: FetchOutcome, robots: RobotsOutcome,
                  parse: UrlParser, predict: seq<real> -> int)
    returns (answer: Answer)
    ensures url.None? ==> answer == UrlNotProvided
    ensures url.Some? && parse(url.value).None? ==> answer == ExtractionFailed
    ensures url.Some? && parse(url.value).Some? ==>
              answer == Prediction(predict(FeatureVector(Target(url.value, parse(url.value).value, info), fetch, robots, parse)) == 1)
  {
    if url.None? {
      return UrlNotProvided;
    }
    var row := ExtractFeatures(url.value, info, fetch, robots, parse);
    if row.None? {
      return ExtractionFailed;
    }
    answer := Prediction(predict(row.value) == 1);
  }

  /** The backend reports `phishing` with a successful status exactly for a
      positive prediction: neither the 400 nor a failed extraction does. */
  lemma PhishingOnlyOnPrediction(a: Answer)
    ensures AnswerOk(a) && AnswerStatus(a) == Some("phishing") <==> a == Prediction(true)
  {
  }

  // ---------------------------------------------------------------------------
  // Properties of the row

  /** The 19 lexical columns lead the row and hold their lexical values for
      every URL the parser accepts, whatever happens to the page. */
  lemma LexicalPartOfRow(t: Target, fetch: FetchOutcome, robots: RobotsOutcome, parse: UrlParser)
    ensures |FeatureVector(t, fetch, robots, parse)| == |Columns| == 47
    ensures forall i :: 0 <= i < |LexicalColumns| ==>
              FeatureVector(t, fetch, robots, parse)[i] == LexicalValue(LexicalColumns[i], t)
  {
    StagesAlongColumns();
    forall i | 0 <= i < |LexicalColumns|
      ensures FeatureVector(t, fetch, robots, parse)[i] == LexicalValue(LexicalColumns[i], t)
    {
      assert Columns[i] == LexicalColumns[i];
    }
  }

  /** The 28 content columns: when the analysis completes `n` stages the
      first columns, up to `StageEnd(n)`, carry their computed values, and
      every later one carries the 0 of the fill loops. */
  lemma ContentPartOfRow(t: Target, fetch: FetchOutcome, robots: RobotsOutcome, parse: UrlParser)
    ensures var v := FeatureVector(t, fetch, robots, parse);
            var n := StagesReached(t, fetch, parse);
            forall i :: |LexicalColumns| <= i < |Columns| ==>
              v[i] == if fetch.Fetched? && i < StageEnd(n)
                      then ContentValue(Columns[i], Measure(t, fetch.page, robots, parse))
                      else 0.0
  {
    StagesAlongColumns();
  }

  /** When the page cannot be fetched, the whole content half of the row is 0. */
  lemma FetchFailureZeroesContent(t: Target, fetch: FetchOutcome, robots: RobotsOutcome, parse: UrlParser)
    requires fetch.FetchFailed?
    ensures forall i :: |LexicalColumns| <= i < |Columns| ==> FeatureVector(t, fetch, robots, parse)[i] == 0.0
  {
    ContentPartOfRow(t, fetch, robots, parse);
  }

  /** The value of one column, read through its position in the row. */
  function Column(v: seq<real>, f: Feature): real
    requires |v| == |Columns|
  {
    v[Index(f)]
  }

  lemma ColumnIsFeatureValue(t: Target, fetch: FetchOutcome, robots: RobotsOutcome, parse: UrlParser, f: Feature)
    ensures Column(FeatureVector(t, fetch, robots, parse), f) == FeatureValue(f, t, fetch, robots, parse)
  {
    ColumnsAreDistinct();
  }

  /** A column of a stage the analysis completes holds its measure. */
  lemma ReachedColumn(t: Target, s: int, p: Page, robots: RobotsOutcome, parse: UrlParser, f: Feature)
    requires 0 < StageOf(f) <= StagesReached(t, Fetched(s, p), parse)
    ensures Column(FeatureVector(t, Fetched(s, p), robots, parse), f) == ContentValue(f, Measure(t, p, robots, parse))
  {
    ColumnIsFeatureValue(t, Fetched(s, p), robots, parse, f);
  }

  lemma AnchorFields(m: Measures)
    ensures ContentValue(NoOfSelfRef, m) == m.anchors.selfRefs as real
    ensures ContentValue(NoOfEmptyRef, m) == m.anchors.emptyRefs as real
    ensures ContentValue(NoOfExternalRef, m) == m.anchors.externalRefs as real
  {
  }

  lemma RedirectFields(m: Measures)
    ensures ContentValue(NoOfURLRedirect, m) == m.page.noOfUrlRedirect
    ensures ContentValue(NoOfSelfRedirect, m) == m.redirectsAndForms.noOfSelfRedirect
  {
  }

  /** When the anchor loop completes, the three anchor columns it assigns
      partition the anchors that carry an href. */
  lemma AnchorColumnsPartitionLinks(t: Target, p: Page, robots: RobotsOutcome, parse: UrlParser)
    requires AnchorTally(p.anchorHrefs, t.parts.netloc, parse).Some?
    ensures var m := Measure(t, p, robots, parse);
            ContentValue(NoOfSelfRef, m) + ContentValue(NoOfEmptyRef, m) + ContentValue(NoOfExternalRef, m)
            == |p.anchorHrefs| as real
  {
    AnchorFields(Measure(t, p, robots, parse));
    AnchorBucketsPartition(p.anchorHrefs, t.parts.netloc, parse);
  }

  /** `NoOfURLRedirect` is the length of the redirect chain, and
      `NoOfSelfRedirect`, which counts a sub-list of it, never exceeds it. */
  lemma SelfRedirectsWithinRedirects(t: Target, p: Page, robots: RobotsOutcome, parse: UrlParser)
    ensures var m := Measure(t, p, robots, parse);
            ContentValue(NoOfURLRedirect, m) == |p.redirectUrls| as real
    ensures var m := Measure(t, p, robots, parse);
            0.0 <= ContentValue(NoOfSelfRedirect, m) <= ContentValue(NoOfURLRedirect, m)
  {
    RedirectFields(Measure(t, p, robots, parse));
  }

  lemma RedirectStages()
    ensures StageOf(NoOfURLRedirect) == 1 && StageOf(NoOfSelfRedirect) == 2
  {
  }

  /** The two redirect values: `NoOfURLRedirect` is the chain length once
      the page is fetched; `NoOfSelfRedirect` lies between 0 and it. */
  lemma RedirectValuesBounded(t: Target, fetch: FetchOutcome, robots: RobotsOutcome, parse: UrlParser)
    ensures 0.0 <= FeatureValue(NoOfSelfRedirect, t, fetch, robots, parse) <= FeatureValue(NoOfURLRedirect, t, fetch, robots, parse)
  {
    RedirectStages();
    if fetch.Fetched? {
      SelfRedirectsWithinRedirects(t, fetch.page, robots, parse);
    }
  }

  /** In every row, `NoOfSelfRedirect` lies between 0 and `NoOfURLRedirect`:
      both are measures once the redirect comprehension completes; when it
      raises only `NoOfURLRedirect` is set, and a failed fetch zeroes both. */
  lemma SelfRedirectColumnsInRow(t: Target, fetch: FetchOutcome, robots: RobotsOutcome, parse: UrlParser)
    ensures var v := FeatureVector(t, fetch, robots, parse);
            0.0 <= Column(v, NoOfSelfRedirect) <= Column(v, NoOfURLRedirect)
  {
    RedirectValuesBounded(t, fetch, robots, parse);
    ColumnIsFeatureValue(t, fetch, robots, parse, NoOfSelfRedirect);
    ColumnIsFeatureValue(t, fetch, robots, parse, NoOfURLRedirect);
  }
}
