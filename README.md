# Phishing detector: feature extraction and the extension's service worker

This project models two parts of a phishing detector in Dafny.

**The backend's feature extractor** is `extract_features` in `api/app.py`. It
turns a URL into a row of 47 numeric columns, in the fixed order of
`FEATURE_COLUMNS`. The row has two halves:

- Nineteen lexical columns (module `Lexical`). They are computed from the URL
  text, from `urlparse`'s netloc and from `tldextract`'s domain parts.
- Twenty-eight content columns (module `Content`). They are measured on the
  fetched page. The `try` block assigns them in four stages, and three places
  in it can raise: the `urlparse` of each redirect URL, of a form's action and
  of an anchor's href. When one raises, the remaining columns are filled with
  0. A failed fetch zeroes the whole content half.

The module `Extract` assembles the row. It has two forms:

- a specification function, `FeatureVector`;
- the imperative extractor, `ExtractFeatures`. It fills a `features` map stage
  by stage, runs the two fill loops and selects the columns in order. It is
  proved to return `FeatureVector`.

`check_url` (`CheckUrl`) wraps the extractor and the classifier. It gives the
400 reply, the classifier's verdict, or the `safe` reply of its `except`.

Module `Schema` holds the column list and the stage each column belongs to.
Module `Text` holds the Python string built-ins the extractor uses (`split`,
`strip`, `lower`, `count`, `startswith`, `in`). Each is a function on
`seq<char>`.

**The browser extension's service worker** is `extension/background.js`,
modelled in module `Background`. The class `ServiceWorker` holds the
session's allow-list of hostnames. It has two handlers:

- `OnNavigate`: for every tab that starts loading a web page, it asks the
  backend about the URL unless the hostname is allow-listed. When the answer
  is `phishing`, it redirects the tab to the warning page.
- `OnMessage`: on the warning page's `proceedToUrl` message, it adds the
  hostname to the allow-list and sends the tab on to the URL.

The handlers' effects on the outside world are returned as values: the
request that is posted and the tab update that is issued.

The following are parameters of the model, not functions it defines:

- `urlparse`: `UrlParser`, which returns `None` where Python raises;
- `tldextract`: `DomainInfo`;
- the HTTP responses: `FetchOutcome` and `RobotsOutcome`;
- the parsed HTML: `Page`;
- `model.predict`;
- `new URL(...).hostname`: `HostnameParser`;
- the backend's reply to the extension: `Reply`;
- `encodeURIComponent`.

The model keeps these behaviours of the code as written:

- `HasSocialNet` is a case-sensitive search of the hrefs.
- `IsHTTPS` compares exactly with `https` the scheme that `urlparse`
  returns, which `urlparse` has already lowercased, so `HTTPS://example.com`
  gives 1. The `UrlParser` input carries that lowercasing.
- The navigation handler's guard tests `tab.url`, but the handler then sends
  `changeInfo.url`. When a loading event carries no `url`, `new URL(undefined)`
  throws into the `catch`, and nothing is sent.
- A hostname that fails to parse in the message handler rejects the `async`
  block before anything is stored. The handler still answers `true`.

## Model

| member | source | states |
|---|---|---|
| Schema.Index | api/app.py:29-42 | every column has a position below 47 in `FEATURE_COLUMNS` |
| Schema.StageEnd | api/app.py:86-163 | each stage ends at a position no greater than the 47 columns |
| Schema.StageOf | api/app.py:86-163 | each column belongs to one of the five stages 0 to 4 |
| Schema.ColumnsAreDistinct | api/app.py:29-42 | the column list has 47 distinct entries, and `Index` is the position of each column in it |
| Schema.StagesAlongColumns | api/app.py:29-42 | the stages lie along the column order: a column belongs to a stage up to `s` exactly when its position is before `StageEnd(s)` |
| Schema.ColumnKinds | api/app.py:167-175 | the first 19 columns are the lexical ones and the last 28 are exactly the `content_features` list of the failure path |
| Lexical.Ratio | api/app.py:59 | `n / d if d > 0 else 0` is 0 for a zero denominator and lies in [0, 1] when the count does not exceed the length |
| Lexical.RatioIsOne | api/app.py:59 | with a positive denominator, a ratio is 1 exactly when the counts agree |
| Lexical.CountEscapes | api/app.py:64-66 | the non-overlapping `%XX` matches take three characters each, so 3 times their number is at most the URL length |
| Lexical.CountEscapesPositive | api/app.py:64-65 | some escape is counted exactly when a `%XX` escape occurs somewhere in the URL |
| Lexical.LongestLetterRunIsMaximum | api/app.py:58 | the longest `[a-zA-Z]+` match is a block of letters in the URL, and no block of letters is longer |
| Lexical.SubdomainCountIsLabels | api/app.py:62 | `NoOfSubDomain` is 0 exactly for an empty subdomain, and is otherwise the number of dots plus one |
| Lexical.MatchDottedIffGroups | api/app.py:55 | on a newline-free string, the pattern `(\d{1,3}\.){k}\d{1,3}$` matches exactly when the `.`-split has k+1 groups of one to three digits |
| Lexical.IsDomainIPIffDottedQuad | api/app.py:55-56 | on a newline-free netloc, `IsDomainIP` is set exactly for four dot-separated groups of one to three digits |
| Lexical.LexicalValue | api/app.py:52-83 | definition, no contract: the value the extractor stores for each of the 19 lexical columns |
| Lexical.RatiosOfEmptyUrl | api/app.py:52-81 | for the empty URL, the length and every ratio column are 0 |
| Lexical.CountRatiosOfNonEmptyUrl | api/app.py:64-72 | for a non-empty URL, the obfuscation, letter and digit ratios are their counts divided by `URLLength` |
| Lexical.RunAndSpecialRatiosOfNonEmptyUrl | api/app.py:58-81 | for a non-empty URL, the continuation rate and the special-character ratio are their counts divided by `URLLength` |
| Lexical.RatiosInUnitInterval | api/app.py:58-81 | each of the five ratio columns lies in [0, 1] |
| Lexical.ClassCountsWithinLength | api/app.py:69-78 | letters, digits, `=`, `?`, `&` and the other specials are disjoint classes, so their counts add up to at most `URLLength` |
| Lexical.ObfuscationColumns | api/app.py:64-67 | `HasObfuscation` is 1 exactly when `NoOfObfuscatedChar` is positive, and exactly when some escape occurs; the escapes fit in the URL |
| Lexical.DomainColumns | api/app.py:49-83 | `DomainLength` is the domain label plus the dot plus `TLDLength`; the subdomain count; `IsDomainIP` is the dotted-quad test; `IsHTTPS` is the exact scheme test |
| Lexical.SubdomainExamples | api/app.py:62 | an empty subdomain counts 0 labels and `a` counts 1 |
| Lexical.MatchDottedGroup | api/app.py:55 | one to three digits and a `.`, followed by a match of the remaining groups, is a match |
| Lexical.IpExample | api/app.py:55-56 | `192.168.1.1` is recognised as an IP host |
| Lexical.HostNameExample | api/app.py:55-56 | `example.com` is not recognised as an IP host |
| Lexical.PortExample | api/app.py:55-56 | `192.168.1.1:8080` is not recognised as an IP host: the port defeats the `$` anchor |
| Content.TitlePresent | api/app.py:95-97 | definition, no contract: a `<title>` with a non-empty single string, as `title_tag and title_tag.string` tests it |
| Content.JaccardBounds | api/app.py:102-103 | the title scores lie in [0, 1]; they are 0 when the word sets are disjoint or both empty, and 1 exactly when the sets are equal and non-empty |
| Content.IntersectionWithinUnion | api/app.py:102-103 | the intersection is never larger than the union, and is as large only when the sets are equal |
| Content.RobotsDisallows | api/app.py:107-111 | definition, no contract: the `robots.txt` reply has status 200 and contains `Disallow: /`; a failed fetch gives 0 |
| Content.SelfRedirects | api/app.py:115-116 | the comprehension raises exactly when some redirect URL fails to parse; otherwise it counts at most the redirects there are |
| Content.SumPopups | api/app.py:119-124 | definition, no contract: the sum of the `window.open` counts of the lowercased non-empty script bodies; the reference for `CountPopups` |
| Content.CountPopups | api/app.py:119-124 | the popup loop computes `SumPopups` over the script bodies |
| Content.SumPopupsAppend | api/app.py:121-123 | the popup count of two lists of scripts is the sum of their counts |
| Content.SumPopupsPositive | api/app.py:119-124 | some popup is counted exactly when some non-empty script body contains `window.open`, in any case |
| Content.ScanForms | api/app.py:128-134 | definition, no contract: the form loop's outcome, decided by the first form that submits elsewhere or raises; the reference for `FindExternalForm` |
| Content.FindExternalForm | api/app.py:128-134 | the form loop computes `ScanForms`: the first form that submits elsewhere or raises decides the outcome |
| Content.ExternalFirstAtShift | api/app.py:130-134 | a form after the first submits elsewhere with no raising form before it exactly when the first form does not raise and the same holds for it among the remaining forms |
| Content.RaisesFirstAtShift | api/app.py:130-134 | a form after the first raises with no external form before it exactly when the first form does not submit elsewhere and the same holds for it among the remaining forms |
| Content.ScanFormsFindsExternal | api/app.py:128-134 | `HasExternalFormSubmit` is set exactly when some form submits to another host and no earlier form raises |
| Content.ScanFormsRaises | api/app.py:128-134 | the loop raises exactly when some form's action fails to parse before any form submits elsewhere |
| Content.ScanFormsWithoutErrors | api/app.py:128-134 | when no action fails to parse, the flag is set exactly when some form submits elsewhere |
| Content.KeywordListsReduce | api/app.py:141-145 | `payment` contains `pay` and `bitcoin` contains `coin`, so the keyword lists reduce to fewer words |
| Content.Classify | api/app.py:155-160 | an href is an empty ref exactly when it is empty or starts with `#` or `javascript:`; otherwise it raises exactly when it fails to parse, and is a self ref when its netloc is empty or the page's, external when not |
| Content.AnchorTally | api/app.py:151-163 | definition, no contract: the three counters after the anchor loop, or `None` when it raises; the reference for `ClassifyAnchors` |
| Content.ClassifyAnchors | api/app.py:151-163 | the anchor loop computes `AnchorTally`, or raises |
| Content.AnchorBucketsPartition | api/app.py:151-160 | when no href fails to parse, the three counters add up to the number of anchors with an href |
| Extract.StagesReached | api/app.py:86-163 | at most four stages complete: none when the fetch fails, otherwise the stages before the first `urlparse` that raises |
| Extract.MeasurePage | api/app.py:92-114 | definition, no contract: the nine values of stage 1 |
| Extract.MeasureRedirectsAndForms | api/app.py:115-134 | definition, no contract: the five values of stage 2 |
| Extract.MeasureBody | api/app.py:136-149 | definition, no contract: the eleven values of stage 3, including the social-link, keyword and copyright flags |
| Extract.FeatureValue | api/app.py:165-184 | definition, no contract: the final value of a column, lexical, measured, or the 0 of the fill loops |
| Extract.FeatureVector | api/app.py:184 | definition, no contract: the row of final values in `FEATURE_COLUMNS` order |
| Extract.ContentEntriesByStage | api/app.py:86-163 | the entries written by the `try` block are those of the stages ending before the first `urlparse` that raises |
| Extract.PageKeys | api/app.py:92-114 | the first stage writes exactly the columns of stage 1 |
| Extract.RedirectAndFormKeys | api/app.py:115-134 | the second stage writes exactly the columns of stage 2 |
| Extract.BodyKeys | api/app.py:136-149 | the third stage writes exactly the columns of stage 3 |
| Extract.AnchorKeys | api/app.py:151-163 | the fourth stage writes exactly the three anchor columns |
| Extract.ContentKeys | api/app.py:86-163 | the `try` block writes exactly the content columns of the stages it completes |
| Extract.ContentValues | api/app.py:86-163 | every entry written by the `try` block is its column's measure of the page |
| Extract.FeatureValueFromEntries | api/app.py:165-184 | each final column value is read from the written entries, from the lexical value, or is the 0 of the fill loops |
| Extract.AssignStage1 | api/app.py:92-114 | the assignments of stage 1 add the page entries to `features` |
| Extract.AssignStage2 | api/app.py:115-134 | the assignments of stage 2 add the redirect and form entries, and return the outcome of the form loop |
| Extract.AssignStage3 | api/app.py:136-149 | the assignments of stage 3 add the body entries |
| Extract.AssignStage4 | api/app.py:161-163 | the assignments of stage 4 add the anchor counters |
| Extract.AnalyseContent | api/app.py:86-165 | the `try` block adds exactly `ContentEntries` to `features`, and its `except` is taken exactly when fewer than four stages complete |
| Extract.FillMissing | api/app.py:176-182 | a fill loop adds every listed key that is missing with value 0, and changes no existing entry |
| Extract.FillAndSelect | api/app.py:165-184 | after both fill loops, selecting `FEATURE_COLUMNS` gives each column's entry, or 0 where there is none |
| Extract.SelectedEntries | api/app.py:165-184 | selecting from the lexical and content entries gives `FeatureVector` |
| Extract.SelectedUnion | api/app.py:180-184 | selecting from lexical entries overwritten by content entries reads each column's value in column order |
| Extract.ExtractFeatures | api/app.py:44-184 | the extractor returns `FeatureVector` for every URL that `urlparse` accepts, and raises (`None`) otherwise |
| Extract.CheckUrl | api/app.py:187-208 | a request without a `url` gets the 400; a URL whose extraction raises gets `safe`; otherwise the reply is the classifier's verdict on `FeatureVector` |
| Extract.PhishingOnlyOnPrediction | api/app.py:195-208 | a successful reply says `phishing` exactly for a positive prediction |
| Extract.LexicalPartOfRow | api/app.py:52-83 | the row has 47 columns, and its first 19 hold the lexical values whatever happens to the page |
| Extract.ContentPartOfRow | api/app.py:86-182 | once `n` stages complete, every content column before `StageEnd(n)` holds its measure and every later one holds 0 |
| Extract.FetchFailureZeroesContent | api/app.py:165-178 | when the fetch fails, all 28 content columns are 0 |
| Extract.ColumnIsFeatureValue | api/app.py:184 | the value at a column's position in the row is that column's final value |
| Extract.ReachedColumn | api/app.py:86-163 | a column of a completed stage holds its measure of the page |
| Extract.AnchorColumnsPartitionLinks | api/app.py:151-163 | when the anchor loop completes, `NoOfSelfRef`, `NoOfEmptyRef` and `NoOfExternalRef` add up to the number of anchors with an href |
| Extract.SelfRedirectsWithinRedirects | api/app.py:114-116 | `NoOfURLRedirect` is the length of the redirect chain, and `NoOfSelfRedirect` lies between 0 and it |
| Extract.RedirectValuesBounded | api/app.py:114-116 | for every fetch outcome, the final `NoOfSelfRedirect` lies between 0 and the final `NoOfURLRedirect` |
| Extract.SelfRedirectColumnsInRow | api/app.py:114-116 | in every row, the `NoOfSelfRedirect` column lies between 0 and the `NoOfURLRedirect` column, also when the redirect comprehension raised |
| Background.LoadingWebTab | extension/background.js:2 | definition, no contract: the guard that a tab starts loading a non-empty URL beginning with `http` |
| Background.AsksBackend | extension/background.js:4-16 | definition, no contract: the URL is present, its hostname parses and is not allow-listed |
| Background.ProceedHost | extension/background.js:54-59 | definition, no contract: the hostname a `proceedToUrl` message with a non-empty URL asks to allow, when it parses |
| Background.Allow | extension/background.js:66-68 | definition, no contract: `includes` then `push`, appending a hostname not yet present |
| Background.WarningPage | extension/background.js:40 | the warning page is the popup URL with `?url=` followed by the encoded blocked URL |
| Background.ServiceWorker.constructor | extension/background.js:10-11 | a fresh session has an empty allow-list |
| Background.ServiceWorker.OnNavigate | extension/background.js:1-50 | nothing happens unless a tab starts loading an `http` URL; the URL is posted exactly when its hostname parses and is not allow-listed; the tab is redirected to the warning page exactly when the posted URL gets an ok `phishing` reply |
| Background.ServiceWorker.OnMessage | extension/background.js:52-82 | the channel stays open exactly for `proceedToUrl`; a proceed with a URL whose hostname parses allow-lists that hostname, and sends the sender's tab to the URL; any other message changes nothing; a list free of duplicates stays so |
| Background.AllowContains | extension/background.js:66-68 | after allowing `h`, the list holds `h` and exactly the earlier entries |
| Background.AllowAppends | extension/background.js:66-68 | a hostname already present leaves the list unchanged; a new one is appended at the end, behind the earlier entries in their order |
| Background.AllowKeepsDistinct | extension/background.js:66-68 | allowing keeps the list free of duplicates |
| Background.AllowIdempotent | extension/background.js:66-68 | allowing the same hostname twice is the same as allowing it once |
| Background.ProceedSilencesHost | extension/background.js:13-68 | after a proceed, no later navigation to a URL with that hostname is sent to the backend |
| Background.AllowOnlySilences | extension/background.js:13-16 | allow-listing `h` stops the backend check for URLs with hostname `h` and for no others |

## Left out

- The network: the page fetch, the `robots.txt` fetch, the POST to the backend and the backend's reply are inputs. Timeouts, headers and redirect following are not modelled.
- BeautifulSoup: the parsed page is the `Page` record of what the extractor reads from it. HTML parsing and tag search are not modelled.
- `urlparse`, `tldextract` and `new URL(...).hostname` are inputs. Their parsing rules are not modelled. Their results (the netloc and scheme, the domain parts, the hostname, and whether they raise) are inputs too, and they feed `IsDomainIP`, `IsHTTPS`, the domain columns and every host comparison.
- Regular expressions and character classes are ASCII-only. `\w`, `\d`, `[a-zA-Z]` and `lower()` treat no non-ASCII character as a letter or a digit.
- Python floats are exact `real`s. Rounding of the ratios is not modelled.
- The classifier: `joblib` loading, the dummy model, `predict_proba` and the probability in the reply are left out. `model.predict` is the total `predict` input. A `predict` that raises, which would also answer `safe`, is not modelled.
- The Flask request layer: the request body is `Option<string>`. A `url` member that is not a string is not modelled.
- Logging: `print`, `traceback` and `console.log` produce no modelled effect.
- `extension/popup.js` is not part of this model.
- Chrome's APIs are one atomic step per handler. The asynchronous storage read and write can interleave between two events, and that race is not modelled. A message whose `sender.tab` is undefined is not modelled either.
- Extract.AnchorColumnsPartitionLinks: stated on the measures of the page rather than on the row's concrete column positions. `Extract.ReachedColumn` connects the two.
- Extract.SelfRedirectsWithinRedirects: stated on the measures of the page rather than on the row's concrete column positions. `Extract.SelfRedirectColumnsInRow` states the bound on every row, including one whose redirect comprehension raised.
