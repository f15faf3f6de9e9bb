/** The extension's service worker (extension/background.js): the session
    allow-list of hostnames, the navigation handler that asks the backend
    about every page a tab starts loading, and the `proceedToUrl` message
    handler by which the warning page lets the user through. Each handler is
    one atomic step; hostname parsing, the backend's reply and
    `encodeURIComponent` are inputs. */
module Background {
  import opened Wrappers
  import opened Text

  /** `new URL(u).hostname`, or `None` when the constructor throws. */
  type HostnameParser = string -> Option<string>

  /** The `changeInfo` and `tab` arguments of `chrome.tabs.onUpdated`, with
      the properties the handler reads; an absent property is `None`. */
  datatype ChangeInfo = ChangeInfo(status: Option<string>, url: Option<string>)
  datatype Tab = Tab(url: Option<string>)

  /** The outcome of the `fetch` to `/check_url`: the request rejects, or a
      response arrives with its `ok` flag and the `status` field of its JSON
      body (`None` when the body does not parse or has no such field). */
  datatype Reply = Rejected | Response(ok: bool, status: Option<string>)

  /** `chrome.tabs.update(tabId, { url })` */
  datatype TabUpdate = TabUpdate(tabId: int, url: string)

  /** What one run of the navigation handler does to the outside world: the
      URL it posts to the backend, if any, and the tab update it issues, if
      any. */
  datatype Effects = Effects(request: Option<string>, update: Option<TabUpdate>)

  /** The message the warning page sends: its `action` and `url` properties. */
  datatype Message = Message(action: Option<string>, url: Option<string>)

  /** Line 2: the handler acts only on a tab that starts loading a URL
      beginning with `http`. */
  predicate LoadingWebTab(change: ChangeInfo, tab: Tab) {
    change.status == Some("loading") && tab.url.Some? && tab.url.value != "" && StartsWith(tab.url.value, "http")
  }

  /** Lines 4-16: the handler goes on to ask the backend about `url` exactly
      when its hostname parses and is not on the allow-list. */
  predicate AsksBackend(allowed: seq<string>, url: Option<string>, hostname: HostnameParser) {
    url.Some? && hostname(url.value).Some? && hostname(url.value).value !in allowed
  }

  /** Line 36: the verdict that triggers the redirect. */
  predicate FlagsPhishing(reply: Reply) {
    reply.Response? && reply.ok && reply.status == Some("phishing")
  }

  /** Line 40: the warning page, with the blocked URL as its query. */
  function WarningPage(popupUrl: string, encode: string -> string, url: string): (page: string)
    ensures StartsWith(page, popupUrl + "?url=")
    ensures page[|popupUrl| + 5..] == encode(url)
  {
    popupUrl + "?url=" + encode(url)
  }

  /** Lines 54-59: the hostname a message asks to allow: only a
      `proceedToUrl` with a non-empty `url` whose hostname parses. */
  function ProceedHost(message: Message, hostname: HostnameParser): Option<string> {
    if message.action == Some("proceedToUrl") && message.url.Some? && message.url.value != "" then
      hostname(message.url.value)
    else None
  }

  /** Lines 66-68: `if (!list.includes(h)) list.push(h)` */
  function Allow(list: seq<string>, h: string): seq<string> {
    if h in list then list else list + [h]
  }

  predicate NoDuplicates(list: seq<string>) {
    forall i, j :: 0 <= i < j < |list| ==> list[i] != list[j]
  }

  class ServiceWorker {
    /** `chrome.storage.session`'s `allowedHostnames`; a missing entry reads
        as `[]` (lines 11 and 63). */
    var allowedHostnames: seq<string>

    ghost predicate Valid()
      reads this
    {
      NoDuplicates(allowedHostnames)
    }

    /** A fresh session holds no allow-list. */
    constructor ()
      ensures allowedHostnames == [] && Valid()
    {
      allowedHostnames := [];
    }

    /** The `chrome.tabs.onUpdated` listener (lines 1-50). It reads the
        allow-list and changes nothing in it. */
    method OnNavigate(tabId: int, change: ChangeInfo, tab: Tab, hostname: HostnameParser,
                      backend: string -> Reply, popupUrl: string, encode: string -> string)
      returns (effects: Effects)
      ensures !LoadingWebTab(change, tab) ==> effects == Effects(None, None)
      ensures effects.request.Some? <==> LoadingWebTab(change, tab) && AsksBackend(allowedHostnames, change.url, hostname)
      ensures effects.request.Some? ==> effects.request.value == change.url.value
      ensures effects.update.Some? <==> effects.request.Some? && FlagsPhishing(backend(change.url.value))
      ensures effects.update.Some? ==> effects.update.value == TabUpdate(tabId, WarningPage(popupUrl, encode, change.url.value))
    {
      effects := Effects(None, None);
      if !LoadingWebTab(change, tab) {
        return;
      }
      // `changeInfo.url` is undefined when the URL did not change, and then
      // `new URL(undefined)` throws into the `catch`.
      var currentUrl := change.url;
      if currentUrl.None? {
        return;
      }
      var host := hostname(currentUrl.value);
      if host.None? {
        return;
      }
      if host.value in allowedHostnames {
        return;
      }
      effects := Effects(Some(currentUrl.value), None);
      var reply := backend(currentUrl.value);
      if reply.Rejected? || !reply.ok {
        return;
      }
      if reply.status == Some("phishing") {
        effects := effects.(update := Some(TabUpdate(tabId, WarningPage(popupUrl, encode, currentUrl.value))));
      }
    }

    /** The `chrome.runtime.onMessage` listener (lines 52-82). It answers
        `true` (the channel stays open) for every `proceedToUrl` message; for
        one with a URL whose hostname parses it allow-lists the hostname and
        sends the warning page's tab on to the URL. */
    method OnMessage(message: Message, senderTabId: int, hostname: HostnameParser)
      returns (keepOpen: bool, update: Option<TabUpdate>)
      requires Valid()
      modifies this
      ensures keepOpen <==> message.action == Some("proceedToUrl")
      ensures allowedHostnames == match ProceedHost(message, hostname)
                                  case Some(h) => Allow(old(allowedHostnames), h)
                                  case None => old(allowedHostnames)
      ensures update == if ProceedHost(message, hostname).Some?
                        then Some(TabUpdate(senderTabId, message.url.value)) else None
      ensures Valid()
    {
      keepOpen, update := false, None;
      if message.action != Some("proceedToUrl") {
        return;
      }
      keepOpen := true;
      var urlToAllow := message.url;
      if urlToAllow.None? || urlToAllow.value == "" {
        return;
      }
      // Inside the `async` block a throwing `new URL` rejects its promise
      // before anything is stored.
      var host := hostname(urlToAllow.value);
      if host.None? {
        return;
      }
      var list := allowedHostnames;
      if host.value !in list {
        list := list + [host.value];
      }
      AllowKeepsDistinct(allowedHostnames, host.value);
      allowedHostnames := list;
      update := Some(TabUpdate(senderTabId, urlToAllow.value));
    }
  }

  // ---------------------------------------------------------------------------
  // The allow-list

  /** After allowing `h` the list contains `h`, and exactly the earlier
      entries besides. */
  lemma AllowContains(list: seq<string>, h: string)
    ensures h in Allow(list, h)
    ensures forall x :: x in Allow(list, h) <==> x in list || x == h
  {
  }

  /** A hostname already present leaves the list as it was; a new one goes at
      the end, behind all earlier entries in their order. */
  lemma AllowAppends(list: seq<string>, h: string)
    ensures h in list ==> Allow(list, h) == list
    ensures h !in list ==> |Allow(list, h)| == |list| + 1 && Allow(list, h)[|list|] == h
    ensures |list| <= |Allow(list, h)| && Allow(list, h)[..|list|] == list
  {
  }

  /** Allowing keeps the list free of duplicates. */
  lemma AllowKeepsDistinct(list: seq<string>, h: string)
    requires NoDuplicates(list)
    ensures NoDuplicates(Allow(list, h))
  {
    if h !in list {
      var r := list + [h];
      forall i, j | 0 <= i < j < |r|
        ensures r[i] != r[j]
      {
        if j == |list| {
          assert r[i] == list[i];
        }
      }
    }
  }

  /** Allowing the same hostname twice is allowing it once. */
  lemma AllowIdempotent(list: seq<string>, h: string)
    ensures Allow(Allow(list, h), h) == Allow(list, h)
  {
  }

  // ---------------------------------------------------------------------------
  // The two handlers together

  /** Once the user proceeds to a URL, a later navigation to any URL with the
      same hostname is not sent to the backend again, so it is never
      redirected to the warning page. */
  lemma ProceedSilencesHost(allowed: seq<string>, message: Message, url: Option<string>, hostname: HostnameParser)
    requires ProceedHost(message, hostname).Some?
    requires url.Some? && hostname(url.value) == ProceedHost(message, hostname)
    ensures !AsksBackend(Allow(allowed, ProceedHost(message, hostname).value), url, hostname)
  {
    AllowContains(allowed, ProceedHost(message, hostname).value);
  }

  /** Allow-listing never makes the navigation handler ask about a URL it did
      not ask about before, and it stops asking only about the allowed
      hostname. */
  lemma AllowOnlySilences(allowed: seq<string>, h: string, url: Option<string>, hostname: HostnameParser)
    ensures AsksBackend(Allow(allowed, h), url, hostname) <==>
              AsksBackend(allowed, url, hostname) && hostname(url.value) != Some(h)
  {
    AllowContains(allowed, h);
  }
}
