/** The older JavaScript copy of the endpoint helpers (`helpers/getHost.js`). Its
    probe search is the same as in `GetHost`; `getHost` differs: the public host is
    plain http, the server branch tests the misspelt purpose "langraph-gui" and then
    reads a variable `host` that is never declared, and every other server call falls
    off the end of the async function. */
module GetHostJs {
  import opened Wrappers
  import Text
  import opened Web
  import GetHost

  /** How the promise an async function returns settles. */
  datatype Settled = Resolved(value: string) | ResolvedUndefined | Rejected(error: string)

  const PlainGptHost := "http://" + GetHost.PublicHost

  /** `getHost` of the JavaScript copy. */
  function GetHostJs(w: Window, purpose: Option<string>): (r: Settled)
    ensures r.Resolved? <==> w.InBrowser?
    ensures r.Rejected? <==> w.OnServer? && purpose == Some("langraph-gui")
    ensures r.Resolved? ==> Text.StartsWith(r.value, "http://")
    ensures r.Resolved? ==> (r.value == GetHost.LocalApiHost <==> w.location.hostname == "localhost")
  {
    if w.InBrowser? then
      if w.location.hostname == "localhost" then
        assert GetHost.LocalApiHost[..7] == "http://";
        Resolved(GetHost.LocalApiHost)
      else
        assert PlainGptHost[..7] == "http://";
        assert PlainGptHost[7] != GetHost.LocalApiHost[7];
        Resolved(PlainGptHost)
    else if purpose == Some("langraph-gui") then
      Rejected("ReferenceError: host is not defined")
    else
      ResolvedUndefined
  }

  /** In the browser the two copies agree on localhost pages and otherwise name the
      same host, the JavaScript copy over plain http. */
  lemma BrowserHostsAgree(loc: Location, purpose: Option<string>, env: ProcessEnv)
    ensures var ts := GetHost.GetHost(InBrowser(loc), purpose, env);
      var js := GetHostJs(InBrowser(loc), purpose);
      js.Resolved?
      && (loc.hostname == "localhost" ==> js.value == ts)
      && (loc.hostname != "localhost" ==>
            ts == "https://" + GetHost.PublicHost && js.value == "http://" + GetHost.PublicHost)
  {
  }

  /** The spelling the TypeScript copy tests, "langgraph-gui", does not match here:
      such a server call resolves to `undefined`. */
  lemma LanggraphSpellingUndefined()
    ensures GetHostJs(OnServer, Some("langgraph-gui")) == ResolvedUndefined
  {
    var correct := "langgraph-gui";
    assert correct[4] != "langraph-gui"[4];
  }

  const DefaultSiteUrls: seq<string> := ["http://wow.ilanel.co.il", "http://localhost:3000"]
  const DefaultApiUrls: seq<string> := ["http://gpt.ilanel.co.il", "http://localhost:8000"]

  /** Both default lists name plain-http servers only. */
  lemma DefaultsPlainHttp()
    ensures forall i :: 0 <= i < |DefaultSiteUrls| ==> Text.StartsWith(DefaultSiteUrls[i], "http://")
    ensures forall i :: 0 <= i < |DefaultApiUrls| ==> Text.StartsWith(DefaultApiUrls[i], "http://")
  {
    assert DefaultSiteUrls[0][..7] == "http://" && DefaultSiteUrls[1][..7] == "http://";
    assert DefaultApiUrls[0][..7] == "http://" && DefaultApiUrls[1][..7] == "http://";
  }

  /** `getSiteUrl` of the JavaScript copy: "" outside the browser. */
  method GetSiteUrl(w: Window, env: ProcessEnv, reachable: string -> bool) returns (r: Option<string>)
    ensures w.OnServer? ==> r == Some("")
    ensures w.InBrowser? ==> r == GetHost.BrowserUrl(
      GetHost.UrlList(env, "NEXT_PUBLIC_SITE_URL", DefaultSiteUrls), w.location, reachable)
  {
    if w.InBrowser? {
      var urls := GetHost.UrlList(env, "NEXT_PUBLIC_SITE_URL", DefaultSiteUrls);
      r := GetHost.ChooseFromList(urls, Text.Contains(w.location.host, "localhost"), reachable);
    } else {
      r := Some("");
    }
  }

  /** `getApiUrl` of the JavaScript copy: "" outside the browser as well. */
  method GetApiUrl(w: Window, env: ProcessEnv, reachable: string -> bool) returns (r: Option<string>)
    ensures w.OnServer? ==> r == Some("")
    ensures w.InBrowser? ==> r == GetHost.BrowserUrl(
      GetHost.UrlList(env, "NEXT_PUBLIC_API_URL", DefaultApiUrls), w.location, reachable)
  {
    if w.InBrowser? {
      var urls := GetHost.UrlList(env, "NEXT_PUBLIC_API_URL", DefaultApiUrls);
      r := GetHost.ChooseFromList(urls, Text.Contains(w.location.host, "localhost"), reachable);
    } else {
      r := Some("");
    }
  }

  /** With the variables unset, every browser answer is a plain-http default server. */
  lemma DefaultAnswersPlainHttp(loc: Location, env: ProcessEnv, reachable: string -> bool)
    requires "NEXT_PUBLIC_SITE_URL" !in env && "NEXT_PUBLIC_API_URL" !in env
    ensures var site := GetHost.BrowserUrl(
        GetHost.UrlList(env, "NEXT_PUBLIC_SITE_URL", DefaultSiteUrls), loc, reachable);
      site.Some? && site.value in DefaultSiteUrls
    ensures var api := GetHost.BrowserUrl(
        GetHost.UrlList(env, "NEXT_PUBLIC_API_URL", DefaultApiUrls), loc, reachable);
      api.Some? && api.value in DefaultApiUrls
  {
    SiteList(env);
    ApiList(env);
    if !Text.Contains(loc.host, "localhost") {
      GetHost.BrowserUrlListed(DefaultSiteUrls, loc, reachable);
      GetHost.BrowserUrlListed(DefaultApiUrls, loc, reachable);
    }
  }

  lemma SiteList(env: ProcessEnv)
    requires "NEXT_PUBLIC_SITE_URL" !in env
    ensures GetHost.UrlList(env, "NEXT_PUBLIC_SITE_URL", DefaultSiteUrls) == DefaultSiteUrls
  {
    Text.SplitJoin(DefaultSiteUrls, ',');
  }

  lemma ApiList(env: ProcessEnv)
    requires "NEXT_PUBLIC_API_URL" !in env
    ensures GetHost.UrlList(env, "NEXT_PUBLIC_API_URL", DefaultApiUrls) == DefaultApiUrls
  {
    Text.SplitJoin(DefaultApiUrls, ',');
  }
}
