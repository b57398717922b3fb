/** Endpoint selection in the Next.js client (`helpers/getHost.ts`): the health-probe
    search over a comma-separated URL list, the fixed hostname-to-base-URL table of
    `getHost`, and the `getSiteUrl` / `getApiUrl` choices. The health probe is the
    predicate `reachable`: a probe that throws or answers non-ok is `false`. */
module GetHost {
  import opened Wrappers
  import Text
  import opened Web

  /** The answer of `getFirstReachableUrl`: the first URL, in list order, whose probe
      succeeds; `None` stands for `null`. */
  function FirstReachable(urls: seq<string>, reachable: string -> bool): Option<string>
    decreases |urls|
  {
    if urls == [] then None
    else if reachable(urls[0]) then Some(urls[0])
    else FirstReachable(urls[1..], reachable)
  }

  /** `getFirstReachableUrl`: probes the URLs one by one and returns at the first
      success. */
  method GetFirstReachableUrl(urls: seq<string>, reachable: string -> bool) returns (r: Option<string>)
    ensures r == FirstReachable(urls, reachable)
  {
    for i := 0 to |urls|
      invariant FirstReachable(urls[i..], reachable) == FirstReachable(urls, reachable)
    {
      assert urls[i..][1..] == urls[i + 1..];
      if reachable(urls[i]) {
        return Some(urls[i]);
      }
    }
    assert urls[|urls|..] == [];
    return None;
  }

  /** The search answers `null` exactly when no probe succeeds; otherwise it answers a
      listed URL whose probe succeeds and before which every probe failed. */
  lemma {:induction false} FirstReachableSpec(urls: seq<string>, reachable: string -> bool)
    ensures FirstReachable(urls, reachable) == None <==>
      forall i :: 0 <= i < |urls| ==> !reachable(urls[i])
    ensures FirstReachable(urls, reachable).Some? ==>
      exists i :: 0 <= i < |urls| && urls[i] == FirstReachable(urls, reachable).value
        && reachable(urls[i]) && forall j :: 0 <= j < i ==> !reachable(urls[j])
    decreases |urls|
  {
    if urls != [] && !reachable(urls[0]) {
      var rest := urls[1..];
      FirstReachableSpec(rest, reachable);
      assert forall i :: 0 < i < |urls| ==> urls[i] == rest[i - 1];
      if FirstReachable(rest, reachable).Some? {
        var i :| 0 <= i < |rest| && rest[i] == FirstReachable(rest, reachable).value
          && reachable(rest[i]) && forall j :: 0 <= j < i ==> !reachable(rest[j]);
        assert urls[i + 1] == rest[i];
      }
    }
  }

  /** A probe result can only send the search to an earlier URL: reachability is
      looked up only up to the first success. */
  lemma {:induction false} FirstReachablePrefix(urls: seq<string>, more: seq<string>, reachable: string -> bool)
    requires FirstReachable(urls, reachable).Some?
    ensures FirstReachable(urls + more, reachable) == FirstReachable(urls, reachable)
    decreases |urls|
  {
    if !reachable(urls[0]) {
      assert (urls + more)[1..] == urls[1..] + more;
      FirstReachablePrefix(urls[1..], more, reachable);
    }
  }

  // ---------------------------------------------------------------------------
  // getHost

  const PublicHost := "gpt.ilanel.co.il"
  const GptHost := "https://" + PublicHost
  const LocalApiHost := "http://localhost:8000"
  const LocalLanggraph := "http://127.0.0.1:8123"
  const LanggraphDefaultHost := "https://langgraph.ilanel.co.il"

  /** `process.env.LANGGRAPH_HOST_URL || 'https://langgraph.ilanel.co.il'`. */
  function LanggraphHost(env: ProcessEnv): string
  {
    EnvOr(env, "LANGGRAPH_HOST_URL", LanggraphDefaultHost)
  }

  /** `getHost` as written: in the browser the page hostname picks the local or the
      public API host; on the server the "langgraph-gui" purpose prefixes the
      configured host with "https://"; every other call gets the public API host. */
  function GetHost(w: Window, purpose: Option<string>, env: ProcessEnv): (r: string)
    ensures w.InBrowser? ==> (r == LocalApiHost <==> w.location.hostname == "localhost")
    ensures w.InBrowser? && r != LocalApiHost ==> r == GptHost
    ensures w.OnServer? && purpose != Some("langgraph-gui") ==> r == GptHost
    ensures w.OnServer? && purpose == Some("langgraph-gui") && Text.Contains(LanggraphHost(env), "localhost") ==>
              r == LocalLanggraph
    ensures w.OnServer? && purpose == Some("langgraph-gui") && !Text.Contains(LanggraphHost(env), "localhost") ==>
              r == "https://" + LanggraphHost(env)
  {
    if w.InBrowser? then
      if w.location.hostname == "localhost" then LocalApiHost else GptHost
    else if purpose == Some("langgraph-gui") then
      var host := LanggraphHost(env);
      if Text.Contains(host, "localhost") then LocalLanggraph else "https://" + host
    else
      GptHost
  }

  predicate HasScheme(s: string)
  {
    Text.StartsWith(s, "http://") || Text.StartsWith(s, "https://")
  }

  /** As written, a configured host that already carries a scheme (the default one
      does) gets a second one in front of it. */
  lemma SchemeDoubled(env: ProcessEnv)
    requires !Text.Contains(LanggraphHost(env), "localhost")
    requires HasScheme(LanggraphHost(env))
    ensures var r := GetHost(OnServer, Some("langgraph-gui"), env);
      Text.StartsWith(r, "https://") && HasScheme(r[8..])
  {
    var r := GetHost(OnServer, Some("langgraph-gui"), env);
    assert r == "https://" + LanggraphHost(env);
    assert r[8..] == LanggraphHost(env);
  }

  /** With LANGGRAPH_HOST_URL unset the result is the default host behind a second
      "https://": "https://https://langgraph.ilanel.co.il". */
  lemma DefaultHostDoubled(env: ProcessEnv)
    requires "LANGGRAPH_HOST_URL" !in env
    ensures GetHost(OnServer, Some("langgraph-gui"), env) == "https://" + LanggraphDefaultHost
  {
    DefaultHostNotLocal();
  }

  /** A text in which `sub`'s first character is never followed by its second holds no
      copy of `sub`. */
  lemma {:induction false} NoPairNoMatch(s: string, sub: string)
    requires |sub| >= 2
    requires forall i :: 0 <= i < |s| - 1 && s[i] == sub[0] ==> s[i + 1] != sub[1]
    ensures !Text.Contains(s, sub)
    decreases |s|
  {
    if |s| > 0 {
      if |s| >= |sub| && s[0] == sub[0] {
        assert s[..|sub|][1] != sub[1];
      }
      forall i | 0 <= i < |s[1..]| - 1 && s[1..][i] == sub[0]
        ensures s[1..][i + 1] != sub[1]
      {
        assert s[1..][i] == s[i + 1] && s[1..][i + 1] == s[i + 2];
      }
      NoPairNoMatch(s[1..], sub);
    }
  }

  /** The default langgraph host does not name localhost: none of its 'l's is followed
      by an 'o'. */
  lemma DefaultHostNotLocal()
    ensures !Text.Contains(LanggraphDefaultHost, "localhost")
  {
    var s := LanggraphDefaultHost;
    forall i | 0 <= i < |s| - 1 && s[i] == 'l'
      ensures s[i + 1] != 'o'
    {
    }
    NoPairNoMatch(s, "localhost");
  }

  lemma {:induction false} ShortNoMatch(s: string, sub: string)
    requires |s| < |sub|
    ensures !Text.Contains(s, sub)
    decreases |s|
  {
    if |s| > 0 {
      ShortNoMatch(s[1..], sub);
    }
  }

  /** A concrete input: LANGGRAPH_HOST_URL = "https://a" yields "https://https://a". */
  lemma SchemeDoubledExample()
    ensures GetHost(OnServer, Some("langgraph-gui"), map["LANGGRAPH_HOST_URL" := "https://a"])
      == "https://https://a"
  {
    var s := "https://a";
    ShortNoMatch(s[1..], "localhost");
    assert s[0] != 'l';
  }

  /** The langgraph address as evidently intended: a host that already names its
      scheme is used unchanged, any other host gets "https://". */
  function LanggraphUrl(host: string): (r: string)
    ensures HasScheme(r)
    ensures !Text.Contains(host, "localhost") && HasScheme(host) ==> r == host
    ensures !Text.Contains(host, "localhost") && !HasScheme(host) ==> Text.StripHttpScheme(r) == host
  {
    if Text.Contains(host, "localhost") then
      assert LocalLanggraph[..7] == "http://";
      LocalLanggraph
    else if HasScheme(host) then host
    else
      var r := "https://" + host;
      assert r[..8] == "https://";
      assert !Text.StartsWith(r, "http://") by { assert r[4] == 's'; }
      r
  }

  /** `getHost` with the langgraph address built by `LanggraphUrl`. */
  function CorrectedGetHost(w: Window, purpose: Option<string>, env: ProcessEnv): (r: string)
    ensures purpose != Some("langgraph-gui") || w.InBrowser? ==> r == GetHost(w, purpose, env)
  {
    if w.OnServer? && purpose == Some("langgraph-gui") then LanggraphUrl(LanggraphHost(env))
    else GetHost(w, purpose, env)
  }

  /** Corrected, the default host comes back unchanged, with its one scheme, instead of
      doubled. */
  lemma CorrectedDefaultHost(env: ProcessEnv)
    requires "LANGGRAPH_HOST_URL" !in env
    ensures var r := CorrectedGetHost(OnServer, Some("langgraph-gui"), env);
      HasScheme(r) && r == LanggraphDefaultHost
  {
    assert LanggraphDefaultHost[..8] == "https://";
    DefaultHostNotLocal();
  }

  // ---------------------------------------------------------------------------
  // getSiteUrl and getApiUrl

  const DefaultSiteUrls: seq<string> := ["https://wow.ilanel.co.il", "http://localhost:3000"]
  const DefaultApiUrls: seq<string> := ["https://gpt.ilanel.co.il", "http://localhost:8000"]

  /** The comma list a browser page reads for its choice: the variable, or the
      default list when it is unset or empty. */
  function UrlList(env: ProcessEnv, name: string, defaults: seq<string>): seq<string>
    requires |defaults| >= 1
  {
    Text.Split(EnvOr(env, name, Text.Join(defaults, ',')), ',')
  }

  /** The browser-side choice over a split list: the second entry on a localhost
      page (`undefined` when there is none), else the first reachable entry when
      it is truthy, else the first entry. */
  function ChooseUrl(urls: seq<string>, onLocalhost: bool, first: Option<string>): (r: Option<string>)
    requires |urls| >= 1
    ensures onLocalhost ==> (r.Some? <==> |urls| >= 2) && (r.Some? ==> r.value == urls[1])
    ensures !onLocalhost ==> r.Some?
    ensures !onLocalhost && first.Some? && first.value != "" ==> r == first
    ensures !onLocalhost && (first == None || first == Some("")) ==> r == Some(urls[0])
  {
    if onLocalhost then (if |urls| >= 2 then Some(urls[1]) else None)
    else if first.Some? && first.value != "" then first
    else Some(urls[0])
  }

  /** The browser branch of `getSiteUrl` / `getApiUrl` over one list; the probes run
      only off localhost. */
  method ChooseFromList(urls: seq<string>, onLocalhost: bool, reachable: string -> bool)
    returns (r: Option<string>)
    requires |urls| >= 1
    ensures r == ChooseUrl(urls, onLocalhost, if onLocalhost then None else FirstReachable(urls, reachable))
  {
    if onLocalhost {
      r := ChooseUrl(urls, true, None);
    } else {
      var first := GetFirstReachableUrl(urls, reachable);
      r := ChooseUrl(urls, false, first);
    }
  }

  /** The browser-side answer for one list, as a function. */
  function BrowserUrl(urls: seq<string>, loc: Location, reachable: string -> bool): Option<string>
    requires |urls| >= 1
  {
    var local := Text.Contains(loc.host, "localhost");
    ChooseUrl(urls, local, if local then None else FirstReachable(urls, reachable))
  }

  /** `getSiteUrl`: the choice over NEXT_PUBLIC_SITE_URL in the browser, "" elsewhere. */
  method GetSiteUrl(w: Window, env: ProcessEnv, reachable: string -> bool) returns (r: Option<string>)
    ensures w.OnServer? ==> r == Some("")
    ensures w.InBrowser? ==>
      r == BrowserUrl(UrlList(env, "NEXT_PUBLIC_SITE_URL", DefaultSiteUrls), w.location, reachable)
  {
    if w.InBrowser? {
      var urls := UrlList(env, "NEXT_PUBLIC_SITE_URL", DefaultSiteUrls);
      r := ChooseFromList(urls, Text.Contains(w.location.host, "localhost"), reachable);
    } else {
      r := Some("");
    }
  }

  /** `getApiUrl`: the choice over NEXT_PUBLIC_API_URL in the browser; on the server
      the variable itself, unsplit, or the public API host. */
  method GetApiUrl(w: Window, env: ProcessEnv, reachable: string -> bool) returns (r: Option<string>)
    ensures w.OnServer? ==> r == Some(EnvOr(env, "NEXT_PUBLIC_API_URL", GptHost))
    ensures w.InBrowser? ==>
      r == BrowserUrl(UrlList(env, "NEXT_PUBLIC_API_URL", DefaultApiUrls), w.location, reachable)
  {
    if w.InBrowser? {
      var urls := UrlList(env, "NEXT_PUBLIC_API_URL", DefaultApiUrls);
      r := ChooseFromList(urls, Text.Contains(w.location.host, "localhost"), reachable);
    } else {
      r := Some(EnvOr(env, "NEXT_PUBLIC_API_URL", GptHost));
    }
  }

  /** Off localhost the browser answer is always one of the listed URLs: the first
      reachable one when its probe succeeds, the first one when none does. */
  lemma BrowserUrlListed(urls: seq<string>, loc: Location, reachable: string -> bool)
    requires |urls| >= 1 && !Text.Contains(loc.host, "localhost")
    ensures var r := BrowserUrl(urls, loc, reachable);
      && r.Some? && r.value in urls
      && ((forall i :: 0 <= i < |urls| ==> !reachable(urls[i])) ==> r == Some(urls[0]))
      && (r.value != urls[0] ==> reachable(r.value))
  {
    FirstReachableSpec(urls, reachable);
  }

  /** An unset variable gives the two default entries, in order. */
  lemma DefaultSiteList(env: ProcessEnv)
    requires "NEXT_PUBLIC_SITE_URL" !in env
    ensures UrlList(env, "NEXT_PUBLIC_SITE_URL", DefaultSiteUrls) == DefaultSiteUrls
  {
    Text.SplitJoin(DefaultSiteUrls, ',');
  }

  lemma DefaultApiList(env: ProcessEnv)
    requires "NEXT_PUBLIC_API_URL" !in env
    ensures UrlList(env, "NEXT_PUBLIC_API_URL", DefaultApiUrls) == DefaultApiUrls
  {
    Text.SplitJoin(DefaultApiUrls, ',');
  }

  /** A localhost page with the default lists gets the local site and API servers. */
  lemma LocalhostDefaults(loc: Location, env: ProcessEnv, reachable: string -> bool)
    requires "NEXT_PUBLIC_SITE_URL" !in env && "NEXT_PUBLIC_API_URL" !in env
    requires Text.Contains(loc.host, "localhost")
    ensures BrowserUrl(UrlList(env, "NEXT_PUBLIC_SITE_URL", DefaultSiteUrls), loc, reachable)
      == Some("http://localhost:3000")
    ensures BrowserUrl(UrlList(env, "NEXT_PUBLIC_API_URL", DefaultApiUrls), loc, reachable)
      == Some("http://localhost:8000")
  {
    DefaultSiteList(env);
    DefaultApiList(env);
  }

  /** A variable naming one URL only leaves a localhost page with `undefined`. */
  lemma SingleUrlOnLocalhost(loc: Location, url: string, reachable: string -> bool)
    requires ',' !in url && Text.Contains(loc.host, "localhost")
    ensures BrowserUrl(Text.Split(url, ','), loc, reachable) == None
  {
    Text.SplitPlain(url, ',');
  }
}
