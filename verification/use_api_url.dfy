/** The `useApiUrl` hook (`hooks/useApiUrl.js`): the API base URL a component reads.
    It starts as "" and is set once, by an effect with an empty dependency list, to
    the answer of `determineApiUrl`. */
module UseApiUrl {
  import opened Wrappers
  import opened Web
  import Text
  import GetHost
  import UseWebSocket

  /** `determineApiUrl`: the two known page hostnames have fixed answers, every other
      page (and the server) takes NEXT_PUBLIC_API_URL or the public API host. */
  function DetermineApiUrl(w: Window, env: ProcessEnv): (r: string)
    ensures r != ""
    ensures w.InBrowser? && w.location.hostname == "localhost" ==> r == GetHost.LocalApiHost
    ensures w.InBrowser? && w.location.hostname == "wow.ilanel.co.il" ==> r == GetHost.GptHost
    ensures !(w.InBrowser? && w.location.hostname in {"localhost", "wow.ilanel.co.il"}) ==>
      r == EnvOr(env, "NEXT_PUBLIC_API_URL", GetHost.GptHost)
  {
    if w.InBrowser? && w.location.hostname == "localhost" then GetHost.LocalApiHost
    else if w.InBrowser? && w.location.hostname == "wow.ilanel.co.il" then GetHost.GptHost
    else EnvOr(env, "NEXT_PUBLIC_API_URL", GetHost.GptHost)
  }

  /** The REST base URL and the socket address name the same server: stripping the
      scheme from the API URL gives the socket's host (the socket is secure on the
      public site and follows the page elsewhere), unless the variable holds a bare
      scheme. */
  lemma SameServerAsSocket(loc: Location, env: ProcessEnv)
    requires "NEXT_PUBLIC_API_URL" in env && env["NEXT_PUBLIC_API_URL"] != "" ==>
      Text.StripHttpScheme(env["NEXT_PUBLIC_API_URL"]) != ""
    ensures var scheme := if loc.hostname == "wow.ilanel.co.il" then "wss:" else WsScheme(loc);
      UseWebSocket.DetermineWebSocketUrl(InBrowser(loc), None, env)
        == Some(UseWebSocket.SocketUrl(scheme, Text.StripHttpScheme(DetermineApiUrl(InBrowser(loc), env))))
  {
    var api := DetermineApiUrl(InBrowser(loc), env);
    if loc.hostname == "localhost" {
      LocalApiHostStripped();
    } else if api == GetHost.GptHost {
      GptHostStripped();
    }
  }

  lemma LocalApiHostStripped()
    ensures Text.StripHttpScheme(GetHost.LocalApiHost) == "localhost:8000"
  {
    var api := GetHost.LocalApiHost;
    assert Text.StartsWith(api, "http://") by { assert api[..7] == "http://"; }
  }

  lemma GptHostStripped()
    ensures Text.StripHttpScheme(GetHost.GptHost) == "gpt.ilanel.co.il"
  {
    var api := GetHost.GptHost;
    assert Text.StartsWith(api, "https://") by { assert api[..8] == "https://"; }
    assert !Text.StartsWith(api, "http://") by { assert api[4] == 's'; }
  }

  /** The hook's state across renders of one component. */
  class ApiUrlHook {
    /** The `apiUrl` state variable. */
    var apiUrl: string
    /** Whether the mount effect has run. */
    var mounted: bool

    /** "" until the effect has run, never "" afterwards. */
    predicate Valid()
      reads this
    {
      (!mounted ==> apiUrl == "") && (mounted ==> apiUrl != "")
    }

    /** The first render: `useState('')`. */
    constructor()
      ensures Valid() && !mounted && apiUrl == ""
    {
      apiUrl := "";
      mounted := false;
    }

    /** What a render returns. */
    function Current(): (r: string)
      reads this
      requires Valid()
      ensures r == "" <==> !mounted
    {
      apiUrl
    }

    /** The effect after a render: with an empty dependency list only the first one
        runs `setApiUrl(determineApiUrl())`; later renders keep the value. */
    method AfterRender(w: Window, env: ProcessEnv)
      requires Valid()
      modifies this
      ensures Valid() && mounted
      ensures !old(mounted) ==> apiUrl == DetermineApiUrl(w, env)
      ensures old(mounted) ==> apiUrl == old(apiUrl)
    {
      if !mounted {
        apiUrl := DetermineApiUrl(w, env);
        mounted := true;
      }
    }
  }

  /** Whatever the later windows and environments, the URL fixed at mount stays. */
  method RenderTwice(w1: Window, env1: ProcessEnv, w2: Window, env2: ProcessEnv)
    returns (first: string, second: string)
    ensures first == second == DetermineApiUrl(w1, env1)
  {
    var hook := new ApiUrlHook();
    hook.AfterRender(w1, env1);
    first := hook.Current();
    hook.AfterRender(w2, env2);
    second := hook.Current();
  }
}
