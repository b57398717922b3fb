/** The simpler research panel (frontend/nextjs/components/Settings/ChatBox.tsx): it opens
    its own socket once, on mount, and folds three message kinds into three pieces of
    component state. */
module ChatBox {
  import opened Wrappers
  import opened Json
  import Js
  import Web
  import Text
  import UseWebSocket

  // ---------------------------------------------------------------- socket address

  predicate IsAuthorityEnd(c: char)
  {
    c == '/' || c == '?' || c == '#'
  }

  /** The authority part of a URL after its `//`: everything up to the first `/`, `?` or `#`. */
  function Authority(s: string): (r: string)
    ensures Text.StartsWith(s, r)
    ensures forall i :: 0 <= i < |r| ==> !IsAuthorityEnd(r[i])
    ensures |r| < |s| ==> IsAuthorityEnd(s[|r|])
    decreases |s|
  {
    if s == [] || IsAuthorityEnd(s[0]) then [] else [s[0]] + Authority(s[1..])
  }

  /** Drops the scheme's default port, as the URL parser does. */
  function WithoutDefaultPort(authority: string, port: string): string
  {
    if |port| <= |authority| && authority[|authority| - |port|..] == port
    then authority[..|authority| - |port|]
    else authority
  }

  /** `new URL(apiUrl).host` for http and https URLs; `None` when the constructor throws. */
  function UrlHost(url: string): (r: Option<string>)
    ensures r.Some? ==> Text.StartsWith(url, "http://") || Text.StartsWith(url, "https://")
  {
    var https := Text.StartsWith(url, "https://");
    var http := Text.StartsWith(url, "http://");
    if !https && !http then None
    else
      var authority := Authority(if https then url[8..] else url[7..]);
      if authority == "" then None
      else Some(WithoutDefaultPort(authority, if https then ":443" else ":80"))
  }

  /** `${wsProtocol}//${new URL(apiUrl).host}/ws`; `None` when the URL constructor throws. */
  function WsUrl(loc: Web.Location, apiUrl: string): Option<string>
  {
    match UrlHost(apiUrl)
    case None => None
    case Some(host) => Some(UseWebSocket.SocketUrl(Web.WsScheme(loc), host))
  }

  /** The panel's socket is secure exactly on an https page, names the `/ws` endpoint, and
      carries the API URL's authority; an API URL without an http(s) scheme makes the
      setup throw before any socket exists. */
  lemma WsUrlShape(loc: Web.Location, apiUrl: string)
    ensures WsUrl(loc, apiUrl).None? <==> UrlHost(apiUrl).None?
    ensures var r := WsUrl(loc, apiUrl);
      r.Some? ==>
        && |r.value| >= 3 && r.value[|r.value| - 3..] == "/ws"
        && (Text.StartsWith(r.value, "wss:") <==> loc.protocol == "https:")
        && r.value == Web.WsScheme(loc) + "//" + UrlHost(apiUrl).value + "/ws"
  {
    if UrlHost(apiUrl).Some? {
      UseWebSocket.SocketUrlShape(Web.WsScheme(loc), UrlHost(apiUrl).value);
    }
  }

  /** An API URL made of a scheme and a bare host (such as the defaults
      `https://gpt.ilanel.co.il` and `http://localhost:8000`) yields that host, with only
      the scheme's default port removed. */
  lemma BareHost(https: bool, host: string)
    requires host != "" && forall i :: 0 <= i < |host| ==> !IsAuthorityEnd(host[i])
    ensures var port := if https then ":443" else ":80";
      UrlHost((if https then "https://" else "http://") + host) == Some(WithoutDefaultPort(host, port))
  {
    var scheme := if https then "https://" else "http://";
    var url := scheme + host;
    assert Text.StartsWith(url, scheme);
    if https {
      assert url[8..] == host;
    } else {
      assert url[4] == ':';
      assert url[7..] == host;
    }
    AuthorityWhole(host);
  }

  lemma {:induction false} AuthorityWhole(s: string)
    requires forall i :: 0 <= i < |s| ==> !IsAuthorityEnd(s[i])
    ensures Authority(s) == s
    decreases |s|
  {
    if s != [] {
      AuthorityWhole(s[1..]);
    }
  }

  // ---------------------------------------------------------------- message handler

  /** The three pieces of state the handler writes. */
  datatype Panels = Panels(agentLogs: seq<Json>, report: string, accessData: Json)

  /** The `onmessage` handler; `None` when it throws (there is no `try`: a frame that is not
      JSON, or is `null`, escapes as an error and no setter runs). */
  function Handle(p: Panels, text: string): Option<Panels>
  {
    match Decode(text)
    case None => None
    case Some(data) =>
      if data.JNull? then None
      else
        var kind := Js.GetProp(data, "type");
        if Js.IsString(kind, "logs") then Some(p.(agentLogs := p.agentLogs + [data]))
        else if Js.IsString(kind, "report") then Some(p.(report := p.report + Js.ToStr(Js.GetProp(data, "output"))))
        else if Js.IsString(kind, "path") then Some(p.(accessData := data))
        else Some(p)
  }

  /** A frame that is not JSON, or is `null`, throws out of the handler. */
  lemma UnparsableThrows(p: Panels, text: string)
    ensures Handle(p, text).None? <==> Decode(text).None? || Decode(text) == Some(JNull)
  {
  }

  /** Each message kind touches exactly its own piece of state: "logs" appends the whole
      message once after the earlier entries, "report" appends the `output` text, "path"
      replaces the access data with the whole message, and any other kind changes nothing. */
  lemma MessageKinds(p: Panels, text: string)
    requires Decode(text).Some? && !Decode(text).value.JNull?
    ensures var data := Decode(text).value;
      var kind := Js.GetProp(data, "type");
      var r := Handle(p, text);
      && r.Some?
      && (Js.IsString(kind, "logs") ==>
            |r.value.agentLogs| == |p.agentLogs| + 1 && r.value.agentLogs[..|p.agentLogs|] == p.agentLogs
            && r.value.agentLogs[|p.agentLogs|] == data
            && r.value.report == p.report && r.value.accessData == p.accessData)
      && (Js.IsString(kind, "report") ==>
            r.value.report == p.report + Js.ToStr(Js.GetProp(data, "output"))
            && r.value.agentLogs == p.agentLogs && r.value.accessData == p.accessData)
      && (Js.IsString(kind, "path") ==>
            r.value.accessData == data && r.value.agentLogs == p.agentLogs && r.value.report == p.report)
      && (!Js.IsString(kind, "logs") && !Js.IsString(kind, "report") && !Js.IsString(kind, "path") ==>
            r.value == p)
  {
    var data := Decode(text).value;
    if Js.IsString(Js.GetProp(data, "type"), "logs") {
      assert Handle(p, text).value.agentLogs == p.agentLogs + [data];
    }
  }

  // ---------------------------------------------------------------- the component

  /** The component's state: the three panels and the socket it stores. */
  class ChatBoxView {
    var agentLogs: seq<Json>
    var report: string
    var accessData: Json
    var hasSocket: bool
    var socketUrl: string
    /** The component has not closed the socket. A socket it has just created is still
        connecting, so this does not mean its readyState is OPEN. */
    var socketOpen: bool
    var mounted: bool

    function State(): Panels
      reads this
    {
      Panels(agentLogs, report, accessData)
    }

    /** `useState([])`, `useState("")`, `useState({})`, `useState(null)`. */
    constructor ()
      ensures State() == Panels([], "", JObj([])) && !hasSocket && !socketOpen && !mounted
    {
      agentLogs, report, accessData := [], "", JObj([]);
      hasSocket, socketUrl, socketOpen, mounted := false, "", false, false;
    }

    /** The mount effect (dependencies `[]`, so it runs once): in the browser, open a socket
        to the API host; `apiUrl` is what `getApiUrl()` resolved to. */
    method Mount(w: Web.Window, apiUrl: string) returns (rejected: bool)
      requires !mounted
      modifies this
      ensures mounted && State() == old(State())
      ensures rejected <==> w.InBrowser? && WsUrl(w.location, apiUrl).None?
      ensures w.InBrowser? && !rejected ==>
                hasSocket && socketOpen && Some(socketUrl) == WsUrl(w.location, apiUrl)
      ensures w.OnServer? || rejected ==>
                hasSocket == old(hasSocket) && socketOpen == old(socketOpen) && socketUrl == old(socketUrl)
    {
      mounted := true;
      rejected := false;
      if w.InBrowser? {
        var url := WsUrl(w.location, apiUrl);
        if url.None? {
          // `new URL(apiUrl)` throws and the promise of `setupWebSocket` rejects
          rejected := true;
        } else {
          socketUrl := url.value;
          hasSocket, socketOpen := true, true;
        }
      }
    }

    /** One frame arrives on the socket. */
    method Receive(text: string) returns (threw: bool)
      modifies this
      ensures threw <==> Handle(old(State()), text).None?
      ensures !threw ==> State() == Handle(old(State()), text).value
      ensures threw ==> State() == old(State())
      ensures hasSocket == old(hasSocket) && socketOpen == old(socketOpen) && socketUrl == old(socketUrl)
      ensures mounted == old(mounted)
    {
      var parsed := Decode(text);
      if parsed.None? || parsed.value.JNull? {
        return true;
      }
      threw := false;
      var data := parsed.value;
      var kind := Js.GetProp(data, "type");
      if Js.IsString(kind, "logs") {
        agentLogs := agentLogs + [data];
      } else if Js.IsString(kind, "report") {
        report := report + Js.ToStr(Js.GetProp(data, "output"));
      } else if Js.IsString(kind, "path") {
        accessData := data;
      }
    }

    /** Unmount. The close function is returned from the async `setupWebSocket`, not from
        the effect, so React holds no cleanup and the socket stays open. */
    method Unmount()
      requires mounted
      modifies this
      ensures !mounted && State() == old(State())
      ensures hasSocket == old(hasSocket) && socketOpen == old(socketOpen) && socketUrl == old(socketUrl)
    {
      mounted := false;
    }
  }
}
