/** The browser side of a research session (frontend/nextjs/hooks/useWebSocket.ts):
    choosing the socket address, sending the start envelope, the heartbeat, the
    five-minute close timer, bounded reconnection, and the message reducer that feeds
    the page's ordered event list, answer text, loading flag and feedback panel. */
module UseWebSocket {
  import opened Wrappers
  import opened Json
  import Js
  import Web
  import Text

  const MaxReconnectAttempts := 3
  /** Milliseconds before an open socket is closed, whatever traffic it carries. */
  const SocketTimeout := 300000
  /** Milliseconds between two keep-alive pings. */
  const HeartbeatPeriod := 30000
  /** A retry after the n-th consecutive error waits n times this many milliseconds. */
  const RetryDelayUnit := 1000

  // ---------------------------------------------------------------- address

  /** `process.env.NEXT_PUBLIC_API_URL?.replace(/^https?:\/\//, '') || 'gpt.ilanel.co.il'` */
  function ApiHostFromEnv(env: Web.ProcessEnv): (r: string)
    ensures r != ""
  {
    if "NEXT_PUBLIC_API_URL" in env && Text.StripHttpScheme(env["NEXT_PUBLIC_API_URL"]) != ""
    then Text.StripHttpScheme(env["NEXT_PUBLIC_API_URL"])
    else "gpt.ilanel.co.il"
  }

  /** The address for the LangGraph GUI: its host from `LANGGRAPH_HOST_URL`, or the local
      LangGraph server when that host mentions localhost. */
  function LanggraphWebSocketUrl(w: Web.Window, env: Web.ProcessEnv): string
  {
    var host := Web.EnvOr(env, "LANGGRAPH_HOST_URL", "https://langgraph.ilanel.co.il");
    var wsHost := if Text.Contains(host, "localhost") then "127.0.0.1:8123" else Text.StripHttpScheme(host);
    SocketUrl(if w.InBrowser? && w.location.protocol == "https:" then "wss:" else "ws:", wsHost)
  }

  /** `${scheme}//${host}/ws` */
  function SocketUrl(scheme: string, host: string): string
  {
    scheme + "//" + host + "/ws"
  }

  /** `determineWebSocketUrl(purpose)`; `None` is its `null`. */
  function DetermineWebSocketUrl(w: Web.Window, purpose: Option<string>, env: Web.ProcessEnv): Option<string>
  {
    if w.InBrowser? && w.location.hostname == "localhost" then
      Some(SocketUrl(Web.WsScheme(w.location), "localhost:8000"))
    else if w.InBrowser? && w.location.hostname == "wow.ilanel.co.il" then
      Some(SocketUrl("wss:", "gpt.ilanel.co.il"))
    else if purpose == Some("langraph-gui") then
      Some(LanggraphWebSocketUrl(w, env))
    else if w.InBrowser? then
      Some(SocketUrl(Web.WsScheme(w.location), ApiHostFromEnv(env)))
    else
      None
  }

  /** The address `initializeWebSocket` uses (no purpose): the three host cases. */
  lemma WebSocketUrlCases(loc: Web.Location, env: Web.ProcessEnv)
    ensures var r := DetermineWebSocketUrl(Web.InBrowser(loc), None, env);
      && (loc.hostname == "localhost" ==>
            r == Some(SocketUrl(if loc.protocol == "https:" then "wss:" else "ws:", "localhost:8000")))
      && (loc.hostname == "wow.ilanel.co.il" ==> r == Some(SocketUrl("wss:", "gpt.ilanel.co.il")))
      && (loc.hostname != "localhost" && loc.hostname != "wow.ilanel.co.il" ==>
            r == Some(SocketUrl(if loc.protocol == "https:" then "wss:" else "ws:", ApiHostFromEnv(env))))
  {
  }

  /** Every such address names the `/ws` endpoint, and it is secure exactly when its
      scheme is. */
  lemma SocketUrlShape(scheme: string, host: string)
    requires scheme == "ws:" || scheme == "wss:"
    ensures var r := SocketUrl(scheme, host);
      && |r| >= 3 && r[|r| - 3..] == "/ws"
      && (Text.StartsWith(r, "wss:") <==> scheme == "wss:")
  {
    var r := SocketUrl(scheme, host);
    assert r == (scheme + "//" + host) + "/ws";
    if scheme == "ws:" {
      assert r[2] == ':';
    } else {
      assert r[..4] == scheme;
    }
  }

  /** There is an address exactly in the browser, so the `if (!ws_uri) return;` guard of
      `initializeWebSocket` never fires there. */
  lemma WebSocketUrlPresent(w: Web.Window, env: Web.ProcessEnv)
    ensures w.InBrowser? <==> DetermineWebSocketUrl(w, None, env).Some?
  {
  }

  /** Every browser address names the backend's `/ws` endpoint, and it is secure exactly
      on an https page or on the production host. */
  lemma WebSocketUrlShape(w: Web.Window, env: Web.ProcessEnv)
    requires w.InBrowser?
    ensures var r := DetermineWebSocketUrl(w, None, env);
      && r.Some? && |r.value| >= 3 && r.value[|r.value| - 3..] == "/ws"
      && (Text.StartsWith(r.value, "wss:") <==>
            w.location.protocol == "https:" || w.location.hostname == "wow.ilanel.co.il")
  {
    var loc := w.location;
    if loc.hostname == "localhost" {
      SocketUrlShape(Web.WsScheme(loc), "localhost:8000");
    } else if loc.hostname == "wow.ilanel.co.il" {
      SocketUrlShape("wss:", "gpt.ilanel.co.il");
    } else {
      SocketUrlShape(Web.WsScheme(loc), ApiHostFromEnv(env));
    }
  }

  // ---------------------------------------------------------------- start envelope

  /** The report options picked in the form. */
  datatype Settings = Settings(reportType: string, reportSource: string, tone: string)

  /** Each header sent, with the `apiVariables` field it is read from. */
  const HeaderFields: seq<(string, string)> := [
    ("retriever", "RETRIEVER"),
    ("langchain_api_key", "LANGCHAIN_API_KEY"),
    ("openai_api_key", "OPENAI_API_KEY"),
    ("tavily_api_key", "TAVILY_API_KEY"),
    ("google_api_key", "GOOGLE_API_KEY"),
    ("google_cx_key", "GOOGLE_CX_KEY"),
    ("bing_api_key", "BING_API_KEY"),
    ("searchapi_api_key", "SEARCHAPI_API_KEY"),
    ("serpapi_api_key", "SERPAPI_API_KEY"),
    ("serper_api_key", "SERPER_API_KEY"),
    ("searx_url", "SEARX_URL")
  ]

  /** `storedConfig ? JSON.parse(storedConfig) : {}`; `None` when JSON.parse throws. */
  function ApiVariables(stored: Option<string>): (r: Option<Json>)
    ensures stored.None? || stored == Some("") ==> r == Some(JObj([]))
  {
    match stored
    case None => Some(JObj([]))
    case Some(text) => if text == "" then Some(JObj([])) else Decode(text)
  }

  /** The members of `headers` that survive JSON.stringify: undefined ones are dropped. */
  function HeaderMembers(apiVars: Json, fields: seq<(string, string)>): (r: seq<Member>)
    requires !apiVars.JNull?
    ensures |r| <= |fields|
  {
    if fields == [] then []
    else
      var rest := HeaderMembers(apiVars, fields[1..]);
      match Js.GetProp(apiVars, fields[0].1)
      case Defined(v) => [Member(fields[0].0, v)] + rest
      case _ => rest
  }

  /** The `headers` object; `None` when `apiVariables` is null and reading its fields throws. */
  function Headers(apiVars: Json): Option<Json>
  {
    if apiVars.JNull? then None else Some(JObj(HeaderMembers(apiVars, HeaderFields)))
  }

  function StartPayload(prompt: string, settings: Settings, headers: Json): Json
  {
    JObj([
      Member("task", JStr(prompt)),
      Member("report_type", JStr(settings.reportType)),
      Member("report_source", JStr(settings.reportSource)),
      Member("tone", JStr(settings.tone)),
      Member("headers", headers)
    ])
  }

  /** `"start " + JSON.stringify({ task, report_type, report_source, tone, headers })`:
      the six-character command word, then a document that parses back to the payload. */
  function StartEnvelope(prompt: string, settings: Settings, headers: Json): string
  {
    "start " + Encode(StartPayload(prompt, settings, headers))
  }

  /** The envelope is the six-character command word followed by a document that parses
      back to exactly the payload. */
  lemma StartEnvelopeRoundTrip(prompt: string, settings: Settings, headers: Json)
    ensures var r := StartEnvelope(prompt, settings, headers);
      && Text.StartsWith(r, "start ") && |r| > 6
      && Decode(r[6..]) == Some(StartPayload(prompt, settings, headers))
  {
    var payload := StartPayload(prompt, settings, headers);
    RoundTrip(payload);
    EncodeNonEmpty(payload);
    var r := StartEnvelope(prompt, settings, headers);
    assert r[6..] == Encode(payload);
  }

  /** What one call of `initializeWebSocket` would send; `None` when building it throws. */
  function EnvelopeFor(prompt: string, settings: Settings, stored: Option<string>): Option<string>
  {
    match ApiVariables(stored)
    case None => None
    case Some(apiVars) =>
      match Headers(apiVars)
      case None => None
      case Some(headers) => Some(StartEnvelope(prompt, settings, headers))
  }

  // ---------------------------------------------------------------- message reducer

  /** An entry of the ordered event list: the message with its `contentAndType` key. */
  datatype Entry = Entry(data: Json, contentAndType: string)

  /** The page state the hook updates through the setters it is given. */
  datatype Ui = Ui(orderedData: seq<Entry>, answer: string, loading: bool,
                   showHumanFeedback: bool, question: Js.Prop)

  predicate IsFeedbackRequest(data: Json)
  {
    Js.IsString(Js.GetProp(data, "type"), "human_feedback")
    && Js.IsString(Js.GetProp(data, "content"), "request")
  }

  /** `${data.content}-${data.type}` */
  function ContentAndType(data: Json): string
  {
    Js.ToStr(Js.GetProp(data, "content")) + "-" + Js.ToStr(Js.GetProp(data, "type"))
  }

  /** The body of the `onmessage` handler once `JSON.parse` has succeeded. For `null`,
      reading `data.type` throws and the `catch` swallows it. */
  function Apply(ui: Ui, data: Json): Ui
  {
    if data.JNull? then ui
    else if IsFeedbackRequest(data) then
      ui.(question := Js.GetProp(data, "output"), showHumanFeedback := true)
    else
      var kind := Js.GetProp(data, "type");
      var logged := ui.(orderedData := ui.orderedData + [Entry(data, ContentAndType(data))]);
      if Js.IsString(kind, "report") then
        logged.(answer := ui.answer + Js.ToStr(Js.GetProp(data, "output")))
      else if Js.IsString(kind, "path") || Js.IsString(kind, "chat") then
        logged.(loading := false)
      else
        logged
  }

  /** The `onmessage` handler on one raw frame; a frame that does not parse is swallowed. */
  function Dispatch(ui: Ui, text: string): Ui
  {
    match Decode(text)
    case None => ui
    case Some(data) => Apply(ui, data)
  }

  /** A message that is logged: not null and not a feedback request. */
  predicate Logged(data: Json)
  {
    !data.JNull? && !IsFeedbackRequest(data)
  }

  /** The text a message adds to the answer: the `output` of a logged "report" message. */
  function ReportOf(data: Json): string
  {
    if Logged(data) && Js.IsString(Js.GetProp(data, "type"), "report")
    then Js.ToStr(Js.GetProp(data, "output"))
    else ""
  }

  /** A feedback request leaves the log, the answer and the loading flag alone, shows the
      panel and stores the request's `output` as the question. */
  lemma FeedbackRequestPauses(ui: Ui, data: Json)
    requires IsFeedbackRequest(data)
    ensures var r := Apply(ui, data);
      && r.orderedData == ui.orderedData && r.answer == ui.answer && r.loading == ui.loading
      && r.showHumanFeedback && r.question == Js.GetProp(data, "output")
  {
  }

  /** Any other message is appended, once, at the end; earlier entries stay, and the
      feedback panel is left as it was. */
  lemma LoggedMessageAppendsOne(ui: Ui, data: Json)
    requires Logged(data)
    ensures var r := Apply(ui, data);
      && |r.orderedData| == |ui.orderedData| + 1
      && r.orderedData[..|ui.orderedData|] == ui.orderedData
      && r.orderedData[|ui.orderedData|] == Entry(data, ContentAndType(data))
      && r.showHumanFeedback == ui.showHumanFeedback && r.question == ui.question
  {
    var r := Apply(ui, data);
    assert r.orderedData == ui.orderedData + [Entry(data, ContentAndType(data))];
  }

  /** Only a logged "report" message touches the answer, appending its `output`; only a
      logged "path" or "chat" message touches the loading flag, clearing it. */
  lemma AnswerAndLoadingRules(ui: Ui, data: Json)
    ensures var r := Apply(ui, data);
      var kind := Js.GetProp(data, "type");
      && r.answer == ui.answer + ReportOf(data)
      && (Logged(data) && (Js.IsString(kind, "path") || Js.IsString(kind, "chat")) ==> !r.loading)
      && (!(Logged(data) && (Js.IsString(kind, "path") || Js.IsString(kind, "chat"))) ==> r.loading == ui.loading)
  {
    if !(Logged(data) && Js.IsString(Js.GetProp(data, "type"), "report")) {
      assert ui.answer + "" == ui.answer;
    }
  }

  /** A frame that is not JSON, or is `null`, changes nothing. */
  lemma UnusableFrameIgnored(ui: Ui, text: string)
    requires Decode(text).None? || Decode(text) == Some(JNull)
    ensures Dispatch(ui, text) == ui
  {
  }

  /** The reducer over a stream of messages, in arrival order. */
  function ApplyAll(ui: Ui, msgs: seq<Json>): Ui
    decreases |msgs|
  {
    if msgs == [] then ui else ApplyAll(Apply(ui, msgs[0]), msgs[1..])
  }

  /** The reducer over a stream of raw frames. */
  function DispatchAll(ui: Ui, texts: seq<string>): Ui
    decreases |texts|
  {
    if texts == [] then ui else DispatchAll(Dispatch(ui, texts[0]), texts[1..])
  }

  function EncodeAll(msgs: seq<Json>): (r: seq<string>)
    ensures |r| == |msgs|
    decreases |msgs|
  {
    if msgs == [] then [] else [Encode(msgs[0])] + EncodeAll(msgs[1..])
  }

  /** Frames written by `JSON.stringify`-compatible serialisation reach the reducer intact. */
  lemma {:induction false} EncodedStream(ui: Ui, msgs: seq<Json>)
    ensures DispatchAll(ui, EncodeAll(msgs)) == ApplyAll(ui, msgs)
    decreases |msgs|
  {
    if msgs != [] {
      RoundTrip(msgs[0]);
      var texts := EncodeAll(msgs);
      assert texts[0] == Encode(msgs[0]) && texts[1..] == EncodeAll(msgs[1..]);
      EncodedStream(Apply(ui, msgs[0]), msgs[1..]);
    }
  }

  /** The `output` text of every logged "report" message, in order. */
  function ReportText(msgs: seq<Json>): string
    decreases |msgs|
  {
    if msgs == [] then "" else ReportOf(msgs[0]) + ReportText(msgs[1..])
  }

  /** The number of logged messages. */
  function LoggedCount(msgs: seq<Json>): nat
    decreases |msgs|
  {
    if msgs == [] then 0 else (if Logged(msgs[0]) then 1 else 0) + LoggedCount(msgs[1..])
  }

  /** Over any stream, the answer grows by exactly the report outputs in arrival order,
      and the event list grows by one entry per logged message, never rewriting earlier ones. */
  lemma {:induction false} StreamInvariants(ui: Ui, msgs: seq<Json>)
    ensures var r := ApplyAll(ui, msgs);
      && r.answer == ui.answer + ReportText(msgs)
      && |r.orderedData| == |ui.orderedData| + LoggedCount(msgs)
      && r.orderedData[..|ui.orderedData|] == ui.orderedData
    decreases |msgs|
  {
    if msgs == [] {
      assert ui.answer + "" == ui.answer;
    } else {
      var next := Apply(ui, msgs[0]);
      AnswerAndLoadingRules(ui, msgs[0]);
      if Logged(msgs[0]) {
        LoggedMessageAppendsOne(ui, msgs[0]);
      } else {
        assert next.orderedData == ui.orderedData;
      }
      StreamInvariants(next, msgs[1..]);
      var r := ApplyAll(next, msgs[1..]);
      assert r.answer == ui.answer + (ReportOf(msgs[0]) + ReportText(msgs[1..]));
      assert r.orderedData[..|ui.orderedData|] == r.orderedData[..|next.orderedData|][..|ui.orderedData|];
    }
  }

  /** A message as the backend's `stream_output` writes it. */
  function Message(kind: string, content: string, output: string): Json
  {
    JObj([Member("type", JStr(kind)), Member("content", JStr(content)), Member("output", JStr(output))])
  }

  /** Such a message is logged unless it is a feedback request, and only a "report"
      message adds its output to the answer. */
  lemma MessageEffect(kind: string, content: string, output: string)
    requires kind != "human_feedback"
    ensures Logged(Message(kind, content, output))
    ensures ReportOf(Message(kind, content, output)) == if kind == "report" then output else ""
  {
    var v := Message(kind, content, output);
    LookupUnique(v.members, 0);
    LookupUnique(v.members, 2);
  }

  /** Three progress logs and then the report in two chunks. */
  function NormalFlow(logs: seq<string>, intro: string, conclusion: string): (r: seq<Json>)
    requires |logs| == 3
    ensures |r| == 5
  {
    [Message("logs", logs[0], ""), Message("logs", logs[1], ""), Message("logs", logs[2], ""),
     Message("report", "", intro), Message("report", "", conclusion)]
  }

  /** That stream, sent as frames to an empty page: the answer is the two chunks joined,
      and the event list holds five entries. */
  lemma NormalFlowScenario(ui: Ui, logs: seq<string>, intro: string, conclusion: string)
    requires ui.orderedData == [] && ui.answer == "" && |logs| == 3
    ensures var r := DispatchAll(ui, EncodeAll(NormalFlow(logs, intro, conclusion)));
      r.answer == intro + conclusion && |r.orderedData| == 5
  {
    var msgs := NormalFlow(logs, intro, conclusion);
    EncodedStream(ui, msgs);
    StreamInvariants(ui, msgs);
    NormalFlowCounts(logs, intro, conclusion);
  }

  lemma NormalFlowCounts(logs: seq<string>, intro: string, conclusion: string)
    requires |logs| == 3
    ensures ReportText(NormalFlow(logs, intro, conclusion)) == intro + conclusion
    ensures LoggedCount(NormalFlow(logs, intro, conclusion)) == 5
  {
    var msgs := NormalFlow(logs, intro, conclusion);
    assert msgs[0] == Message("logs", logs[0], "") && msgs[1] == Message("logs", logs[1], "")
        && msgs[2] == Message("logs", logs[2], "");
    assert msgs[3] == Message("report", "", intro) && msgs[4] == Message("report", "", conclusion);
    MessageEffect("logs", logs[0], "");
    MessageEffect("logs", logs[1], "");
    MessageEffect("logs", logs[2], "");
    MessageEffect("report", "", intro);
    MessageEffect("report", "", conclusion);
    ScenarioCounts(msgs, intro, conclusion);
  }

  lemma ScenarioCounts(msgs: seq<Json>, intro: string, conclusion: string)
    requires |msgs| == 5
    requires Logged(msgs[0]) && Logged(msgs[1]) && Logged(msgs[2]) && Logged(msgs[3]) && Logged(msgs[4])
    requires ReportOf(msgs[0]) == "" && ReportOf(msgs[1]) == "" && ReportOf(msgs[2]) == ""
    requires ReportOf(msgs[3]) == intro && ReportOf(msgs[4]) == conclusion
    ensures ReportText(msgs) == intro + conclusion && LoggedCount(msgs) == 5
  {
    var both := intro + conclusion;
    assert msgs[4..][1..] == [];
    assert ReportText(msgs[4..]) == conclusion + "" == conclusion;
    assert msgs[3..][1..] == msgs[4..];
    assert ReportText(msgs[3..]) == both;
    assert msgs[2..][1..] == msgs[3..];
    assert ReportText(msgs[2..]) == "" + both == both;
    assert msgs[1..][1..] == msgs[2..];
    assert ReportText(msgs[1..]) == "" + both == both;
    assert ReportText(msgs) == "" + both == both;
    assert LoggedCount(msgs[4..]) == 1;
    assert LoggedCount(msgs[3..]) == 2;
    assert LoggedCount(msgs[2..]) == 3;
    assert LoggedCount(msgs[1..]) == 4;
  }

  // ---------------------------------------------------------------- reconnection counter

  /** `onerror` on the counter: raised while below the bound, with the retry delay. */
  function ErrorStep(attempts: int): (r: (int, Option<int>))
    ensures 0 <= attempts <= MaxReconnectAttempts ==> 0 <= r.0 <= MaxReconnectAttempts
    ensures r.1.Some? <==> attempts < MaxReconnectAttempts
    ensures r.1.Some? ==> r.0 == attempts + 1 && r.1.value == RetryDelayUnit * r.0
    ensures r.1.None? ==> r.0 == attempts
  {
    if attempts < MaxReconnectAttempts then (attempts + 1, Some(RetryDelayUnit * (attempts + 1)))
    else (attempts, None)
  }

  /** Counter and scheduled delays after `n` errors in a row, starting from `attempts`. */
  function Errors(attempts: int, n: nat): (int, seq<int>)
    decreases n
  {
    if n == 0 then (attempts, [])
    else
      var (a, d) := ErrorStep(attempts);
      var (a', ds) := Errors(a, n - 1);
      (a', (if d.Some? then [d.value] else []) + ds)
  }

  /** After any run of errors that follows an open, the counter is min(n, 3) and exactly
      the retries 1000, 2000, 3000 ms (the first min(n, 3) of them) have been scheduled. */
  lemma {:induction false} ConsecutiveErrors(n: nat)
    ensures Errors(0, n).0 == (if n < 3 then n else 3)
    ensures Errors(0, n).1 == [1000, 2000, 3000][..(if n < 3 then n else 3)]
  {
    ErrorsFrom(0, n);
  }

  lemma {:induction false} ErrorsFrom(a: nat, n: nat)
    requires a <= 3
    ensures var m := if a + n < 3 then a + n else 3;
      Errors(a, n).0 == m && Errors(a, n).1 == [1000, 2000, 3000][a..m]
    decreases n
  {
    if n > 0 {
      if a < 3 {
        ErrorsFrom(a + 1, n - 1);
      } else {
        ErrorsFrom(a, n - 1);
      }
    }
  }

  // ---------------------------------------------------------------- the connection

  /** `WebSocket.readyState` of the socket the hook created last. */
  datatype ReadyState = Connecting | Open | Closing | Closed

  /** A pending `setTimeout(() => initializeWebSocket(promptValue, chatBoxSettings), delay)`. */
  datatype Retry = Retry(delay: int, prompt: string, settings: Settings)

  datatype InitOutcome =
    | Created    // a new socket was opened; the envelope waits for onopen
    | Reused     // the envelope was sent on the existing, open socket
    | SendThrew  // the existing socket is still connecting: `send` throws InvalidStateError
    | Threw      // localStorage is missing (server side) or the stored config is unusable

  /** The connection side of the hook: whether React state holds a socket, the socket
      created last (its number `created`, address, readyState, and the request its
      handlers captured), every `send` in order, and the refs and timers. Each pending
      five-minute timer is recorded by the number of the socket whose `onopen` armed it,
      in the order they were armed (all share one delay, so they fire in that order). */
  datatype Conn = Conn(
    hasSocket: bool, readyState: ReadyState, url: string, created: nat,
    sent: seq<string>, envelope: string, prompt: string, settings: Settings,
    attempts: int, heartbeat: bool, closeTimers: seq<nat>, retries: seq<Retry>)

  /** The reconnection counter stays within its bound, and state holds a socket exactly
      while the socket created last is connecting or open. */
  predicate Good(c: Conn)
  {
    && 0 <= c.attempts <= MaxReconnectAttempts
    && (c.hasSocket <==> c.readyState == Connecting || c.readyState == Open)
  }

  /** The envelope `initializeWebSocket` builds in window `w`; `None` when it throws first. */
  function Request(w: Web.Window, prompt: string, settings: Settings, stored: Option<string>): Option<string>
  {
    if w.OnServer? then None else EnvelopeFor(prompt, settings, stored)
  }

  /** `initializeWebSocket` given the envelope it builds and the address it would use:
      create when state holds no socket, otherwise send on the one it holds, which throws
      while that socket is still connecting. */
  function InitStep(c: Conn, envelope: Option<string>, prompt: string, settings: Settings,
                    url: Option<string>): (r: (InitOutcome, Conn))
    requires Good(c) && (envelope.Some? && !c.hasSocket ==> url.Some?)
    ensures Good(r.1)
  {
    if envelope.None? then (Threw, c)
    else if !c.hasSocket then
      (Created, c.(hasSocket := true, readyState := Connecting, url := url.value, created := c.created + 1,
                   envelope := envelope.value, prompt := prompt, settings := settings))
    else if c.readyState == Connecting then (SendThrew, c)
    else (Reused, c.(sent := c.sent + [envelope.value]))
  }

  /** The four outcomes: nothing changes when building the envelope throws; a socket is
      created, connecting to `url` and holding the request, exactly when state holds none;
      a held socket that is still connecting makes `send` throw, and nothing changes;
      otherwise the envelope is sent at once on the open socket, and nothing else changes. */
  lemma InitStepOutcomes(c: Conn, envelope: Option<string>, prompt: string, settings: Settings,
                         url: Option<string>)
    requires Good(c) && (envelope.Some? && !c.hasSocket ==> url.Some?)
    ensures var (o, r) := InitStep(c, envelope, prompt, settings, url);
      && (o == Threw <==> envelope.None?)
      && (o == Threw ==> r == c)
      && (o == Created <==> envelope.Some? && !c.hasSocket)
      && (o == Created ==>
            && r.hasSocket && r.readyState == Connecting && r.url == url.value && r.created == c.created + 1
            && r.envelope == envelope.value && r.prompt == prompt && r.settings == settings
            && r.sent == c.sent && r.attempts == c.attempts && r.retries == c.retries)
      && (o == SendThrew <==> envelope.Some? && c.hasSocket && c.readyState == Connecting)
      && (o == SendThrew ==> r == c)
      && (o == Reused <==> envelope.Some? && c.hasSocket && c.readyState == Open)
      && (o == Reused ==> r == c.(sent := c.sent + [envelope.value]))
  {
  }

  /** `onopen` of the socket created last: it also arms that socket's close timer. */
  function OpenStep(c: Conn): (r: Conn)
    requires Good(c) && c.readyState == Connecting
    ensures Good(r) && r.readyState == Open && r.attempts == 0
    ensures r.sent == c.sent + [c.envelope] && r.heartbeat && r.closeTimers == c.closeTimers + [c.created]
  {
    c.(readyState := Open, attempts := 0, sent := c.sent + [c.envelope], heartbeat := true,
       closeTimers := c.closeTimers + [c.created])
  }

  /** `onerror`: the counter step, and the retry scheduled with the captured request. */
  function FailStep(c: Conn): (r: (Conn, Option<int>))
    requires Good(c)
    ensures Good(r.0) && (r.0.attempts, r.1) == ErrorStep(c.attempts)
    ensures r.0.retries == c.retries + (if r.1.Some? then [Retry(r.1.value, c.prompt, c.settings)] else [])
    ensures r.0 == c.(attempts := r.0.attempts, retries := r.0.retries)
  {
    var (attempts, delay) := ErrorStep(c.attempts);
    (c.(attempts := attempts,
        retries := c.retries + (if delay.Some? then [Retry(delay.value, c.prompt, c.settings)] else [])),
     delay)
  }

  /** `onclose`: the heartbeat stops and state forgets the socket; no reconnection. */
  function CloseStep(c: Conn): (r: Conn)
    requires Good(c)
    ensures Good(r) && !r.heartbeat && !r.hasSocket && r.readyState == Closed
    ensures r.sent == c.sent && r.attempts == c.attempts && r.retries == c.retries
  {
    c.(heartbeat := false, hasSocket := false, readyState := Closed)
  }

  /** A heartbeat tick: "ping" exactly when the socket is open. */
  function TickStep(c: Conn): (r: Conn)
    requires Good(c) && c.heartbeat
    ensures Good(r)
    ensures c.readyState == Open ==> r == c.(sent := c.sent + ["ping"])
    ensures c.readyState != Open ==> r == c
  {
    if c.readyState == Open then c.(sent := c.sent + ["ping"]) else c
  }

  /** The earliest five-minute timer fires. It tests the socket that armed it: only when
      that is the socket created last, and it is still open, is the socket closed and
      dropped from state. A timer left by an earlier socket finds its own socket closing
      or closed and does nothing. */
  function TimeoutStep(c: Conn): (r: Conn)
    requires Good(c) && |c.closeTimers| > 0
    ensures Good(r) && r.closeTimers == c.closeTimers[1..]
    ensures c.closeTimers[0] == c.created && c.readyState == Open ==>
              r == c.(closeTimers := c.closeTimers[1..], readyState := Closing, hasSocket := false)
    ensures !(c.closeTimers[0] == c.created && c.readyState == Open) ==>
              r == c.(closeTimers := c.closeTimers[1..])
  {
    var c' := c.(closeTimers := c.closeTimers[1..]);
    if c.closeTimers[0] == c.created && c.readyState == Open then c'.(readyState := Closing, hasSocket := false)
    else c'
  }

  /** A timer armed by an earlier socket spares the open socket created after it: open,
      close, create again, open again, and the first timer fires without closing the
      second socket; the second socket's own timer then closes it. */
  lemma LeftoverTimerSparesNewSocket(c: Conn, envelope: string, prompt: string, settings: Settings, url: string)
    requires Good(c) && !c.hasSocket && c.closeTimers == []
    ensures var (_, c1) := InitStep(c, Some(envelope), prompt, settings, Some(url));
      var c2 := CloseStep(OpenStep(c1));
      var (_, c3) := InitStep(c2, Some(envelope), prompt, settings, Some(url));
      var c4 := OpenStep(c3);
      var c5 := TimeoutStep(c4);
      && c5.readyState == Open && c5.hasSocket && c5.closeTimers == [c4.created]
      && TimeoutStep(c5).readyState == Closing && !TimeoutStep(c5).hasSocket
  {
  }

  /** In the browser, a request whose envelope can be built always has an address. */
  lemma RequestHasAddress(w: Web.Window, prompt: string, settings: Settings, stored: Option<string>,
                          env: Web.ProcessEnv)
    ensures Request(w, prompt, settings, stored).Some? ==> DetermineWebSocketUrl(w, None, env).Some?
  {
    WebSocketUrlPresent(w, env);
  }

  /** A send after an open and any number of pings: the envelope goes first, exactly once,
      then only pings. */
  function Ticks(c: Conn, n: nat): (r: Conn)
    requires Good(c) && c.heartbeat
    ensures Good(r) && r.heartbeat && r.readyState == c.readyState
    decreases n
  {
    if n == 0 then c else Ticks(TickStep(c), n - 1)
  }

  lemma {:induction false} PingsOnlyWhileOpen(c: Conn, n: nat)
    requires Good(c) && c.heartbeat
    ensures c.readyState == Open ==> Ticks(c, n).sent == c.sent + seq(n, _ => "ping")
    ensures c.readyState != Open ==> Ticks(c, n).sent == c.sent
    decreases n
  {
    if n > 0 {
      PingsOnlyWhileOpen(TickStep(c), n - 1);
      if c.readyState == Open {
        assert c.sent + ["ping"] + seq(n - 1, _ => "ping") == c.sent + seq(n, _ => "ping");
      }
    } else {
      assert c.sent + seq(0, _ => "ping") == c.sent;
    }
  }

  /** A fresh session from a browser with no socket: create, open, then the first `send`
      is the start envelope, and the counter is back to zero. */
  lemma FreshSessionSendsEnvelopeFirst(c: Conn, envelope: string, prompt: string, settings: Settings, url: string)
    requires Good(c) && !c.hasSocket && c.sent == []
    ensures var (o, c1) := InitStep(c, Some(envelope), prompt, settings, Some(url));
      && o == Created && c1.readyState == Connecting
      && OpenStep(c1).sent == [envelope] && OpenStep(c1).attempts == 0 && OpenStep(c1).url == url
  {
  }

  // ---------------------------------------------------------------- the hook

  /** The page state owned by the component using the hook; the hook reaches it only
      through the setters it was given. */
  class PageState {
    var orderedData: seq<Entry>
    var answer: string
    var loading: bool
    var showHumanFeedback: bool
    var question: Js.Prop

    function View(): Ui
      reads this
    {
      Ui(orderedData, answer, loading, showHumanFeedback, question)
    }

    constructor (ui: Ui)
      ensures View() == ui
    {
      orderedData, answer, loading := ui.orderedData, ui.answer, ui.loading;
      showHumanFeedback, question := ui.showHumanFeedback, ui.question;
    }

    /** The `onmessage` handler's setter calls for one frame. */
    method Receive(text: string)
      modifies this
      ensures View() == Dispatch(old(View()), text)
    {
      var parsed := Decode(text);
      if parsed.None? || parsed.value.JNull? {
        // the `catch` swallows the parse error, or the TypeError of reading `null.type`
        return;
      }
      var data := parsed.value;
      if IsFeedbackRequest(data) {
        question := Js.GetProp(data, "output");
        showHumanFeedback := true;
      } else {
        orderedData := orderedData + [Entry(data, ContentAndType(data))];
        var kind := Js.GetProp(data, "type");
        if Js.IsString(kind, "report") {
          answer := answer + Js.ToStr(Js.GetProp(data, "output"));
        } else if Js.IsString(kind, "path") || Js.IsString(kind, "chat") {
          loading := false;
        }
      }
    }
  }

  /** The hook's state and refs. Socket events and timers are methods the environment
      calls when they fire. */
  class WebSocketHook {
    var hasSocket: bool
    var readyState: ReadyState
    var socketUrl: string
    var socketsCreated: nat
    var sent: seq<string>
    var openEnvelope: string
    var openPrompt: string
    var openSettings: Settings
    var reconnectAttempts: int
    var heartbeatActive: bool
    var closeTimers: seq<nat>
    var retries: seq<Retry>
    /** The component state behind `setOrderedData`, `setAnswer`, `setLoading`,
        `setShowHumanFeedback` and `setQuestionForHuman`. */
    const page: PageState

    function Connection(): Conn
      reads this
    {
      Conn(hasSocket, readyState, socketUrl, socketsCreated, sent, openEnvelope, openPrompt,
           openSettings, reconnectAttempts, heartbeatActive, closeTimers, retries)
    }

    ghost predicate Valid()
      reads this
    {
      Good(Connection())
    }

    constructor (page: PageState)
      ensures Valid() && this.page == page
      ensures Connection() == Conn(false, Closed, "", 0, [], "", "", Settings("", "", ""), 0, false, [], [])
    {
      hasSocket, readyState, socketUrl, socketsCreated, sent := false, Closed, "", 0, [];
      openEnvelope, openPrompt, openSettings := "", "", Settings("", "", "");
      reconnectAttempts, heartbeatActive, closeTimers, retries := 0, false, [], [];
      this.page := page;
    }

    /** `initializeWebSocket(promptValue, chatBoxSettings)`. */
    method Initialize(prompt: string, settings: Settings, stored: Option<string>,
                      w: Web.Window, env: Web.ProcessEnv) returns (outcome: InitOutcome)
      requires Valid()
      modifies this
      ensures Valid()
      ensures (outcome, Connection()) == InitStep(old(Connection()), Request(w, prompt, settings, stored), prompt,
                                                  settings, DetermineWebSocketUrl(w, None, env))
    {
      RequestHasAddress(w, prompt, settings, stored, env);
      outcome := Connect(Request(w, prompt, settings, stored), prompt, settings, DetermineWebSocketUrl(w, None, env));
    }

    /** The part of `initializeWebSocket` after the envelope is built: create a socket when
        state holds none, otherwise send on the one it holds (which throws while it is
        still connecting). */
    method Connect(envelope: Option<string>, prompt: string, settings: Settings, url: Option<string>)
      returns (outcome: InitOutcome)
      requires Valid() && (envelope.Some? && !hasSocket ==> url.Some?)
      modifies this
      ensures Valid()
      ensures (outcome, Connection()) == InitStep(old(Connection()), envelope, prompt, settings, url)
    {
      if envelope.None? {
        outcome := Threw;
      } else if !hasSocket {
        socketUrl := url.value;
        hasSocket, readyState := true, Connecting;
        socketsCreated := socketsCreated + 1;
        openEnvelope, openPrompt, openSettings := envelope.value, prompt, settings;
        outcome := Created;
      } else if readyState == Connecting {
        outcome := SendThrew;
      } else {
        sent := sent + [envelope.value];
        outcome := Reused;
      }
    }

    /** `onopen`: reset the counter, send the envelope, start the heartbeat and the close timer. */
    method OnOpen()
      requires Valid() && readyState == Connecting
      modifies this
      ensures Valid() && Connection() == OpenStep(old(Connection()))
    {
      readyState := Open;
      reconnectAttempts := 0;
      sent := sent + [openEnvelope];
      heartbeatActive := true;
      closeTimers := closeTimers + [socketsCreated];
    }

    /** `onmessage`: the page state changes; the connection does not. */
    method OnMessage(text: string)
      requires Valid()
      modifies page
      ensures Valid() && page.View() == Dispatch(old(page.View()), text)
    {
      page.Receive(text);
    }

    /** `onerror`: count the error and schedule a retry while below the bound. */
    method OnError() returns (delay: Option<int>)
      requires Valid()
      modifies this
      ensures Valid() && (Connection(), delay) == FailStep(old(Connection()))
    {
      if reconnectAttempts < MaxReconnectAttempts {
        reconnectAttempts := reconnectAttempts + 1;
        delay := Some(RetryDelayUnit * reconnectAttempts);
        retries := retries + [Retry(delay.value, openPrompt, openSettings)];
      } else {
        delay := None;
        assert retries == retries + [];
      }
    }

    /** `onclose`: stop the heartbeat and forget the socket; it does not reconnect. */
    method OnClose()
      requires Valid()
      modifies this
      ensures Valid() && Connection() == CloseStep(old(Connection()))
    {
      if heartbeatActive {
        heartbeatActive := false;
      }
      hasSocket := false;
      readyState := Closed;
    }

    /** One 30-second heartbeat tick. */
    method HeartbeatTick()
      requires Valid() && heartbeatActive
      modifies this
      ensures Valid() && Connection() == TickStep(old(Connection()))
    {
      if readyState == Open {
        sent := sent + ["ping"];
      }
    }

    /** The earliest five-minute timer fires; it acts only on the socket that armed it.
        The heartbeat is left to onclose. */
    method CloseTimerFires()
      requires Valid() && |closeTimers| > 0
      modifies this
      ensures Valid() && Connection() == TimeoutStep(old(Connection()))
    {
      var armedBy := closeTimers[0];
      closeTimers := closeTimers[1..];
      if armedBy == socketsCreated && readyState == Open {
        readyState := Closing;
        hasSocket := false;
      }
    }

    /** The earliest scheduled retry fires: `initializeWebSocket` again with the request
        captured when it was scheduled. */
    method RetryFires(stored: Option<string>, w: Web.Window, env: Web.ProcessEnv) returns (outcome: InitOutcome)
      requires Valid() && |retries| > 0
      modifies this
      ensures Valid()
      ensures var r := old(retries)[0];
        (outcome, Connection()) == InitStep(old(Connection()).(retries := old(retries)[1..]),
                                            Request(w, r.prompt, r.settings, stored), r.prompt, r.settings,
                                            DetermineWebSocketUrl(w, None, env))
    {
      var r := retries[0];
      retries := retries[1..];
      outcome := Initialize(r.prompt, r.settings, stored, w, env);
    }
  }
}
