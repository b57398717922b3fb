# GPT Researcher: research-session protocol, in Dafny

This project models the research-session protocol of the GPT Researcher web application
(oznav2 fork). The browser client and the Python backend share it, and a few small
selection and decision rules sit around it:

- **Browser client.** `hooks/useWebSocket.ts` chooses the socket address and builds the
  `"start " + JSON` envelope. It opens or reuses the socket, sends pings while the socket
  is open, and closes it after five minutes. It retries a bounded number of times after
  errors and folds incoming frames into page state: the ordered event list, the answer,
  the loading flag and the feedback panel. `components/Settings/ChatBox.tsx` is a
  simpler panel with its own socket and its own three-way dispatcher.
- **Backend commands.** `backend/server/server_utils.py` and the older `backend/server.py`:
  - classify socket text by prefix and strip the fixed-width prefix;
  - read and validate the start command and stream it;
  - write the report files and answer with their paths;
  - sanitise the file name;
  - build the configuration dictionary and write the environment.
- **Endpoint selection.** `helpers/getHost.ts`, its JavaScript copy `helpers/getHost.js`
  and `hooks/useApiUrl.js`: the first-reachable search over a URL list, and the
  hostname-to-base-URL tables.
- **Image de-duplication.** `gpt_researcher/skills/browser.py`: the greedy first-k selection
  of new, unique images.
- **Multi-agent decisions.** `multi_agents/agents/editor.py` and `reviewer.py`:
  - planning prompt assembly;
  - projection of the model's plan;
  - normalisation of parallel results;
  - the reviewer/reviser graph;
  - the "None"-substring acceptance rule.

The model treats all of these as inputs:

- sockets, timers and health probes are events or predicates the environment supplies;
- model answers and the rendering of a value by an f-string are parameters;
- the clock is a parameter (`now`, `today`);
- file writing is a function from report and name to paths;
- `os.environ` and `process.env` are maps.

JSON is a concrete, verified codec. It has a compact encoder and a parser, and its round
trip is proved (`Json.RoundTrip`).

Files and modules:

| file | modules | models |
|---|---|---|
| `wrappers.dfy` | `Wrappers` | `Option` |
| `text.dfy` | `Text` | string operations: `strip`, `split`, prefix tests, `replace(/^https?:\/\//, '')` |
| `json.dfy` | `Json` | JSON values, `JSON.stringify`, `JSON.parse` / `json.loads` |
| `runtime.dfy` | `Js`, `Py`, `Web` | JavaScript property access and string conversion; Python truthiness, `dict.get`, `os.getenv`, `os.environ`, `str()`; window and `process.env` |
| `use_websocket.dfy` | `UseWebSocket` | `hooks/useWebSocket.ts` |
| `chat_box.dfy` | `ChatBox` | `components/Settings/ChatBox.tsx` |
| `server_utils.dfy` | `ServerUtils` | `backend/server/server_utils.py` |
| `legacy_server.dfy` | `LegacyServer` | `backend/server.py` |
| `protocol.dfy` | `Protocol` | the client envelope as the backend reads it |
| `browser.dfy` | `Browser` | `gpt_researcher/skills/browser.py` |
| `get_host.dfy`, `get_host_js.dfy` | `GetHost`, `GetHostJs` | `helpers/getHost.ts`, `helpers/getHost.js` |
| `use_api_url.dfy` | `UseApiUrl` | `hooks/useApiUrl.js` |
| `editor.dfy`, `reviewer.dfy` | `Editor`, `Reviewer` | the editor and reviewer agents |

The code that changes state step by step is written as classes and methods, each proved
against a function of the old state:

- the websocket hook and the page state it feeds;
- the ChatBox component;
- the greedy image loop;
- the receive loop;
- the environment-writing loops;
- the probe loop;
- the result-normalising loop.

Everything else is functions and lemmas.

## Model

| member | source | states |
|---|---|---|
| UseWebSocket.ApiHostFromEnv | frontend/nextjs/hooks/useWebSocket.ts:31 | The host taken from NEXT_PUBLIC_API_URL (scheme removed) or "gpt.ilanel.co.il" is never empty. |
| UseWebSocket.WebSocketUrlCases | frontend/nextjs/hooks/useWebSocket.ts:11-32 | In the browser: "localhost" gives ws(s)://localhost:8000/ws, wss exactly on an https page. "wow.ilanel.co.il" gives wss://gpt.ilanel.co.il/ws. Any other hostname gives the page's scheme plus the environment host. |
| UseWebSocket.SocketUrlShape | frontend/nextjs/hooks/useWebSocket.ts:14-19 | Every address built ends in "/ws" and starts with "wss:" exactly when its scheme is wss. |
| UseWebSocket.WebSocketUrlPresent | frontend/nextjs/hooks/useWebSocket.ts:29-34 | Without a purpose there is an address exactly in the browser, so the `if (!ws_uri) return` guard never fires there. |
| UseWebSocket.WebSocketUrlShape | frontend/nextjs/hooks/useWebSocket.ts:11-32 | Every browser address names the /ws endpoint and is secure exactly on an https page or on the production hostname. |
| UseWebSocket.ApiVariables | frontend/nextjs/hooks/useWebSocket.ts:38-39 | A missing or empty stored configuration gives `{}`. |
| UseWebSocket.StartEnvelopeRoundTrip | frontend/nextjs/hooks/useWebSocket.ts:63-65 | The envelope starts with the six characters "start ", and the text after them parses back to exactly {task, report_type, report_source, tone, headers}. |
| UseWebSocket.FeedbackRequestPauses | frontend/nextjs/hooks/useWebSocket.ts:86-88 | A human_feedback/request message leaves the event list, the answer and the loading flag alone. It shows the panel and stores the message's `output` as the question. |
| UseWebSocket.LoggedMessageAppendsOne | frontend/nextjs/hooks/useWebSocket.ts:89-91 | Any other non-null message appends exactly one entry (the message and `content-type`) at the end. Earlier entries and the feedback panel are unchanged. |
| UseWebSocket.AnswerAndLoadingRules | frontend/nextjs/hooks/useWebSocket.ts:93-97 | Only a logged "report" message extends the answer, by its `output`. Only a logged "path" or "chat" message touches the loading flag, clearing it. |
| UseWebSocket.UnusableFrameIgnored | frontend/nextjs/hooks/useWebSocket.ts:84-101 | A frame that is not JSON, or is `null`, changes no state (the `catch` swallows it). |
| UseWebSocket.EncodedStream | frontend/nextjs/hooks/useWebSocket.ts:83-102 | Frames that are serialised messages reach the reducer intact: dispatching the texts equals applying the messages. |
| UseWebSocket.StreamInvariants | frontend/nextjs/hooks/useWebSocket.ts:89-97 | Over any stream, the answer grows by exactly the report outputs in arrival order. The event list grows by one entry per logged message and never rewrites earlier entries. |
| UseWebSocket.MessageEffect | frontend/nextjs/hooks/useWebSocket.ts:86-97 | A backend message that is not a feedback request is logged, and only a "report" one adds its output. |
| UseWebSocket.NormalFlowScenario | frontend/nextjs/hooks/useWebSocket.ts:83-102 | Three logs and two report chunks, sent to an empty page: the answer is the two chunks joined, and the list holds five entries. |
| UseWebSocket.ErrorStep | frontend/nextjs/hooks/useWebSocket.ts:111-116 | An error raises the counter only while it is below 3, keeps it within 0..3, and schedules a retry after 1000 × the new counter. |
| UseWebSocket.ConsecutiveErrors | frontend/nextjs/hooks/useWebSocket.ts:111-116 | After n errors following an open, the counter is min(n, 3) and exactly the retries 1000, 2000, 3000 ms (the first min(n, 3)) have been scheduled. |
| UseWebSocket.InitStep | frontend/nextjs/hooks/useWebSocket.ts:54-124 | `initializeWebSocket` on the connection keeps the counter bound and the socket-held invariant. |
| UseWebSocket.InitStepOutcomes | frontend/nextjs/hooks/useWebSocket.ts:54-124 | Nothing changes when building the envelope throws. A socket is created exactly when state holds none, connecting to the address and holding the request. A held socket that is still connecting makes `send` throw and nothing changes. Otherwise the envelope is sent at once on the open socket and nothing else changes. |
| UseWebSocket.OpenStep | frontend/nextjs/hooks/useWebSocket.ts:61-81 | `onopen` resets the counter, sends the captured envelope, starts the heartbeat and arms a close timer tagged with this socket. |
| UseWebSocket.FailStep | frontend/nextjs/hooks/useWebSocket.ts:111-117 | `onerror` is the counter step plus a retry carrying the captured prompt and settings; nothing else changes. |
| UseWebSocket.CloseStep | frontend/nextjs/hooks/useWebSocket.ts:104-109 | `onclose` stops the heartbeat and forgets the socket. It sends nothing and schedules no retry. |
| UseWebSocket.TickStep | frontend/nextjs/hooks/useWebSocket.ts:68-72 | A heartbeat tick sends "ping" exactly when the socket is open, and otherwise changes nothing. |
| UseWebSocket.TimeoutStep | frontend/nextjs/hooks/useWebSocket.ts:74-80 | The earliest five-minute timer is used up. It closes and forgets the current socket exactly when that socket armed it and is still open; otherwise nothing else changes. It sends nothing and leaves the heartbeat running. |
| UseWebSocket.LeftoverTimerSparesNewSocket | frontend/nextjs/hooks/useWebSocket.ts:74-80 | After open, close, create and open again, the first socket's timer leaves the second socket open and held; the second socket's own timer then closes it. |
| UseWebSocket.RequestHasAddress | frontend/nextjs/hooks/useWebSocket.ts:54-56 | Whenever the envelope can be built, there is an address. |
| UseWebSocket.PingsOnlyWhileOpen | frontend/nextjs/hooks/useWebSocket.ts:68-72 | n ticks on an open socket send exactly n pings; on a socket that is not open they send nothing. |
| UseWebSocket.FreshSessionSendsEnvelopeFirst | frontend/nextjs/hooks/useWebSocket.ts:54-65 | With no socket, a call creates one, and after open the first and only send is the envelope, with the counter at 0. |
| UseWebSocket.PageState.Receive | frontend/nextjs/hooks/useWebSocket.ts:83-102 | The setter calls for one frame leave the page state equal to the reducer applied to the old state. |
| UseWebSocket.WebSocketHook.constructor | frontend/nextjs/hooks/useWebSocket.ts:5-7 | No socket, counter 0, nothing sent. |
| UseWebSocket.WebSocketHook.Initialize | frontend/nextjs/hooks/useWebSocket.ts:37-125 | The new connection state and outcome are `InitStep` applied to the envelope the call builds and the address `determineWebSocketUrl` gives. |
| UseWebSocket.WebSocketHook.Connect | frontend/nextjs/hooks/useWebSocket.ts:54-124 | Create, throw on a connecting socket, or send on the open one, as `InitStep`. |
| UseWebSocket.WebSocketHook.OnOpen | frontend/nextjs/hooks/useWebSocket.ts:61-81 | The new state is `OpenStep` of the old one. |
| UseWebSocket.WebSocketHook.OnMessage | frontend/nextjs/hooks/useWebSocket.ts:83-102 | The page state becomes `Dispatch` of the old one; the connection is untouched. |
| UseWebSocket.WebSocketHook.OnError | frontend/nextjs/hooks/useWebSocket.ts:111-117 | The new state and the delay are `FailStep` of the old state. |
| UseWebSocket.WebSocketHook.OnClose | frontend/nextjs/hooks/useWebSocket.ts:104-109 | The new state is `CloseStep` of the old one. |
| UseWebSocket.WebSocketHook.HeartbeatTick | frontend/nextjs/hooks/useWebSocket.ts:68-72 | The new state is `TickStep` of the old one. |
| UseWebSocket.WebSocketHook.CloseTimerFires | frontend/nextjs/hooks/useWebSocket.ts:74-80 | The new state is `TimeoutStep` of the old one. |
| UseWebSocket.WebSocketHook.RetryFires | frontend/nextjs/hooks/useWebSocket.ts:115 | The earliest retry runs `initializeWebSocket` again with the request it captured. |
| ChatBox.Authority | frontend/nextjs/components/Settings/ChatBox.tsx:32 | The authority is the longest prefix without '/', '?' or '#'. |
| ChatBox.UrlHost | frontend/nextjs/components/Settings/ChatBox.tsx:32 | `new URL(apiUrl).host` exists only for an http(s) URL. |
| ChatBox.WsUrlShape | frontend/nextjs/components/Settings/ChatBox.tsx:31-32 | The socket URL is the page's ws/wss scheme + "//" + the API URL's host + "/ws". It is wss exactly on an https page, and it is absent exactly when the URL constructor throws. |
| ChatBox.BareHost | frontend/nextjs/components/Settings/ChatBox.tsx:32 | A scheme plus a bare host (such as the defaults) yields that host, with only the default port removed. |
| ChatBox.UnparsableThrows | frontend/nextjs/components/Settings/ChatBox.tsx:42 | The handler throws exactly for a frame that is not JSON or is `null`: there is no guard. |
| ChatBox.MessageKinds | frontend/nextjs/components/Settings/ChatBox.tsx:41-50 | "logs" appends the whole message once; "report" appends `output`; "path" replaces accessData with the message. Each touches only its own piece of state, and any other kind changes nothing. |
| ChatBox.ChatBoxView.constructor | frontend/nextjs/components/Settings/ChatBox.tsx:19-22 | Empty logs, empty report, `{}` access data, no socket. |
| ChatBox.ChatBoxView.Mount | frontend/nextjs/components/Settings/ChatBox.tsx:24-63 | The effect runs once. In the browser it opens a socket to `WsUrl`, or rejects when the URL does not parse. It never touches the panels. |
| ChatBox.ChatBoxView.Receive | frontend/nextjs/components/Settings/ChatBox.tsx:41-50 | The panels become `Handle` of the old ones, or stay unchanged when the handler throws. The socket, its address, its open flag and the mounted flag are untouched. |
| ChatBox.ChatBoxView.Unmount | frontend/nextjs/components/Settings/ChatBox.tsx:56-63 | Unmounting leaves the socket open, at the same address, with the panels unchanged: the close function is never registered as the effect's cleanup. |
| ServerUtils.ExtractCommandData | backend/server/server_utils.py:19-42 | There is a command exactly when the payload is a dict (otherwise `.get` raises). |
| ServerUtils.CommandDefaults | backend/server/server_utils.py:35-42 | task and report_type default to "", headers to {}, the rest to None; a present field keeps its value. |
| ServerUtils.EmptyCommand | backend/server/server_utils.py:35-42 | `{}` yields exactly the defaults. |
| ServerUtils.RemoveUnsafe | backend/server/server_utils.py:46 | The substitution leaves only word characters, whitespace and '-', and never lengthens the text. |
| ServerUtils.RemoveUnsafeKeeps | backend/server/server_utils.py:46 | A text with nothing to remove is left unchanged. |
| ServerUtils.SanitizedChars | backend/server/server_utils.py:45-46 | A sanitised name holds only word characters, whitespace and '-'. |
| ServerUtils.SanitizeIdempotent | backend/server/server_utils.py:45-46 | Sanitising twice equals sanitising once. |
| ServerUtils.SanitizedFixpoint | backend/server/server_utils.py:45-46 | A name with nothing to remove and nothing to trim is its own sanitisation. |
| ServerUtils.Stem | backend/server/server_utils.py:57 | The `task_<seconds>_` stem has no character the sanitiser removes. |
| ServerUtils.ReportFileNameStem | backend/server/server_utils.py:57 | The report file name always begins with the untouched `task_<seconds>_` stem. |
| ServerUtils.Classify | backend/server/server_utils.py:183-188 | "start" is checked first, then "human_feedback", then everything else is unknown. |
| ServerUtils.MissingFieldsRejected | backend/server/server_utils.py:53-55 | A start command with a falsy task or report_type is answered with the error alone and never streams. |
| ServerUtils.StartStep | backend/server/server_utils.py:183-184 | A start message whose command parses is answered by the start handler. |
| ServerUtils.StartReplyStreams | backend/server/server_utils.py:59-67 | A complete command streams first, and exactly once. |
| ServerUtils.CompleteStartStreams | backend/server/server_utils.py:49-65 | A complete start message streams its own command once, before anything else. |
| ServerUtils.EmptyReportFails | backend/server/server_utils.py:62-67 | Only a report whose `str()` is empty earns "Failed to generate report". A `None` report is written as "None". |
| ServerUtils.ReportWritten | backend/server/server_utils.py:57-65 | A non-empty report is streamed, written under the sanitised name, and followed by exactly one path message with the written paths. For a string task, the name is built from the task's own text. |
| ServerUtils.Shown | backend/server/server_utils.py:57 | An f-string renders a string as itself; any other value as the supplied formatter gives it. |
| ServerUtils.OneBranchPerMessage | backend/server/server_utils.py:180-188 | Every message goes to exactly one handler, and only a "start" message can stream. |
| ServerUtils.HandleWebsocketCommunication | backend/server/server_utils.py:180-188 | The loop's effects and ending equal `Run`: messages are handled in order until the peer goes away or a handler raises. |
| ServerUtils.NoStartNoStream | backend/server/server_utils.py:180-188 | Without a "start" message the loop never streams. |
| ServerUtils.BuildConfig | backend/server/server_utils.py:115-142 | The dictionary has exactly the table's keys. |
| ServerUtils.BuildConfigRule | backend/server/server_utils.py:115-142 | For distinct keys, every key takes its argument when non-empty, else its resolved environment value. |
| ServerUtils.GetConfigDict | backend/server/server_utils.py:87-142 | `get_config_dict` has exactly the 26 listed keys. |
| ServerUtils.GetConfigDictRule | backend/server/server_utils.py:115-142 | Every key is the argument when truthy, else the environment value (even ""), else its listed literal default. EMBEDDING_MODEL reads OPENAI_EMBEDDING_MODEL. |
| ServerUtils.DistinctConfigKeys | backend/server/server_utils.py:115-142 | No configuration key is listed twice. |
| ServerUtils.UpdateEnvironmentVariables | backend/server/server_utils.py:145-147 | The pairs are assigned in insertion order until one raises. The call raises exactly when some pair cannot be assigned. The environment becomes the old one overridden by the pairs before that one, and no other variable changes. |
| ServerUtils.AssignedPrefix | backend/server/server_utils.py:146-147 | Counts the leading pairs that can be assigned: all pairs before it can be, and the pair at it, if any, cannot. |
| ServerUtils.ItemsMapKeys | backend/server/server_utils.py:145 | The dict holds exactly the keys of its items. |
| ServerUtils.ItemsMapValue | backend/server/server_utils.py:145 | With distinct keys, each key holds the value of its own item. |
| Protocol.EnvelopeIsStart | frontend/nextjs/hooks/useWebSocket.ts:64 | The backend classifies every client envelope as a start command. |
| Protocol.EnvelopeDecodes | backend/server/server_utils.py:50 | Dropping the first six characters of the client envelope leaves exactly the document the client encoded. |
| Protocol.PayloadKeys | frontend/nextjs/hooks/useWebSocket.ts:64 | The payload's members are task, report_type, report_source, tone and headers, in that order. |
| Protocol.NoSourceUrls | frontend/nextjs/hooks/useWebSocket.ts:64 | The client never sends `source_urls`. |
| Protocol.PayloadFields | backend/server/server_utils.py:35-42 | The backend reads back every field the client sent, and None for source_urls. |
| Protocol.EnvelopeParsed | backend/server/server_utils.py:50-51 | The backend reads the client envelope as the client's command. |
| Protocol.CompleteEnvelopeStreams | backend/server/server_utils.py:49-61 | An envelope with a prompt and a report type starts exactly one stream, of the client's command, first. |
| Protocol.IncompleteEnvelopeRejected | backend/server/server_utils.py:53-55 | An envelope without a prompt or a report type is answered with the error message alone. |
| LegacyServer.SanitizeFilenameProperties | backend/server.py:78-79 | The older sanitiser has the same character class, no surrounding whitespace, and idempotence. |
| LegacyServer.BasenameShape | backend/server.py:110-112 | `os.path.basename` is the suffix after the last '/': it holds no '/', and a '/' precedes it unless it is the whole path. |
| LegacyServer.PublicPathShape | backend/server.py:110-112 | Each public path is "outputs/" followed by that base name. |
| LegacyServer.CommandOf | backend/server.py:88-96 | The fields are read exactly when the payload is a dict. |
| LegacyServer.FeedbackUnreachable | backend/server.py:87-120 | As written, no message reaches the feedback branch, and a message not starting with "start" is ignored. |
| LegacyServer.FeedbackDropped | backend/server.py:116-118 | A concrete message, `human_feedback{}`, is dropped. |
| LegacyServer.CorrectedFeedbackReached | backend/server.py:116-118 | With the feedback test beside the start test, a feedback message is parsed and printed, and start messages are handled as before. |
| LegacyServer.CompleteStartStreams | backend/server.py:94-115 | As written (`EndpointStep`), a complete start payload streams, writes the `str()` of the report under the sanitised name, then sends one path message with "outputs/" + basename paths. For a string task, the name is built from the task's own text. The corrected dispatch does the same. |
| LegacyServer.IncompleteStartPrints | backend/server.py:119-120 | As written (`EndpointStep`), a start payload missing task or report_type prints the diagnostic and nothing else; the corrected dispatch does the same. |
| LegacyServer.SettingFor | backend/server.py:151-177 | A key's entry is an entry of the table naming that key; there is none exactly when no entry names it. |
| LegacyServer.BuildConfigRule | backend/server.py:151-177 | The dict display holds exactly the table's keys, each with its last entry's value. |
| LegacyServer.GetConfigRule | backend/server.py:151-177 | An API-key or URL entry is the non-empty header, else the environment, else "". The other entries read only the environment, with their listed defaults, whatever the headers say. |
| LegacyServer.UpdatedKeys | backend/server.py:182-187 | Only fields the request provides are listed. |
| LegacyServer.Written | backend/server.py:183-187 | Only provided fields are written, each with its own value. |
| LegacyServer.UpdatedExactly | backend/server.py:182-187 | A key is listed, and written, exactly when it is a declared field the request sets to a value. |
| LegacyServer.FirstRefused | backend/server.py:183-189 | The first declared field whose provided value the environment refuses: no field before it is refused, and it is. |
| LegacyServer.FieldNamesPlain | backend/server.py:37-51 | Every declared field name is non-empty and made of capital letters, digits and underscores. |
| LegacyServer.RefusedExactlyNull | backend/server.py:183-189 | A declared field is refused exactly when the request sets it to a value holding a null character. |
| LegacyServer.WriteProvided | backend/server.py:183-189 | The loop stops at the first refused field, reporting that field. The environment becomes the old one overridden by `Written` of the fields before it, and the keys returned are `UpdatedKeys` of those fields. |
| LegacyServer.WriteAndReply | backend/server.py:181-197 | The reply is the 500 naming the refused field, if any. Otherwise it is "No config values were updated" exactly when no key was updated, else the updated keys in order. Fields before a refused one stay written. |
| LegacyServer.SetConfig | backend/server.py:181-197 | `set_config` over the declared fields answers 500 naming the first refused field, with the fields before it written. Otherwise it answers "No config values were updated" exactly when no key was updated, else the updated keys in declaration order. |
| LegacyServer.NullFreeRequestWritten | backend/server.py:183-189 | A request whose values hold no null character has no refused field. |
| Browser.PickExtends | gpt_researcher/skills/browser.py:78-86 | The loop only appends to what it has picked, and what it appends is a subsequence of the scraped URLs. |
| Browser.PickFresh | gpt_researcher/skills/browser.py:79-83 | The picks have no repeats and none is a current research image. |
| Browser.PickBound | gpt_researcher/skills/browser.py:83-86 | Starting below k, the loop never picks more than k. |
| Browser.PickMaximal | gpt_researcher/skills/browser.py:78-86 | When it ends short of k, every scraped URL was picked or is already a research image. |
| Browser.SelectProperties | gpt_researcher/skills/browser.py:62-88 | The result is the first k fresh URLs in first-occurrence order (all of them for k ≤ 0). So it has no repeats and no current image, and is a subsequence of the input URLs in order. It holds at most k URLs for k ≥ 1. When it is shorter than k, or k ≤ 0, every new URL is in it. |
| Browser.PickTakesFirst | gpt_researcher/skills/browser.py:78-86 | The loop, from any point, adds exactly the first remaining-count fresh URLs, each taken at its first occurrence. |
| Browser.SelectionKeepsImagesUnique | gpt_researcher/skills/browser.py:35-36 | Adding the selection to research images without repeats keeps them without repeats. |
| Browser.BrowserManager.SelectTopImages | gpt_researcher/skills/browser.py:62-88 | The loop returns exactly the selection over the researcher's current images, stopping as soon as k are picked. |
| Browser.BrowserManager.BrowseUrls | gpt_researcher/skills/browser.py:25-59 | The scraped pages are added to the sources and returned. The top two new images, selected against the images held before, are added to the images. A verbose researcher streams the four progress outputs of `BrowseLogs`; a quiet one streams nothing. |
| Browser.ImagesLogCarriesSelection | gpt_researcher/skills/browser.py:25-57 | A verbose browse streams four outputs: the url count, the page count, then "scraping_images" carrying the selected images with their count and the total found, then completion. Only that output carries images, and they are exactly the ones added: at most two, and no more than were found. A quiet browse streams nothing. |
| GetHost.GetFirstReachableUrl | frontend/nextjs/helpers/getHost.ts:5-23 | The probe loop returns the first reachable URL in list order, or null. The copy in `helpers/getHost.js` (lines 3-15) is the same loop. |
| GetHost.FirstReachableSpec | frontend/nextjs/helpers/getHost.ts:5-23 | The answer is null exactly when no probe succeeds. Otherwise it is a listed URL whose probe succeeds, after only failed probes. |
| GetHost.FirstReachablePrefix | frontend/nextjs/helpers/getHost.ts:6-17 | URLs after the first success are never consulted. |
| GetHost.GetHost | frontend/nextjs/helpers/getHost.ts:25-35 | In the browser: localhost:8000 exactly on "localhost", else https://gpt.ilanel.co.il. On the server with the langgraph purpose: http://127.0.0.1:8123 when the configured host contains "localhost", else "https://" + that host. Any other server call gets https://gpt.ilanel.co.il. |
| GetHost.SchemeDoubled | frontend/nextjs/helpers/getHost.ts:29-31 | A configured langgraph host that already has a scheme gets a second "https://". |
| GetHost.DefaultHostDoubled | frontend/nextjs/helpers/getHost.ts:29-31 | With the variable unset, the answer is exactly "https://https://langgraph.ilanel.co.il". |
| GetHost.DefaultHostNotLocal | frontend/nextjs/helpers/getHost.ts:30-31 | The default langgraph host does not contain "localhost", so it never takes the local branch. |
| GetHost.SchemeDoubledExample | frontend/nextjs/helpers/getHost.ts:29-31 | LANGGRAPH_HOST_URL = "https://a" gives "https://https://a". |
| GetHost.LanggraphUrl | frontend/nextjs/helpers/getHost.ts:29-31 | The intended langgraph address always has a scheme, keeps a host that has one, and prefixes https:// otherwise. |
| GetHost.CorrectedGetHost | frontend/nextjs/helpers/getHost.ts:25-35 | Outside the langgraph server branch it agrees with `getHost`. |
| GetHost.CorrectedDefaultHost | frontend/nextjs/helpers/getHost.ts:29-31 | Corrected, the default langgraph host is returned exactly as it is, with one scheme. |
| GetHost.ChooseUrl | frontend/nextjs/helpers/getHost.ts:50-52 | A localhost page takes the second entry (undefined without one). Elsewhere the answer is the first reachable entry when truthy, else the first entry. |
| GetHost.ChooseFromList | frontend/nextjs/helpers/getHost.ts:48-52 | Probes run only off localhost, and the answer is `ChooseUrl` of their result. |
| GetHost.GetSiteUrl | frontend/nextjs/helpers/getHost.ts:37-45 | In the browser it is the choice over NEXT_PUBLIC_SITE_URL or the defaults; elsewhere "". |
| GetHost.GetApiUrl | frontend/nextjs/helpers/getHost.ts:47-55 | In the browser it is the choice over the split list. On the server it is NEXT_PUBLIC_API_URL unsplit, or https://gpt.ilanel.co.il. |
| GetHost.BrowserUrlListed | frontend/nextjs/helpers/getHost.ts:50-52 | Off localhost the answer is always listed: the first entry when nothing is reachable, else a reachable one. |
| GetHost.DefaultSiteList | frontend/nextjs/helpers/getHost.ts:39 | The unset variable splits into the two default site URLs, in order. |
| GetHost.DefaultApiList | frontend/nextjs/helpers/getHost.ts:49 | The unset variable splits into the two default API URLs, in order. |
| GetHost.LocalhostDefaults | frontend/nextjs/helpers/getHost.ts:39-51 | A localhost page with the defaults gets http://localhost:3000 and http://localhost:8000. |
| GetHost.SingleUrlOnLocalhost | frontend/nextjs/helpers/getHost.ts:49-51 | A one-URL list leaves a localhost page with `undefined`. |
| GetHostJs.GetHostJs | frontend/nextjs/helpers/getHost.js:16-23 | In the browser it resolves to http://localhost:8000 or plain-http gpt.ilanel.co.il. On the server, "langraph-gui" rejects (undeclared `host`), and every other call resolves to undefined. |
| GetHostJs.BrowserHostsAgree | frontend/nextjs/helpers/getHost.js:17-19 | In the browser the two copies agree on localhost and otherwise differ only in the scheme. |
| GetHostJs.LanggraphSpellingUndefined | frontend/nextjs/helpers/getHost.js:20-23 | The correct spelling "langgraph-gui" resolves to undefined here. |
| GetHostJs.DefaultsPlainHttp | frontend/nextjs/helpers/getHost.js:27-37 | Both default lists use http:// for both entries. |
| GetHostJs.GetSiteUrl | frontend/nextjs/helpers/getHost.js:25-33 | The same browser choice over the plain-http site list; "" outside the browser. |
| GetHostJs.GetApiUrl | frontend/nextjs/helpers/getHost.js:35-43 | The same browser choice over the plain-http API list; "" outside the browser too. |
| GetHostJs.DefaultAnswersPlainHttp | frontend/nextjs/helpers/getHost.js:25-43 | With the variables unset, every browser answer is one of the plain-http defaults. |
| GetHostJs.SiteList | frontend/nextjs/helpers/getHost.js:27 | The unset variable splits into the default site list. |
| GetHostJs.ApiList | frontend/nextjs/helpers/getHost.js:37 | The unset variable splits into the default API list. |
| UseApiUrl.DetermineApiUrl | frontend/nextjs/hooks/useApiUrl.js:7-18 | "localhost" gives http://localhost:8000 and "wow.ilanel.co.il" gives https://gpt.ilanel.co.il. Otherwise the answer is NEXT_PUBLIC_API_URL when non-empty, else https://gpt.ilanel.co.il. It is never "". |
| UseApiUrl.SameServerAsSocket | frontend/nextjs/hooks/useApiUrl.js:17 | The REST base URL and the hook's socket address name the same host. |
| UseApiUrl.ApiUrlHook.constructor | frontend/nextjs/hooks/useApiUrl.js:4 | The state starts as "". |
| UseApiUrl.ApiUrlHook.Current | frontend/nextjs/hooks/useApiUrl.js:23 | The returned URL is "" exactly before the effect has run. |
| UseApiUrl.ApiUrlHook.AfterRender | frontend/nextjs/hooks/useApiUrl.js:6-21 | Only the first effect sets `determineApiUrl()`; later renders keep it. |
| UseApiUrl.RenderTwice | frontend/nextjs/hooks/useApiUrl.js:20-21 | The URL fixed at mount stays, whatever later windows and environments say. |
| Editor.NewEditor | multi_agents/agents/editor.py:16-19 | headers is the argument when truthy, else {}. |
| Editor.FeedbackInstruction | multi_agents/agents/editor.py:114-118 | The feedback sentence is non-empty exactly when feedback is asked for, is non-empty, and does not lower to "no". It then quotes the feedback. |
| Editor.InstructionsQuoteSummary | multi_agents/agents/editor.py:120-123 | The instructions quote the research summary between single quotes and carry the feedback sentence. |
| Editor.InstructionsStateBound | multi_agents/agents/editor.py:126 | The instructions state the max_sections bound verbatim. |
| Editor.PlanningPrompt | multi_agents/agents/editor.py:88-103 | Two messages: the editor's role (system), then the instructions (user). |
| Editor.PlanResearch | multi_agents/agents/editor.py:44-48 | The result has exactly the keys title, date and sections, in order. |
| Editor.PlanCopies | multi_agents/agents/editor.py:44-48 | Each field reads back as the plan's own value (None where absent). |
| Editor.PlanIdempotent | multi_agents/agents/editor.py:44-48 | Projecting a projected plan changes nothing. |
| Editor.TaskInput | multi_agents/agents/editor.py:182-187 | A section's input has four members, the topic being the query. |
| Editor.TaskInputFields | multi_agents/agents/editor.py:182-187 | task, topic, title and headers read back as given. |
| Editor.Normalised | multi_agents/agents/editor.py:71-76 | A dict with 'draft' contributes its draft; anything else contributes {"error": "Invalid result format"}. |
| Editor.NormaliseResults | multi_agents/agents/editor.py:69-78 | One entry per result, in order, each normalised. |
| Editor.NormalisedCases | multi_agents/agents/editor.py:69-78 | No result is dropped: each becomes its draft or the placeholder. |
| Editor.RunParallelResearch | multi_agents/agents/editor.py:57-78 | There is one chain run per section query, in order, on {task, topic=query, title, headers}, and research_data holds their normalised results. |
| Editor.Route | multi_agents/agents/editor.py:157-161 | The reviewer goes to END exactly when the review is None, else to the reviser. |
| Editor.ReviewLoopShape | multi_agents/agents/editor.py:154-161 | From the reviewer on, every step follows an edge, and END comes last exactly when some review is None. |
| Editor.TraceFollowsGraph | multi_agents/agents/editor.py:154-161 | A section's walk starts at the researcher and follows the graph's edges. It reaches END exactly when a review is None, as its last node only. |
| Editor.RevisionsBeforeAcceptance | multi_agents/agents/editor.py:155-161 | The reviser runs once per rejected review before the accepting one. |
| Reviewer.JoinWith | multi_agents/agents/reviewer.py:17 | An empty list joins to ""; otherwise the text starts with the first guideline, with no marker before it. |
| Reviewer.JoinWithContents | multi_agents/agents/reviewer.py:17 | Every guideline appears, and the length is their total plus one "- " between each two neighbours. |
| Reviewer.RevisePrompt | multi_agents/agents/reviewer.py:21-25 | The revise text quotes the reviser's notes. |
| Reviewer.ReviseSection | multi_agents/agents/reviewer.py:31 | The revise text is included exactly when revision_notes is truthy. |
| Reviewer.ReviewPromptShows | multi_agents/agents/reviewer.py:27-34 | The prompt shows the guidelines, the draft, and the revise text when there are notes. |
| Reviewer.ReviseInsertedAfterIntro | multi_agents/agents/reviewer.py:27-34 | The prompt is the introduction, then the revise section, then the same guidelines-and-draft tail whether or not there are notes. |
| Reviewer.TailIgnoresNotes | multi_agents/agents/reviewer.py:31-33 | The guidelines-and-draft tail does not depend on the notes. |
| Reviewer.ReviewDecision | multi_agents/agents/reviewer.py:45 | The review is None exactly when the answer contains "None" anywhere, else the answer unchanged. |
| Reviewer.MentionAccepts | multi_agents/agents/reviewer.py:45 | An answer mentioning "None" in passing accepts the draft, and the graph ends. |
| Reviewer.DecisionRoutes | multi_agents/agents/reviewer.py:45 | The graph ends after a review exactly when the answer mentions "None"; otherwise the answer goes to the reviser. |
| Reviewer.FeedbackLog | multi_agents/agents/reviewer.py:47-52 | The feedback line is streamed exactly when the agent has a websocket and stream_output, else printed, and it quotes the answer. |
| Reviewer.ReviewDraft | multi_agents/agents/reviewer.py:15-45 | It sends the template and the review prompt, logs once exactly when verbose, and returns the decision. |
| Reviewer.Run | multi_agents/agents/reviewer.py:54-67 | When guidelines are not followed, the model is not called and the review is None. Otherwise the model is called with the review prompt (`ReviewDraft`'s template and prompt), the review is the decision, and "Reviewing draft..." is logged first. |
| Reviewer.FeedbackLoggedWhenVerbose | multi_agents/agents/reviewer.py:42-52 | Review feedback is logged once, last, exactly when verbose and following guidelines. It is streamed exactly when the agent can stream. |
| Reviewer.UnfollowedAccepts | multi_agents/agents/reviewer.py:59-65 | A task that does not follow guidelines is accepted at its first review. |
| Json.Lookup | backend/server/server_utils.py:36-41 | A key's value is that of its last member; there is none exactly when no member has the key. |
| Json.RoundTrip | frontend/nextjs/hooks/useWebSocket.ts:64 | Parsing the compact serialisation of any value gives it back. |
| Js.GetProp | frontend/nextjs/hooks/useWebSocket.ts:86 | Reading a property throws exactly on `null`. A defined property is the object's own member. |
| Py.Get | backend/server/server_utils.py:36-41 | `dict.get` of a missing key gives the default; of a present key, the value of its last member. |
| Py.GetEnv | backend/server/server_utils.py:116 | `os.getenv` gives the variable when it is set (even to ""), else the default. |
| Py.Str | backend/server/server_utils.py:62 | `str()` of a string is itself, and of None is "None". |
| Py.Environ.Set | backend/server/server_utils.py:147 | The assignment succeeds exactly for an accepted name and value, and then changes only that variable. When it raises, nothing changes. |
| Web.EnvOr | frontend/nextjs/helpers/getHost.ts:30 | `process.env[name] \|\| fallback`: an unset or empty variable gives the fallback. |
| Web.WsScheme | frontend/nextjs/hooks/useWebSocket.ts:14 | The socket scheme is wss exactly on an https page. |
| Text.StripHttpScheme | frontend/nextjs/hooks/useWebSocket.ts:31 | One leading http:// or https:// is removed, and nothing else. |
| Text.Split | frontend/nextjs/helpers/getHost.ts:49 | `split(',')` yields at least one piece, none holding the separator, and joining the pieces restores the text. |
| Text.SplitJoin | frontend/nextjs/helpers/getHost.ts:49 | Splitting undoes joining pieces without the separator. |
| Text.StripLeft | backend/server/server_utils.py:46 | Only leading whitespace is removed, and the result does not start with whitespace. |
| Text.StripRight | backend/server/server_utils.py:46 | Only trailing whitespace is removed, and the result does not end with whitespace. |
| Text.Strip | backend/server/server_utils.py:46 | The result neither starts nor ends with whitespace. |
| Text.StripFixpoint | backend/server/server_utils.py:46 | A text without surrounding whitespace is its own strip. |
| Text.Drop | backend/server/server_utils.py:50 | `s[n:]` is what follows the first n characters, or "" for a shorter text. |

## What the hook does not do

- **No connection-state machine.** The hook keeps only the socket in React state and the
  socket's own readyState. Waiting for human feedback shows only as the panel flag.
- **No reconnect on close.** `onclose` stops the heartbeat and forgets the socket. Only
  `onerror` schedules retries (`UseWebSocket.CloseStep`).
- **No timer cancellation.** `onclose` clears only the heartbeat. The five-minute timer is
  never cancelled; when it fires it tests the socket that armed it, so a timer left by an
  earlier socket does nothing (`UseWebSocket.TimeoutStep`).
- **No failed state.** Once the counter is at 3, further errors schedule nothing, and
  nothing else changes (`UseWebSocket.ConsecutiveErrors`).

## Left out

- Real transport and runtime are out. Sockets, `setInterval`/`setTimeout`, `localStorage`,
  `fetch` with its timeout and `AbortController` are not modelled; the model has events
  the environment fires, a `stored` parameter, and a `reachable` predicate instead.
- `time.time()` and `datetime.now()` are parameters (`now`, `today`).
- File writing (`write_md_to_pdf`, `write_md_to_word`, `write_text_to_md`) is the
  parameter `io.write`. Upload, deletion and the static file routes are not modelled,
  because they are filesystem I/O: `handle_file_upload`, `handle_file_deletion` and their
  counterparts in `backend/server.py`.
- `execute_multi_agents` and `/api/multi_agents` are not modelled: they call the
  research task.
- `manager.start_streaming` is the parameter `io.stream`, and `manager.connect` /
  `disconnect` are not modelled.
- `print_agent_output` and `stream_output` are not executed. The reviewer's calls are
  `Reviewer.Log` records. The verbose `stream_output` calls of `browse_urls` are
  `Browser.ScrapeLog` records: their name, the numbers their message reports, and the
  images sent along. The Hebrew message text itself is not modelled. The editor's `_log_parallel_research` is not modelled, because it
  only logs. `_initialize_agents` and the graph compilation are not modelled either; the
  compiled chain is the parameter `chain`.
- Model calls (`call_model`) are parameters: the plan, the review answer.
- The text an f-string gives a Python value other than a string is a parameter:
  `io.show` for a non-string `task` field (`ServerUtils.Shown`), `shownGuidelines` for
  the guidelines list.
- Concurrency is not modelled. `asyncio.gather` runs in list order. The interleaving of
  several sockets' handlers, and stale React closures, are out.
- JSON numbers are outside the JSON model, and so are `\u` surrogate pairs in the parser
  (a string's characters are Unicode scalar values). A stored configuration or frame that
  holds a number is treated like one that does not parse.
- Python's `\w` covers every Unicode letter and digit. `ServerUtils.IsWordChar` covers
  ASCII, the underscore and the Hebrew letters only.
- md5 is treated as injective: images are de-duplicated on their URLs directly.
- The researcher's `add_research_sources` / `add_research_images` are taken to append,
  because the researcher class is not part of this model.
- `ConfigRequest` validation by pydantic is not modelled. A request is the map of the
  fields it set, each to a string or None.
- `os.environ[key] = value` raises on a null character in the name or the value, an
  '=' in the name, or an empty name (`Py.Assignable`); `UpdateEnvironmentVariables`,
  `LegacyServer.WriteProvided` and `LegacyServer.SetConfig` model the raise and the
  partial write. The text of the exception in the 500 detail is not modelled; other
  causes of failure (an unencodable name, a full environment) are out.
- `frontend/nextjs/hooks/_useApiUrl.js` is not part of this model. It is a broken copy of
  `useApiUrl.js`.
- ChatBox's `getSiteUrl()` result is unused by the component and is not modelled; the
  resolved `getApiUrl()` is the parameter `apiUrl`.
- `UseWebSocket.WebSocketHook.RetryFires` reads the hook's current socket state. In the
  source, the retry calls the `initializeWebSocket` closure of an earlier render, which
  may see an older `socket`: a stale closure.
- `UseWebSocket.WebSocketHook` keeps one heartbeat flag and the readyState of the socket
  created last. Intervals left behind by earlier sockets are not tracked.
- `UseWebSocket.CloseStep` is the `onclose` of the socket created last. An `onclose` that
  an earlier socket delivers late, after a new socket exists, is not modelled; in the
  source it would clear the new heartbeat and drop the new socket from state.
- `ChatBox.UrlHost` follows the URL parser only for http and https URLs with a non-empty
  authority. It takes the authority verbatim apart from the default port: no userinfo
  removal, case folding, IDNA or percent-decoding. Other schemes are treated as throwing.
- `Editor.RunParallelResearch` reports a "sections" value that is not a list as None.
  Python would iterate a string's characters or a dict's keys, and raise only for the
  other values.
- `Editor.PlanningInstructions` takes max_sections as an int. A missing value, which the
  f-string would print as "None", is not modelled.
- `Text.LowersToNo` tests the ASCII spellings of "no". No other character lowers to 'n'
  or 'o' in Python.

## Findings

| source | as written | input that shows it | evidently intended | confidence | as-written member | corrected member |
|---|---|---|---|---|---|---|
| backend/server.py:116 | The `human_feedback` test is an `elif` inside the `if data.startswith("start")` branch, so it only sees texts that start with "start". | `human_feedback{}` is ignored, and no text ever reaches the feedback branch. | A sibling of the "start" test, as `backend/server/server_utils.py` dispatches. | not executed | LegacyServer.FeedbackDropped | LegacyServer.CorrectedFeedbackReached |
| frontend/nextjs/helpers/getHost.ts:31 | `https://${host}` is prefixed to a host whose default, and usual value, already starts with "https://". | LANGGRAPH_HOST_URL = "https://a" gives "https://https://a"; unset gives "https://https://langgraph.ilanel.co.il". | A host that already names its scheme is used as it is. | not executed | GetHost.SchemeDoubledExample | GetHost.CorrectedDefaultHost |
