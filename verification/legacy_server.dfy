/** The older backend entry point (backend/server.py): its copy of the file-name
    sanitiser, the classification of socket messages, and the configuration endpoints. */
module LegacyServer {
  import opened Wrappers
  import opened Json
  import Text
  import Py
  import ServerUtils

  // ---------------------------------------------------------------- file names

  /** This copy of `sanitize_filename` is the same expression as the newer one: its result
      holds only word characters, whitespace and '-', is trimmed, and is a fixpoint. */
  lemma SanitizeFilenameProperties(filename: string)
    ensures var r := ServerUtils.SanitizeFilename(filename);
      && ServerUtils.AllKept(r)
      && (r == [] || (!Text.IsSpace(r[0]) && !Text.IsSpace(r[|r| - 1])))
      && ServerUtils.SanitizeFilename(r) == r
  {
    var r := ServerUtils.SanitizeFilename(filename);
    ServerUtils.SanitizedChars(filename);
    ServerUtils.SanitizeIdempotent(filename);
    assert r == Text.Strip(ServerUtils.RemoveUnsafe(filename));
  }

  /** `os.path.basename(p)`: what follows the last '/'. */
  function Basename(p: string): string
    decreases |p|
  {
    if p == [] || p[|p| - 1] == '/' then []
    else Basename(p[..|p| - 1]) + [p[|p| - 1]]
  }

  /** The base name is the suffix after the last '/': it holds no '/', and unless it is
      the whole path a '/' precedes it. */
  lemma {:induction false} BasenameShape(p: string)
    ensures var r := Basename(p);
      && |r| <= |p| && r == p[|p| - |r|..]
      && (forall i :: 0 <= i < |r| ==> r[i] != '/')
      && (|r| < |p| ==> p[|p| - |r| - 1] == '/')
    decreases |p|
  {
    if p != [] && p[|p| - 1] != '/' {
      var q := p[..|p| - 1];
      BasenameShape(q);
      var b := Basename(q);
      var r := b + [p[|p| - 1]];
      assert r == Basename(p);
      assert b == q[|q| - |b|..];
      assert r == p[|p| - |r|..];
      if |r| < |p| {
        assert p[|p| - |r| - 1] == q[|q| - |b| - 1];
      }
    }
  }

  /** `f"outputs/{os.path.basename(p)}"` */
  function PublicPath(p: string): string
  {
    "outputs/" + Basename(p)
  }

  /** A public path is "outputs/" followed by the last segment of the written path: a
      suffix of it that holds no '/' and is preceded by one unless it is the whole path. */
  lemma PublicPathShape(p: string)
    ensures var r := PublicPath(p);
      && |r| >= 8 && r[..8] == "outputs/"
      && var name := r[8..];
      && |name| <= |p| && name == p[|p| - |name|..]
      && (forall i :: 0 <= i < |name| ==> name[i] != '/')
      && (|name| < |p| ==> p[|p| - |name| - 1] == '/')
  {
    var r := PublicPath(p);
    BasenameShape(p);
    assert r[8..] == Basename(p);
  }

  /** `{"type": "path", "output": {...}}` with every path made public. */
  function PathMessage(paths: ServerUtils.FilePaths): Json
  {
    JObj([Member("type", JStr("path")),
          Member("output", JObj([Member("pdf", JStr(PublicPath(paths.pdf))),
                                 Member("docx", JStr(PublicPath(paths.docx))),
                                 Member("md", JStr(PublicPath(paths.md)))]))])
  }

  // ---------------------------------------------------------------- the socket endpoint

  /** The fields read from a start payload: here `task` and `report_type` default to None.
      `None` when the payload is not a dict. */
  function CommandOf(data: Json): (r: Option<ServerUtils.Command>)
    ensures r.Some? <==> data.JObj?
  {
    match data
    case JObj(ms) =>
      Some(ServerUtils.Command(
        Py.Get(ms, "task", JNull),
        Py.Get(ms, "report_type", JNull),
        Py.Get(ms, "source_urls", JNull),
        Py.Get(ms, "tone", JNull),
        Py.Get(ms, "headers", JObj([])),
        Py.Get(ms, "report_source", JNull)))
    case _ => None
  }

  /** What handling one message does, in order. */
  datatype Effect =
    | Stream(command: ServerUtils.Command)         // `manager.start_streaming(...)`
    | WriteFiles(report: string, filename: string) // the three `write_*` calls
    | SendJson(message: Json)                      // `websocket.send_json(...)`
    | PrintFeedback(feedback: Json)                // the human-feedback diagnostic
    | PrintNotEnough                               // "Error: not enough parameters provided."

  /** A start payload both of whose required fields are present: stream, write the
      report (converted with `str()` first), and send the public paths. */
  function Streamed(c: ServerUtils.Command, filename: string, io: ServerUtils.Io): seq<Effect>
  {
    var report := Py.Str(io.stream(c));
    [Stream(c), WriteFiles(report, filename), SendJson(PathMessage(io.write(report, filename)))]
  }

  /** The feedback branch: the text after the 14-character prefix is parsed and printed;
      `None` when it is not JSON. */
  function Feedback(data: string): Option<seq<Effect>>
  {
    match Decode(Text.Drop(data, 14))
    case None => None
    case Some(feedback) => Some([PrintFeedback(feedback)])
  }

  /** One iteration of `websocket_endpoint`'s loop as written: the human-feedback test
      sits inside the "start" branch. `None` when the handler raises. */
  function EndpointStep(data: string, now: nat, io: ServerUtils.Io): Option<seq<Effect>>
  {
    if !Text.StartsWith(data, "start") then Some([])
    else
      match Decode(Text.Drop(data, 6))
      case None => None
      case Some(payload) =>
        match CommandOf(payload)
        case None => None
        case Some(c) =>
          if Py.Truthy(c.task) && Py.Truthy(c.reportType) then Some(Streamed(c, ServerUtils.ReportFileName(now, ServerUtils.Shown(c.task, io)), io))
          else if Text.StartsWith(data, "human_feedback") then Feedback(data)
          else Some([PrintNotEnough])
  }

  predicate NoFeedback(effects: seq<Effect>)
  {
    forall i :: 0 <= i < |effects| ==> !effects[i].PrintFeedback?
  }

  /** As written, no message ever reaches the feedback branch, and any message not
      starting with "start" is ignored. */
  lemma FeedbackUnreachable(data: string, now: nat, io: ServerUtils.Io)
    ensures EndpointStep(data, now, io).Some? ==> NoFeedback(EndpointStep(data, now, io).value)
    ensures !Text.StartsWith(data, "start") ==> EndpointStep(data, now, io) == Some([])
  {
    if Text.StartsWith(data, "start") {
      StartIsNotFeedback(data);
      var payload := Decode(Text.Drop(data, 6));
      if payload.Some? && CommandOf(payload.value).Some? {
        var c := CommandOf(payload.value).value;
        if Py.Truthy(c.task) && Py.Truthy(c.reportType) {
          assert EndpointStep(data, now, io) == Some(Streamed(c, ServerUtils.ReportFileName(now, ServerUtils.Shown(c.task, io)), io));
          StreamedNoFeedback(c, now, io);
        } else {
          assert EndpointStep(data, now, io) == Some([PrintNotEnough]);
        }
      }
    }
  }

  lemma StreamedNoFeedback(c: ServerUtils.Command, now: nat, io: ServerUtils.Io)
    ensures NoFeedback(Streamed(c, ServerUtils.ReportFileName(now, ServerUtils.Shown(c.task, io)), io))
  {
    var r := Streamed(c, ServerUtils.ReportFileName(now, ServerUtils.Shown(c.task, io)), io);
    forall i | 0 <= i < |r|
      ensures !r[i].PrintFeedback?
    {
      assert i == 0 || i == 1 || i == 2;
    }
  }

  /** No text starts with both prefixes. */
  lemma StartIsNotFeedback(data: string)
    requires Text.StartsWith(data, "start")
    ensures !Text.StartsWith(data, "human_feedback")
  {
    assert data[0] == "start"[0];
  }

  /** A concrete message the endpoint drops: `human_feedback` with an empty payload. */
  lemma FeedbackDropped(io: ServerUtils.Io)
    ensures EndpointStep("human_feedback{}", 0, io) == Some([])
  {
    assert !Text.StartsWith("human_feedback{}", "start") by {
      assert "human_feedback{}"[0] != "start"[0];
    }
  }

  /** The endpoint with the feedback test beside the "start" test, as the newer module
      dispatches. */
  function CorrectedEndpointStep(data: string, now: nat, io: ServerUtils.Io): Option<seq<Effect>>
  {
    if Text.StartsWith(data, "start") then
      match Decode(Text.Drop(data, 6))
      case None => None
      case Some(payload) =>
        match CommandOf(payload)
        case None => None
        case Some(c) =>
          if Py.Truthy(c.task) && Py.Truthy(c.reportType) then Some(Streamed(c, ServerUtils.ReportFileName(now, ServerUtils.Shown(c.task, io)), io))
          else Some([PrintNotEnough])
    else if Text.StartsWith(data, "human_feedback") then Feedback(data)
    else Some([])
  }

  /** Corrected, a feedback message is parsed and printed, and a start message is handled
      as before. */
  lemma CorrectedFeedbackReached(data: string, now: nat, io: ServerUtils.Io)
    ensures Text.StartsWith(data, "human_feedback") && Decode(Text.Drop(data, 14)).Some? ==>
              CorrectedEndpointStep(data, now, io) == Some([PrintFeedback(Decode(Text.Drop(data, 14)).value)])
    ensures Text.StartsWith(data, "start") ==> CorrectedEndpointStep(data, now, io) == EndpointStep(data, now, io)
  {
    if Text.StartsWith(data, "human_feedback") {
      if Text.StartsWith(data, "start") {
        StartIsNotFeedback(data);
      }
    }
  }

  /** As written, a start payload with both fields streams once and then sends one path
      message whose three paths are "outputs/" followed by the written file's base name;
      the corrected dispatch does the same. */
  lemma CompleteStartStreams(data: string, now: nat, c: ServerUtils.Command, io: ServerUtils.Io)
    requires Text.StartsWith(data, "start")
    requires Decode(Text.Drop(data, 6)).Some?
    requires CommandOf(Decode(Text.Drop(data, 6)).value) == Some(c)
    requires Py.Truthy(c.task) && Py.Truthy(c.reportType)
    ensures var effects := EndpointStep(data, now, io).value;
      var paths := io.write(Py.Str(io.stream(c)), ServerUtils.ReportFileName(now, ServerUtils.Shown(c.task, io)));
      && |effects| == 3 && effects[0] == Stream(c)
      && effects[1] == WriteFiles(Py.Str(io.stream(c)), ServerUtils.ReportFileName(now, ServerUtils.Shown(c.task, io)))
      && effects[2] == SendJson(PathMessage(paths))
    ensures c.task.JStr? ==>
              EndpointStep(data, now, io).value[1]
                == WriteFiles(Py.Str(io.stream(c)), ServerUtils.ReportFileName(now, c.task.s))
    ensures CorrectedEndpointStep(data, now, io) == EndpointStep(data, now, io)
  {
    var filename := ServerUtils.ReportFileName(now, ServerUtils.Shown(c.task, io));
    assert EndpointStep(data, now, io) == Some(Streamed(c, filename, io));
    CorrectedFeedbackReached(data, now, io);
  }

  /** As written (and corrected), a start payload without a `task` or a `report_type`
      never streams: it prints the diagnostic. */
  lemma IncompleteStartPrints(data: string, now: nat, c: ServerUtils.Command, io: ServerUtils.Io)
    requires Text.StartsWith(data, "start")
    requires Decode(Text.Drop(data, 6)).Some?
    requires CommandOf(Decode(Text.Drop(data, 6)).value) == Some(c)
    requires !Py.Truthy(c.task) || !Py.Truthy(c.reportType)
    ensures EndpointStep(data, now, io) == Some([PrintNotEnough])
    ensures CorrectedEndpointStep(data, now, io) == EndpointStep(data, now, io)
  {
    StartIsNotFeedback(data);
  }

  // ---------------------------------------------------------------- GET /getConfig

  /** A `/getConfig` entry: an API key or public URL that a request header can supply,
      falling back to the variable of the same name and then to "", or a setting read only
      from the environment, with its own default. */
  datatype Setting =
    | HeaderOrEnv(key: string)
    | EnvOnly(key: string, envName: string, default: string)

  const Settings: seq<Setting> := [
    HeaderOrEnv("LANGCHAIN_API_KEY"),
    HeaderOrEnv("OPENAI_API_KEY"),
    HeaderOrEnv("TAVILY_API_KEY"),
    HeaderOrEnv("GOOGLE_API_KEY"),
    HeaderOrEnv("GOOGLE_CX_KEY"),
    HeaderOrEnv("BING_API_KEY"),
    HeaderOrEnv("SEARCHAPI_API_KEY"),
    HeaderOrEnv("SERPAPI_API_KEY"),
    HeaderOrEnv("SERPER_API_KEY"),
    HeaderOrEnv("SEARX_URL"),
    HeaderOrEnv("ANTHROPIC_API_KEY"),
    HeaderOrEnv("NCBI_API_KEY"),
    HeaderOrEnv("EXA_API_KEY"),
    EnvOnly("LANGCHAIN_TRACING_V2", "LANGCHAIN_TRACING_V2", "true"),
    EnvOnly("DOC_PATH", "DOC_PATH", "./my-docs"),
    EnvOnly("RETRIEVER", "RETRIEVER", "tavily"),
    EnvOnly("EMBEDDING_MODEL", "OPENAI_EMBEDDING_MODEL", "text-embedding-3-large"),
    EnvOnly("EMBEDDING_PROVIDER", "EMBEDDING_PROVIDER", "openai"),
    EnvOnly("LLM_PROVIDER", "LLM_PROVIDER", "openai"),
    EnvOnly("OLLAMA_BASE_URL", "OLLAMA_BASE_URL", ""),
    EnvOnly("DEFAULT_LLM_MODEL", "DEFAULT_LLM_MODEL", "gpt-4o-mini"),
    EnvOnly("FAST_LLM_MODEL", "FAST_LLM_MODEL", "gpt-4o-mini"),
    EnvOnly("SMART_LLM_MODEL", "SMART_LLM_MODEL", "gpt-4o-2024-08-06"),
    HeaderOrEnv("NEXT_PUBLIC_API_URL"),
    HeaderOrEnv("NEXT_PUBLIC_SITE_URL")
  ]

  /** The value of one entry; `headers` holds the headers the request carried, by the key
      they fill (a missing header is None, and `or` also skips an empty one). */
  function Value(s: Setting, headers: map<string, string>, env: map<string, string>): string
  {
    match s
    case HeaderOrEnv(key) =>
      if key in headers && headers[key] != "" then headers[key] else Py.GetEnv(env, key, "")
    case EnvOnly(_, envName, default) => Py.GetEnv(env, envName, default)
  }

  /** The entry that fills `key`: the last one naming it, as in a dict display. */
  function SettingFor(table: seq<Setting>, key: string): (r: Option<Setting>)
    ensures r.Some? ==> r.value in table && r.value.key == key
    ensures r.None? ==> forall i :: 0 <= i < |table| ==> table[i].key != key
    decreases |table|
  {
    if table == [] then None
    else if table[|table| - 1].key == key then Some(table[|table| - 1])
    else SettingFor(table[..|table| - 1], key)
  }

  /** The dictionary a dict display of `table` builds. */
  function BuildConfig(table: seq<Setting>, headers: map<string, string>, env: map<string, string>)
    : map<string, string>
    decreases |table|
  {
    if table == [] then map[]
    else
      var last := table[|table| - 1];
      BuildConfig(table[..|table| - 1], headers, env)[last.key := Value(last, headers, env)]
  }

  /** Every entry's key is in the dictionary, no other, each with its entry's value. */
  lemma {:induction false} BuildConfigRule(table: seq<Setting>, headers: map<string, string>,
                                           env: map<string, string>, key: string)
    ensures key in BuildConfig(table, headers, env) <==> SettingFor(table, key).Some?
    ensures key in BuildConfig(table, headers, env) ==>
              BuildConfig(table, headers, env)[key] == Value(SettingFor(table, key).value, headers, env)
    decreases |table|
  {
    if table != [] {
      BuildConfigRule(table[..|table| - 1], headers, env, key);
    }
  }

  /** `get_config(...)` */
  function GetConfig(headers: map<string, string>, env: map<string, string>): map<string, string>
  {
    BuildConfig(Settings, headers, env)
  }

  /** A header entry takes a non-empty header, else the environment, else ""; an
      environment entry reads only the environment, with its listed default, whatever the
      headers say. */
  lemma GetConfigRule(headers: map<string, string>, env: map<string, string>, key: string)
    requires SettingFor(Settings, key).Some?
    ensures key in GetConfig(headers, env)
    ensures SettingFor(Settings, key).value.HeaderOrEnv? ==>
              GetConfig(headers, env)[key]
                == (if key in headers && headers[key] != "" then headers[key]
                    else if key in env then env[key] else "")
    ensures var s := SettingFor(Settings, key).value;
      s.EnvOnly? ==>
        GetConfig(headers, env)[key] == (if s.envName in env then env[s.envName] else s.default)
  {
    BuildConfigRule(Settings, headers, env, key);
  }

  // ---------------------------------------------------------------- POST /setConfig

  /** The fields of `ConfigRequest`, in declaration order. */
  const ConfigFields: seq<string> := [
    "ANTHROPIC_API_KEY", "TAVILY_API_KEY", "LANGCHAIN_TRACING_V2", "LANGCHAIN_API_KEY",
    "OPENAI_API_KEY", "DOC_PATH", "RETRIEVER", "GOOGLE_API_KEY", "GOOGLE_CX_KEY",
    "BING_API_KEY", "SEARCHAPI_API_KEY", "SERPAPI_API_KEY", "SERPER_API_KEY", "SEARX_URL"
  ]

  /** A request body: the fields it set, each to a string or to None. */
  type Request = map<string, Option<string>>

  predicate Provided(request: Request, key: string)
  {
    key in request && request[key].Some?
  }

  /** The keys `set_config` updates, in the order it visits them. */
  function UpdatedKeys(fields: seq<string>, request: Request): (r: seq<string>)
    ensures forall k :: k in r ==> k in fields && Provided(request, k)
    decreases |fields|
  {
    if fields == [] then []
    else
      var last := fields[|fields| - 1];
      UpdatedKeys(fields[..|fields| - 1], request) + (if Provided(request, last) then [last] else [])
  }

  /** What `set_config` writes into the environment. */
  function Written(fields: seq<string>, request: Request): (r: map<string, string>)
    ensures forall k :: k in r ==> Provided(request, k) && r[k] == request[k].value
    decreases |fields|
  {
    if fields == [] then map[]
    else
      var last := fields[|fields| - 1];
      var earlier := Written(fields[..|fields| - 1], request);
      if Provided(request, last) then earlier[last := request[last].value] else earlier
  }

  /** Every declared field that the request provides is written and listed; nothing else
      is. */
  lemma {:induction false} UpdatedExactly(fields: seq<string>, request: Request, k: string)
    ensures k in UpdatedKeys(fields, request) <==> k in fields && Provided(request, k)
    ensures k in Written(fields, request) <==> k in fields && Provided(request, k)
    decreases |fields|
  {
    if fields != [] {
      var init := fields[..|fields| - 1];
      UpdatedExactly(init, request, k);
      assert fields == init + [fields[|fields| - 1]];
    }
  }

  /** The reply of `set_config`; `Failed(key)` is the HTTP 500 whose detail names the
      key whose assignment raised. */
  datatype Reply = NoUpdates | Updated(updatedKeys: seq<string>) | Failed(key: string)

  /** The request sets `key` to a value that the environment refuses. */
  predicate Refused(request: Request, key: string)
  {
    Provided(request, key) && !Py.Assignable(key, request[key].value)
  }

  /** The position of the first declared field whose value the environment refuses, or
      `|fields|` when there is none. */
  function FirstRefused(fields: seq<string>, request: Request): (n: nat)
    ensures n <= |fields|
    ensures forall i :: 0 <= i < n ==> !Refused(request, fields[i])
    ensures n < |fields| ==> Refused(request, fields[n])
    decreases |fields|
  {
    if fields == [] || Refused(request, fields[0]) then 0
    else
      var n := 1 + FirstRefused(fields[1..], request);
      assert forall i :: 1 <= i < |fields| ==> fields[i] == fields[1..][i - 1];
      n
  }

  /** A non-empty name of capital letters, digits and underscores. */
  predicate PlainName(s: string)
  {
    s != "" && forall i :: 0 <= i < |s| ==> 'A' <= s[i] <= 'Z' || '0' <= s[i] <= '9' || s[i] == '_'
  }

  lemma FieldNamesPlain()
    ensures forall k :: k in ConfigFields ==> PlainName(k)
  {
    FieldNamesPlain0();
    FieldNamesPlain5();
    FieldNamesPlain10();
  }

  /** Fields 0 to 4 have plain names; the next two lemmas say the same of fields 5 to 9
      and 10 to 13. */
  lemma FieldNamesPlain0()
    ensures forall i :: 0 <= i < 5 ==> PlainName(ConfigFields[i])
  {
  }

  lemma FieldNamesPlain5()
    ensures forall i :: 5 <= i < 10 ==> PlainName(ConfigFields[i])
  {
  }

  lemma FieldNamesPlain10()
    ensures forall i :: 10 <= i < |ConfigFields| ==> PlainName(ConfigFields[i])
  {
  }

  /** The declared field names are all names the environment accepts, so a request is
      refused exactly when a value it sets holds a null character. */
  lemma RefusedExactlyNull(request: Request, key: string)
    requires key in ConfigFields
    ensures Refused(request, key) <==> Provided(request, key) && '\0' in request[key].value
  {
    FieldNamesPlain();
    assert PlainName(key);
  }

  /** What one more field adds to what the loop has written and listed. */
  lemma WriteStep(fields: seq<string>, request: Request, i: nat)
    requires i < |fields|
    ensures Provided(request, fields[i]) ==>
              && Written(fields[..i + 1], request) == Written(fields[..i], request)[fields[i] := request[fields[i]].value]
              && UpdatedKeys(fields[..i + 1], request) == UpdatedKeys(fields[..i], request) + [fields[i]]
    ensures !Provided(request, fields[i]) ==>
              && Written(fields[..i + 1], request) == Written(fields[..i], request)
              && UpdatedKeys(fields[..i + 1], request) == UpdatedKeys(fields[..i], request)
  {
    assert fields[..i + 1][..i] == fields[..i];
  }

  /** The loop of `set_config` over the declared `fields`: it stops at the first field
      whose assignment raises, with the earlier ones already written. */
  method WriteProvided(environ: Py.Environ, fields: seq<string>, request: Request)
    returns (updated: seq<string>, failed: Option<string>)
    modifies environ
    ensures var n := FirstRefused(fields, request);
      && environ.vars == old(environ.vars) + Written(fields[..n], request)
      && updated == UpdatedKeys(fields[..n], request)
      && failed == (if n < |fields| then Some(fields[n]) else None)
  {
    ghost var n := FirstRefused(fields, request);
    updated, failed := [], None;
    var i := 0;
    while i < |fields|
      invariant i <= n
      invariant updated == UpdatedKeys(fields[..i], request)
      invariant environ.vars == old(environ.vars) + Written(fields[..i], request)
    {
      var key := fields[i];
      WriteStep(fields, request, i);
      if key in request && request[key].Some? {
        var ok := environ.Set(key, request[key].value);
        if !ok {
          failed := Some(key);
          return;
        }
        updated := updated + [key];
        Py.UnionUpdate(old(environ.vars), Written(fields[..i], request), key, request[key].value);
      }
      i := i + 1;
    }
  }

  /** `set_config(config)`: each declared field the request sets to a value is written to
      the environment and listed, in declaration order; a value the environment refuses
      ends the call with the 500 reply, the fields before it already written. */
  method SetConfig(environ: Py.Environ, request: Request) returns (reply: Reply)
    modifies environ
    ensures var n := FirstRefused(ConfigFields, request);
      environ.vars == old(environ.vars) + Written(ConfigFields[..n], request)
    ensures var n := FirstRefused(ConfigFields, request);
      reply == if n < |ConfigFields| then Failed(ConfigFields[n])
               else if UpdatedKeys(ConfigFields, request) == [] then NoUpdates
               else Updated(UpdatedKeys(ConfigFields, request))
  {
    reply := WriteAndReply(environ, ConfigFields, request);
  }

  /** The body of `set_config` over the declared `fields`. */
  method WriteAndReply(environ: Py.Environ, fields: seq<string>, request: Request) returns (reply: Reply)
    modifies environ
    ensures var n := FirstRefused(fields, request);
      environ.vars == old(environ.vars) + Written(fields[..n], request)
    ensures var n := FirstRefused(fields, request);
      reply == if n < |fields| then Failed(fields[n])
               else if UpdatedKeys(fields, request) == [] then NoUpdates
               else Updated(UpdatedKeys(fields, request))
  {
    var updated, failed := WriteProvided(environ, fields, request);
    assert fields[..|fields|] == fields;
    if failed.Some? {
      reply := Failed(failed.value);
    } else if updated == [] {
      reply := NoUpdates;
    } else {
      reply := Updated(updated);
    }
  }

  /** A request whose values hold no null character is written whole, and the reply
      lists what it set. */
  lemma NullFreeRequestWritten(request: Request)
    requires forall k :: k in request && request[k].Some? ==> '\0' !in request[k].value
    ensures FirstRefused(ConfigFields, request) == |ConfigFields|
  {
    var n := FirstRefused(ConfigFields, request);
    if n < |ConfigFields| {
      RefusedExactlyNull(request, ConfigFields[n]);
    }
  }
}
