/** The backend's command protocol (backend/server/server_utils.py): classifying incoming
    socket text, reading a start command, the reply a start command earns, the file-name
    sanitiser, and the configuration merge that is written into the environment. */
module ServerUtils {
  import opened Wrappers
  import opened Json
  import Text
  import Py

  // ---------------------------------------------------------------- start command fields

  /** The six fields `extract_command_data` returns; Python `None` is `JNull`. */
  datatype Command = Command(task: Json, reportType: Json, sourceUrls: Json, tone: Json,
                             headers: Json, reportSource: Json)

  /** `extract_command_data(json_data)`; `None` when `json_data` is not a dict and `.get`
      raises. */
  function ExtractCommandData(data: Json): (r: Option<Command>)
    ensures r.Some? <==> data.JObj?
  {
    match data
    case JObj(ms) =>
      Some(Command(
        Py.Get(ms, "task", JStr("")),
        Py.Get(ms, "report_type", JStr("")),
        Py.Get(ms, "source_urls", JNull),
        Py.Get(ms, "tone", JNull),
        Py.Get(ms, "headers", JObj([])),
        Py.Get(ms, "report_source", JNull)))
    case _ => None
  }

  /** A missing field takes its default: "" for task and report type, an empty dict for
      headers, None for the rest; a present field keeps its (last) value. */
  lemma CommandDefaults(ms: seq<Member>)
    ensures var c := ExtractCommandData(JObj(ms)).value;
      && c.task == Lookup(ms, "task").GetOr(JStr(""))
      && c.reportType == Lookup(ms, "report_type").GetOr(JStr(""))
      && c.headers == Lookup(ms, "headers").GetOr(JObj([]))
      && c.sourceUrls == Lookup(ms, "source_urls").GetOr(JNull)
      && c.tone == Lookup(ms, "tone").GetOr(JNull)
      && c.reportSource == Lookup(ms, "report_source").GetOr(JNull)
  {
  }

  /** An empty object yields exactly the defaults. */
  lemma EmptyCommand()
    ensures ExtractCommandData(JObj([])) == Some(Command(JStr(""), JStr(""), JNull, JNull, JObj([]), JNull))
  {
  }

  // ---------------------------------------------------------------- file names

  /** The `\w` class of `re` on str patterns: letters, digits and the underscore. Letters
      are modelled for ASCII and for the Hebrew alphabet. */
  predicate IsWordChar(c: char)
  {
    ('a' <= c <= 'z') || ('A' <= c <= 'Z') || ('0' <= c <= '9') || c == '_'
    || ('א' <= c <= 'ת')
  }

  /** The characters `[^\w\s-]` does not match. */
  predicate Kept(c: char)
  {
    IsWordChar(c) || Text.IsSpace(c) || c == '-'
  }

  /** A text with nothing for the sanitiser's pattern to remove. */
  predicate AllKept(s: string)
  {
    forall i :: 0 <= i < |s| ==> Kept(s[i])
  }

  /** `re.sub(r"[^\w\s-]", "", s)` */
  function RemoveUnsafe(s: string): (r: string)
    ensures AllKept(r)
    ensures |r| <= |s|
    decreases |s|
  {
    if s == [] then []
    else if Kept(s[0]) then [s[0]] + RemoveUnsafe(s[1..])
    else RemoveUnsafe(s[1..])
  }

  /** Removing nothing from a string that has nothing to remove. */
  lemma {:induction false} RemoveUnsafeKeeps(s: string)
    requires AllKept(s)
    ensures RemoveUnsafe(s) == s
    decreases |s|
  {
    if s != [] {
      RemoveUnsafeKeeps(s[1..]);
    }
  }

  /** `sanitize_filename(filename)` */
  function SanitizeFilename(filename: string): string
  {
    Text.Strip(RemoveUnsafe(filename))
  }

  /** A sanitised name holds only word characters, whitespace and '-' (and, by
      `Text.Strip`, neither starts nor ends with whitespace). */
  lemma SanitizedChars(filename: string)
    ensures AllKept(SanitizeFilename(filename))
  {
    var s := RemoveUnsafe(filename);
    var l := Text.StripLeft(s);
    KeptSlice(s, |s| - |l|, |s|);
    var r := Text.StripRight(l);
    KeptSlice(l, 0, |r|);
    assert r == SanitizeFilename(filename);
  }

  lemma KeptSlice(s: string, i: nat, j: nat)
    requires AllKept(s) && i <= j <= |s|
    ensures AllKept(s[i..j])
  {
    forall k | 0 <= k < j - i
      ensures Kept(s[i..j][k])
    {
      assert s[i..j][k] == s[i + k];
    }
  }

  /** Sanitising is idempotent. */
  lemma SanitizeIdempotent(filename: string)
    ensures SanitizeFilename(SanitizeFilename(filename)) == SanitizeFilename(filename)
  {
    SanitizedChars(filename);
    SanitizedFixpoint(SanitizeFilename(filename));
  }

  /** A name with nothing to remove and nothing to trim is left as it is. */
  lemma SanitizedFixpoint(r: string)
    requires AllKept(r) && (r == [] || (!Text.IsSpace(r[0]) && !Text.IsSpace(r[|r| - 1])))
    ensures SanitizeFilename(r) == r
  {
    RemoveUnsafeKeeps(r);
    Text.StripFixpoint(r);
  }

  /** `sanitize_filename(f"task_{int(time.time())}_{task}")`, the clock reading `now` and
      the formatted text of `task` given. */
  function ReportFileName(now: nat, task: string): string
  {
    SanitizeFilename(Stem(now) + task)
  }

  function Stem(now: nat): (r: string)
    ensures AllKept(r)
  {
    "task_" + Text.NatToString(now) + "_"
  }

  lemma {:induction false} RemoveUnsafeAppend(a: string, b: string)
    ensures RemoveUnsafe(a + b) == RemoveUnsafe(a) + RemoveUnsafe(b)
    decreases |a|
  {
    if a == [] {
      assert a + b == b;
    } else {
      assert (a + b)[0] == a[0];
      assert (a + b)[1..] == a[1..] + b;
      RemoveUnsafeAppend(a[1..], b);
      var head := if Kept(a[0]) then [a[0]] else [];
      assert RemoveUnsafe(a + b) == head + RemoveUnsafe(a[1..] + b);
      assert RemoveUnsafe(a) == head + RemoveUnsafe(a[1..]);
    }
  }

  /** Stripping leaves a prefix alone when it begins and ends with a non-space. */
  lemma StripKeepsPrefix(p: string, x: string)
    requires p != [] && !Text.IsSpace(p[0]) && !Text.IsSpace(p[|p| - 1])
    ensures |p| <= |Text.Strip(p + x)| && Text.Strip(p + x)[..|p|] == p
  {
    var s := p + x;
    assert s[0] == p[0];
    assert Text.StripLeft(s) == s;
    var r := Text.StripRight(s);
    assert s[|p| - 1] == p[|p| - 1];
    assert |p| <= |r|;
    assert r[..|p|] == s[..|p|];
  }

  /** Sanitising never touches the `task_<seconds>_` stem of a report file name: the
      stem has no unsafe character and no whitespace to trim. */
  lemma ReportFileNameStem(now: nat, task: string)
    ensures |Stem(now)| <= |ReportFileName(now, task)|
    ensures ReportFileName(now, task)[..|Stem(now)|] == Stem(now)
  {
    var stem := Stem(now);
    RemoveUnsafeAppend(stem, task);
    RemoveUnsafeKeeps(stem);
    assert stem[0] == 't' && stem[|stem| - 1] == '_';
    StripKeepsPrefix(stem, RemoveUnsafe(task));
  }

  // ---------------------------------------------------------------- the reply to a command

  /** What the handlers cannot compute themselves: the text an f-string gives a value,
      what streaming a command returns, and the paths the report files are written to
      (from the report and the file name). */
  datatype Io = Io(show: Json -> string, stream: Command -> Py.Report, write: (string, string) -> FilePaths)

  /** The text `f"{v}"` gives a parsed value: a string is rendered as itself; any other
      value as `io.show` says. */
  function Shown(v: Json, io: Io): (r: string)
    ensures v.JStr? ==> r == v.s
    ensures !v.JStr? ==> r == io.show(v)
  {
    if v.JStr? then v.s else io.show(v)
  }

  /** What handling one message does, in order. */
  datatype Effect =
    | SendJson(message: Json)             // `websocket.send_json(...)`
    | Stream(command: Command)            // `manager.start_streaming(...)`
    | WriteFiles(report: string, filename: string)  // `generate_report_files(...)`
    | PrintFeedback(feedback: Json)       // the human-feedback diagnostic
    | PrintUnknown                        // the unknown-command diagnostic

  /** The paths `generate_report_files` returns. */
  datatype FilePaths = FilePaths(pdf: string, docx: string, md: string)

  function ErrorMessage(text: string): Json
  {
    JObj([Member("error", JStr(text))])
  }

  /** `{"type": "path", "output": {"pdf": ..., "docx": ..., "md": ...}}` */
  function PathMessage(paths: FilePaths): Json
  {
    JObj([Member("type", JStr("path")),
          Member("output", JObj([Member("pdf", JStr(paths.pdf)), Member("docx", JStr(paths.docx)),
                                 Member("md", JStr(paths.md))]))])
  }

  /** The command a start message carries: the text after its six-character prefix
      parsed, then its fields extracted; `None` when either step raises. */
  function ParsedStart(data: string): Option<Command>
  {
    match Decode(Text.Drop(data, 6))
    case None => None
    case Some(payload) => ExtractCommandData(payload)
  }

  /** `handle_start_command` at clock reading `now`; `None` when it raises (the payload is
      not JSON, or not a dict). */
  function HandleStartCommand(data: string, now: nat, io: Io): Option<seq<Effect>>
  {
    match ParsedStart(data)
    case None => None
    case Some(c) => Some(StartReply(c, now, io))
  }

  /** What `handle_start_command` does with the command `c`. */
  function StartReply(c: Command, now: nat, io: Io): seq<Effect>
  {
    if !Py.Truthy(c.task) || !Py.Truthy(c.reportType) then
      [SendJson(ErrorMessage("Missing task or report_type"))]
    else
      var filename := ReportFileName(now, Shown(c.task, io));
      var report := Py.Str(io.stream(c));
      if report != "" then
        [Stream(c), WriteFiles(report, filename), SendJson(PathMessage(io.write(report, filename)))]
      else
        [Stream(c), SendJson(ErrorMessage("Failed to generate report"))]
  }

  /** `handle_human_feedback`: the payload after the 14-character prefix is parsed and
      printed; `None` when it is not JSON. */
  function HandleHumanFeedback(data: string): Option<seq<Effect>>
  {
    match Decode(Text.Drop(data, 14))
    case None => None
    case Some(feedback) => Some([PrintFeedback(feedback)])
  }

  datatype Kind = StartKind | FeedbackKind | UnknownKind

  /** The dispatch of `handle_websocket_communication`: "start" is checked first. */
  function Classify(data: string): (k: Kind)
    ensures k == StartKind <==> Text.StartsWith(data, "start")
    ensures k == FeedbackKind <==> !Text.StartsWith(data, "start") && Text.StartsWith(data, "human_feedback")
  {
    if Text.StartsWith(data, "start") then StartKind
    else if Text.StartsWith(data, "human_feedback") then FeedbackKind
    else UnknownKind
  }

  /** One iteration of the receive loop; `None` when the handler raises. */
  function Step(data: string, now: nat, io: Io): Option<seq<Effect>>
  {
    match Classify(data)
    case StartKind => HandleStartCommand(data, now, io)
    case FeedbackKind => HandleHumanFeedback(data)
    case UnknownKind => Some([PrintUnknown])
  }

  /** A start command without a task or a report type is answered with the error message
      alone: streaming is never started. */
  lemma MissingFieldsRejected(data: string, now: nat, c: Command, io: Io)
    requires Text.StartsWith(data, "start") && ParsedStart(data) == Some(c)
    requires !Py.Truthy(c.task) || !Py.Truthy(c.reportType)
    ensures Step(data, now, io) == Some([SendJson(ErrorMessage("Missing task or report_type"))])
  {
  }

  /** A complete start command `c` streams `c` exactly once, before anything else. */
  lemma CompleteStartStreams(data: string, now: nat, c: Command, io: Io)
    requires Text.StartsWith(data, "start") && ParsedStart(data) == Some(c)
    requires Py.Truthy(c.task) && Py.Truthy(c.reportType)
    ensures var effects := Step(data, now, io);
      && effects.Some? && |effects.value| >= 2 && effects.value[0] == Stream(c)
      && StreamedCommands(effects.value) == [c]
  {
    StartStep(data, now, c, io);
    StartReplyStreams(c, now, io);
  }

  /** A start message whose command parses is answered by `StartReply`. */
  lemma StartStep(data: string, now: nat, c: Command, io: Io)
    requires Text.StartsWith(data, "start") && ParsedStart(data) == Some(c)
    ensures Step(data, now, io) == Some(StartReply(c, now, io))
  {
  }

  lemma StartReplyStreams(c: Command, now: nat, io: Io)
    requires Py.Truthy(c.task) && Py.Truthy(c.reportType)
    ensures var effects := StartReply(c, now, io);
      && |effects| >= 2 && effects[0] == Stream(c) && StreamedCommands(effects) == [c]
  {
    var effects := StartReply(c, now, io);
    assert effects[1..][1..] == effects[2..];
    NoStreamIn(effects[1..]);
  }

  /** Since the report goes through `str()` first, only an empty text earns "Failed to
      generate report"; a `None` report becomes "None" and is written. */
  lemma EmptyReportFails(data: string, now: nat, c: Command, io: Io)
    requires Text.StartsWith(data, "start") && ParsedStart(data) == Some(c)
    requires Py.Truthy(c.task) && Py.Truthy(c.reportType)
    ensures Py.Str(io.stream(c)) == "" <==>
              Step(data, now, io) == Some([Stream(c), SendJson(ErrorMessage("Failed to generate report"))])
    ensures io.stream(c) == Py.ReportNone ==>
              Step(data, now, io).value[1] == WriteFiles("None", ReportFileName(now, Shown(c.task, io)))
  {
    if Py.Str(io.stream(c)) != "" {
      assert StartReply(c, now, io)[1].WriteFiles?;
    }
  }

  /** A non-empty report is written and exactly one path message, carrying the paths the
      files were written to, follows. */
  lemma ReportWritten(data: string, now: nat, c: Command, io: Io)
    requires Text.StartsWith(data, "start") && ParsedStart(data) == Some(c)
    requires Py.Truthy(c.task) && Py.Truthy(c.reportType)
    requires Py.Str(io.stream(c)) != ""
    ensures var filename := ReportFileName(now, Shown(c.task, io));
      Step(data, now, io) == Some([Stream(c), WriteFiles(Py.Str(io.stream(c)), filename),
                                   SendJson(PathMessage(io.write(Py.Str(io.stream(c)), filename)))])
    ensures c.task.JStr? ==>
              Step(data, now, io).value[1] == WriteFiles(Py.Str(io.stream(c)), ReportFileName(now, c.task.s))
  {
  }

  /** Every message goes to exactly one handler, and only a "start" message can stream. */
  lemma OneBranchPerMessage(data: string, now: nat, io: Io)
    ensures !Text.StartsWith(data, "start") && Text.StartsWith(data, "human_feedback") ==>
              Step(data, now, io) == HandleHumanFeedback(data)
    ensures !Text.StartsWith(data, "start") && !Text.StartsWith(data, "human_feedback") ==>
              Step(data, now, io) == Some([PrintUnknown])
    ensures !Text.StartsWith(data, "start") ==>
              forall e :: Step(data, now, io).Some? && e in Step(data, now, io).value ==> !e.Stream?
  {
  }

  // ---------------------------------------------------------------- the receive loop

  /** What the receive loop has done when it ends: its effects, and whether a handler
      raised (which ends the loop). */
  datatype Outcome = Outcome(effects: seq<Effect>, raised: bool)

  /** A message as the loop receives it, with the clock reading at which it is handled. */
  datatype Received = Received(text: string, at: nat)

  /** The outcome of receiving `incoming` in order. */
  function Run(incoming: seq<Received>, io: Io): Outcome
    decreases |incoming|
  {
    if incoming == [] then Outcome([], false)
    else
      match Step(incoming[0].text, incoming[0].at, io)
      case None => Outcome([], true)
      case Some(effects) =>
        var rest := Run(incoming[1..], io);
        Outcome(effects + rest.effects, rest.raised)
  }

  /** `handle_websocket_communication`: receive and dispatch until the peer goes away
      (`incoming` is exhausted) or a handler raises. */
  method HandleWebsocketCommunication(incoming: seq<Received>, io: Io)
    returns (effects: seq<Effect>, raised: bool)
    ensures Outcome(effects, raised) == Run(incoming, io)
  {
    effects, raised := [], false;
    var i := 0;
    while i < |incoming|
      invariant 0 <= i <= |incoming|
      invariant Run(incoming, io)
        == Outcome(effects + Run(incoming[i..], io).effects, Run(incoming[i..], io).raised)
    {
      ghost var tail := incoming[i..];
      var step := Step(incoming[i].text, incoming[i].at, io);
      assert tail[0] == incoming[i] && tail[1..] == incoming[i + 1..];
      RunFirst(tail, io);
      if step.None? {
        return effects, true;
      }
      ghost var later := Run(incoming[i + 1..], io);
      AppendAssociative(effects, step.value, later.effects);
      effects := effects + step.value;
      i := i + 1;
    }
  }

  /** Receiving a non-empty sequence handles its first message, then the others unless
      that raised. */
  lemma RunFirst(incoming: seq<Received>, io: Io)
    requires incoming != []
    ensures var step := Step(incoming[0].text, incoming[0].at, io);
      && (step.None? ==> Run(incoming, io) == Outcome([], true))
      && (step.Some? ==>
            Run(incoming, io) == Outcome(step.value + Run(incoming[1..], io).effects, Run(incoming[1..], io).raised))
  {
  }

  lemma AppendAssociative(a: seq<Effect>, b: seq<Effect>, c: seq<Effect>)
    ensures a + (b + c) == a + b + c
  {
  }

  /** Messages that all parse as complete start commands each stream exactly once, in
      order: nothing else starts a stream. */
  function StreamedCommands(effects: seq<Effect>): seq<Command>
    decreases |effects|
  {
    if effects == [] then []
    else (if effects[0].Stream? then [effects[0].command] else []) + StreamedCommands(effects[1..])
  }

  lemma {:induction false} StreamedCommandsAppend(a: seq<Effect>, b: seq<Effect>)
    ensures StreamedCommands(a + b) == StreamedCommands(a) + StreamedCommands(b)
    decreases |a|
  {
    if a == [] {
      assert a + b == b;
    } else {
      assert (a + b)[0] == a[0];
      assert (a + b)[1..] == a[1..] + b;
      StreamedCommandsAppend(a[1..], b);
      var head := if a[0].Stream? then [a[0].command] else [];
      assert StreamedCommands(a + b) == head + StreamedCommands(a[1..] + b);
      assert StreamedCommands(a) == head + StreamedCommands(a[1..]);
    }
  }

  /** Without any "start" message, the loop never streams. */
  lemma {:induction false} NoStartNoStream(incoming: seq<Received>, io: Io)
    requires forall i :: 0 <= i < |incoming| ==> !Text.StartsWith(incoming[i].text, "start")
    ensures StreamedCommands(Run(incoming, io).effects) == []
    decreases |incoming|
  {
    if incoming != [] {
      OneBranchPerMessage(incoming[0].text, incoming[0].at, io);
      var step := Step(incoming[0].text, incoming[0].at, io);
      if step.Some? {
        NoStartNoStream(incoming[1..], io);
        StreamedCommandsAppend(step.value, Run(incoming[1..], io).effects);
        NoStreamIn(step.value);
      }
    }
  }

  lemma {:induction false} NoStreamIn(effects: seq<Effect>)
    requires forall e :: e in effects ==> !e.Stream?
    ensures StreamedCommands(effects) == []
    decreases |effects|
  {
    if effects != [] {
      assert effects[0] in effects;
      NoStreamIn(effects[1..]);
    }
  }

  // ---------------------------------------------------------------- configuration

  /** One line of the dictionary `get_config_dict` builds: its key, the environment
      variable consulted when the argument is falsy, and the literal default. */
  datatype ConfigEntry = ConfigEntry(key: string, envName: string, default: string)

  const ConfigTable: seq<ConfigEntry> := [
    ConfigEntry("LANGCHAIN_API_KEY", "LANGCHAIN_API_KEY", ""),
    ConfigEntry("OPENAI_API_KEY", "OPENAI_API_KEY", ""),
    ConfigEntry("TAVILY_API_KEY", "TAVILY_API_KEY", ""),
    ConfigEntry("GOOGLE_API_KEY", "GOOGLE_API_KEY", ""),
    ConfigEntry("GOOGLE_CX_KEY", "GOOGLE_CX_KEY", ""),
    ConfigEntry("BING_API_KEY", "BING_API_KEY", ""),
    ConfigEntry("SEARCHAPI_API_KEY", "SEARCHAPI_API_KEY", ""),
    ConfigEntry("SERPAPI_API_KEY", "SERPAPI_API_KEY", ""),
    ConfigEntry("SERPER_API_KEY", "SERPER_API_KEY", ""),
    ConfigEntry("SEARX_URL", "SEARX_URL", ""),
    ConfigEntry("ANTHROPIC_API_KEY", "ANTHROPIC_API_KEY", ""),
    ConfigEntry("NCBI_API_KEY", "NCBI_API_KEY", ""),
    ConfigEntry("EXA_API_KEY", "EXA_API_KEY", ""),
    ConfigEntry("LANGCHAIN_TRACING_V2", "LANGCHAIN_TRACING_V2", "true"),
    ConfigEntry("DOC_PATH", "DOC_PATH", "./my-docs"),
    ConfigEntry("RETRIEVER", "RETRIEVER", ""),
    ConfigEntry("CHOKIDAR_USEPOLLING", "CHOKIDAR_USEPOLLING", "true"),
    ConfigEntry("EMBEDDING_MODEL", "OPENAI_EMBEDDING_MODEL", ""),
    ConfigEntry("EMBEDDING_PROVIDER", "EMBEDDING_PROVIDER", "openai"),
    ConfigEntry("LLM_PROVIDER", "LLM_PROVIDER", "openai"),
    ConfigEntry("OLLAMA_BASE_URL", "OLLAMA_BASE_URL", ""),
    ConfigEntry("DEFAULT_LLM_MODEL", "DEFAULT_LLM_MODEL", "gpt-4o-mini"),
    ConfigEntry("FAST_LLM_MODEL", "FAST_LLM_MODEL", "gpt-4o-mini"),
    ConfigEntry("SMART_LLM_MODEL", "SMART_LLM_MODEL", "gpt-4o-2024-08-06"),
    ConfigEntry("NEXT_PUBLIC_API_URL", "NEXT_PUBLIC_API_URL", ""),
    ConfigEntry("NEXT_PUBLIC_SITE_URL", "NEXT_PUBLIC_SITE_URL", "")
  ]

  /** `arg or os.getenv(envName, default)` */
  function Resolve(arg: string, env: map<string, string>, e: ConfigEntry): string
  {
    if arg != "" then arg else Py.GetEnv(env, e.envName, e.default)
  }

  function Keys(table: seq<ConfigEntry>): set<string>
  {
    set i | 0 <= i < |table| :: table[i].key
  }

  /** The dictionary for `table`, arguments looked up by key. */
  function BuildConfig(table: seq<ConfigEntry>, args: map<string, string>, env: map<string, string>)
    : (r: map<string, string>)
    requires forall i :: 0 <= i < |table| ==> table[i].key in args
    ensures r.Keys == Keys(table)
    decreases |table|
  {
    if table == [] then map[]
    else
      var rest := BuildConfig(table[1..], args, env);
      assert Keys(table) == {table[0].key} + Keys(table[1..]) by {
        forall k | k in Keys(table) ensures k in {table[0].key} + Keys(table[1..]) {
          var i :| 0 <= i < |table| && table[i].key == k;
          if i > 0 {
            assert table[1..][i - 1].key == k;
          }
        }
      }
      rest[table[0].key := Resolve(args[table[0].key], env, table[0])]
  }

  /** For a table with distinct keys, every key takes its argument when that is
      non-empty, else the environment value (even an empty one), else its default. */
  lemma {:induction false} BuildConfigRule(table: seq<ConfigEntry>, args: map<string, string>,
                                           env: map<string, string>, i: nat)
    requires forall j :: 0 <= j < |table| ==> table[j].key in args
    requires DistinctKeys(table)
    requires i < |table|
    ensures BuildConfig(table, args, env)[table[i].key] == Resolve(args[table[i].key], env, table[i])
    decreases |table|
  {
    if i > 0 {
      var rest := table[1..];
      assert rest[i - 1] == table[i];
      assert table[0].key != table[i].key;
      assert DistinctKeys(rest) by {
        forall j, k | 0 <= j < k < |rest| ensures rest[j].key != rest[k].key {
          assert rest[j] == table[j + 1] && rest[k] == table[k + 1];
        }
      }
      BuildConfigRule(rest, args, env, i - 1);
    }
  }

  /** No key occurs twice in `table`. */
  predicate DistinctKeys(table: seq<ConfigEntry>)
  {
    forall j, k :: 0 <= j < k < |table| ==> table[j].key != table[k].key
  }

  /** `get_config_dict(...)`, its 26 arguments given by the key they fill. */
  function GetConfigDict(args: map<string, string>, env: map<string, string>): (r: map<string, string>)
    requires forall i :: 0 <= i < |ConfigTable| ==> ConfigTable[i].key in args
    ensures r.Keys == Keys(ConfigTable)
  {
    BuildConfig(ConfigTable, args, env)
  }

  /** Each configuration key follows argument-or-environment-or-default. */
  lemma GetConfigDictRule(args: map<string, string>, env: map<string, string>, i: nat)
    requires forall j :: 0 <= j < |ConfigTable| ==> ConfigTable[j].key in args
    requires i < |ConfigTable|
    ensures var e := ConfigTable[i];
      GetConfigDict(args, env)[e.key] == (if args[e.key] != "" then args[e.key]
                                          else if e.envName in env then env[e.envName] else e.default)
  {
    DistinctConfigKeys();
    assert DistinctKeys(ConfigTable);
    BuildConfigRule(ConfigTable, args, env, i);
  }

  lemma DistinctConfigKeys()
    ensures forall j, k :: 0 <= j < k < |ConfigTable| ==> ConfigTable[j].key != ConfigTable[k].key
  {
    DistinctRows0();
    DistinctRows4();
    DistinctRows9();
    DistinctRows15();
  }

  /** Rows 0 to 3 have keys that no later row repeats; the next three lemmas say the
      same of rows 4 to 8, 9 to 14 and 15 to 25. */
  lemma DistinctRows0()
    ensures forall j, k :: 0 <= j < 4 && j < k < |ConfigTable| ==> ConfigTable[j].key != ConfigTable[k].key
  {
  }

  lemma DistinctRows4()
    ensures forall j, k :: 4 <= j < 9 && j < k < |ConfigTable| ==> ConfigTable[j].key != ConfigTable[k].key
  {
  }

  lemma DistinctRows9()
    ensures forall j, k :: 9 <= j < 15 && j < k < |ConfigTable| ==> ConfigTable[j].key != ConfigTable[k].key
  {
  }

  lemma DistinctRows15()
    ensures forall j, k :: 15 <= j && j < k < |ConfigTable| ==> ConfigTable[j].key != ConfigTable[k].key
  {
  }

  /** The dict whose items, in insertion order, are `items`: a later pair for a key wins. */
  function ItemsMap(items: seq<(string, string)>): map<string, string>
    decreases |items|
  {
    if items == [] then map[]
    else
      var last := items[|items| - 1];
      ItemsMap(items[..|items| - 1])[last.0 := last.1]
  }

  /** The dict holds exactly the keys of its pairs. */
  lemma {:induction false} ItemsMapKeys(items: seq<(string, string)>, k: string)
    ensures k in ItemsMap(items) <==> exists i :: 0 <= i < |items| && items[i].0 == k
    decreases |items|
  {
    if items != [] {
      var init := items[..|items| - 1];
      ItemsMapKeys(init, k);
      if k in ItemsMap(init) {
        var i :| 0 <= i < |init| && init[i].0 == k;
        assert items[i].0 == k;
      }
      if exists i :: 0 <= i < |items| && items[i].0 == k {
        var i :| 0 <= i < |items| && items[i].0 == k;
        if i < |init| {
          assert init[i].0 == k;
        }
      }
    }
  }

  /** In a dict, each key holds the value of its own pair. */
  lemma {:induction false} ItemsMapValue(items: seq<(string, string)>, i: nat)
    requires i < |items|
    requires forall j, k :: 0 <= j < k < |items| ==> items[j].0 != items[k].0
    ensures items[i].0 in ItemsMap(items) && ItemsMap(items)[items[i].0] == items[i].1
    decreases |items|
  {
    var init := items[..|items| - 1];
    if i < |items| - 1 {
      assert init[i] == items[i];
      ItemsMapValue(init, i);
    }
  }

  /** How many of `items` are assigned before the first one that raises: all of them when
      none does. */
  function AssignedPrefix(items: seq<(string, string)>): (n: nat)
    ensures n <= |items|
    ensures forall i :: 0 <= i < n ==> Py.Assignable(items[i].0, items[i].1)
    ensures n < |items| ==> !Py.Assignable(items[n].0, items[n].1)
    decreases |items|
  {
    if items == [] || !Py.Assignable(items[0].0, items[0].1) then 0
    else
      var n := 1 + AssignedPrefix(items[1..]);
      assert forall i :: 1 <= i < |items| ==> items[i] == items[1..][i - 1];
      n
  }

  /** `update_environment_variables(config)`, the dict given as its items in insertion
      order: the pairs are assigned in turn until one raises, and that error escapes with
      the earlier pairs already written. No other variable changes. */
  method UpdateEnvironmentVariables(environ: Py.Environ, config: seq<(string, string)>) returns (raised: bool)
    modifies environ
    ensures raised <==> AssignedPrefix(config) < |config|
    ensures environ.vars == old(environ.vars) + ItemsMap(config[..AssignedPrefix(config)])
  {
    var i := 0;
    while i < |config|
      invariant i <= AssignedPrefix(config)
      invariant environ.vars == old(environ.vars) + ItemsMap(config[..i])
    {
      var (key, value) := config[i];
      var ok := environ.Set(key, value);
      if !ok {
        return true;
      }
      assert config[..i + 1][..i] == config[..i];
      Py.UnionUpdate(old(environ.vars), ItemsMap(config[..i]), key, value);
      i := i + 1;
    }
    return false;
  }
}
