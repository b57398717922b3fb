/** The few JavaScript value rules the client code relies on: property access on a
    parsed message and string conversion in template literals and `+`. */
module Js {
  import opened Wrappers
  import opened Json

  /** The outcome of evaluating `data.key`: reading a property of `null` throws a
      TypeError; a missing property (or one of a non-object) is `undefined`. */
  datatype Prop = Throws | Undefined | Defined(value: Json)

  function GetProp(data: Json, key: string): (r: Prop)
    ensures r.Throws? <==> data.JNull?
    ensures r.Defined? ==> data.JObj? && Lookup(data.members, key) == Some(r.value)
  {
    match data
    case JNull => Throws
    case JObj(ms) =>
      (match Lookup(ms, key)
       case Some(v) => Defined(v)
       case None => Undefined)
    case _ => Undefined
  }

  /** `data.key === s` for a string literal `s`. */
  predicate IsString(p: Prop, s: string)
  {
    p == Defined(JStr(s))
  }

  /** `String(x)`, as `${x}` and `str + x` produce it. */
  function ToStr(p: Prop): string
  {
    match p
    case Defined(v) => ValueToStr(v)
    case _ => "undefined"
  }

  function ValueToStr(v: Json): string
  {
    match v
    case JNull => "null"
    case JBool(b) => if b then "true" else "false"
    case JStr(s) => s
    case JArr(items) => JoinItems(items)
    case JObj(_) => "[object Object]"
  }

  /** `Array.prototype.join(",")`: `null` elements become empty. */
  function JoinItems(items: seq<Json>): string
  {
    if items == [] then ""
    else
      var first := if items[0].JNull? then "" else ValueToStr(items[0]);
      if |items| == 1 then first else first + "," + JoinItems(items[1..])
  }

  /** A string property converts to itself. */
  lemma ToStrOfString(s: string)
    ensures ToStr(Defined(JStr(s))) == s
  {
  }
}

/** The Python value rules the backend code relies on: truthiness of parsed JSON,
    `dict.get` with a default, and `str()` of a report. */
module Py {
  import opened Wrappers
  import opened Json

  /** `bool(v)` for a value `json.loads` produced. */
  predicate Truthy(v: Json)
  {
    match v
    case JNull => false
    case JBool(b) => b
    case JStr(s) => s != ""
    case JArr(items) => items != []
    case JObj(ms) => ms != []
  }

  /** `d.get(key, default)` on a dict: the value of the last member called `key`, or
      `default` when there is none. */
  function Get(ms: seq<Member>, key: string, default: Json): (r: Json)
    ensures (forall i :: 0 <= i < |ms| ==> ms[i].key != key) ==> r == default
    ensures forall i :: 0 <= i < |ms| && ms[i].key == key && (forall j :: i < j < |ms| ==> ms[j].key != key) ==>
              r == ms[i].value
  {
    Lookup(ms, key).GetOr(default)
  }

  /** What `manager.start_streaming` hands back: a string, `None`, or any other
      object, known by the text its `str()` gives. */
  datatype Report = ReportText(text: string) | ReportNone | ReportOther(repr: string)

  /** Whether `os.environ[key] = value` goes through on a POSIX system: `putenv` raises
      ValueError for a null character in the name or the value, or an '=' in the name,
      and `setenv` refuses an empty name. */
  predicate Assignable(key: string, value: string)
  {
    key != "" && '=' !in key && '\0' !in key && '\0' !in value
  }

  lemma UnionUpdate(a: map<string, string>, b: map<string, string>, k: string, v: string)
    ensures a + b[k := v] == (a + b)[k := v]
  {
  }

  /** `os.environ`, which the configuration code writes key by key. */
  class Environ {
    var vars: map<string, string>

    constructor (initial: map<string, string>)
      ensures vars == initial
    {
      vars := initial;
    }

    /** `os.environ[key] = value`: either it raises (`ok` false) and nothing is written,
        or exactly that variable changes. */
    method Set(key: string, value: string) returns (ok: bool)
      modifies this
      ensures ok <==> Assignable(key, value)
      ensures ok ==> vars == old(vars)[key := value]
      ensures !ok ==> vars == old(vars)
    {
      ok := Assignable(key, value);
      if ok {
        vars := vars[key := value];
      }
    }
  }

  /** `os.getenv(name, default)`: a variable that is set, even to "", wins. */
  function GetEnv(env: map<string, string>, name: string, default: string): (r: string)
    ensures name in env ==> r == env[name]
    ensures name !in env ==> r == default
  {
    if name in env then env[name] else default
  }

  /** `str(report)` */
  function Str(r: Report): (s: string)
    ensures r.ReportNone? ==> s == "None"
    ensures r.ReportText? ==> s == r.text
  {
    match r
    case ReportText(t) => t
    case ReportNone => "None"
    case ReportOther(repr) => repr
  }
}

/** The browser page the client code runs in, and `process.env`. */
module Web {
  /** `window.location`: `protocol` ("https:"), `hostname` (no port), `host` (with port). */
  datatype Location = Location(protocol: string, hostname: string, host: string)

  /** `typeof window !== 'undefined'` holds exactly for `InBrowser`. */
  datatype Window = OnServer | InBrowser(location: Location)

  type ProcessEnv = map<string, string>

  /** `process.env[name] || fallback`: an unset or empty variable gives the fallback. */
  function EnvOr(env: ProcessEnv, name: string, fallback: string): (r: string)
    ensures name in env && env[name] != "" ==> r == env[name]
    ensures !(name in env && env[name] != "") ==> r == fallback
  {
    if name in env && env[name] != "" then env[name] else fallback
  }

  /** The socket scheme matching the page: "wss:" exactly on an "https:" page. */
  function WsScheme(loc: Location): (r: string)
    ensures r == "wss:" <==> loc.protocol == "https:"
    ensures r == "wss:" || r == "ws:"
  {
    if loc.protocol == "https:" then "wss:" else "ws:"
  }
}
