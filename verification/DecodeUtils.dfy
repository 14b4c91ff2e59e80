/** Decode primitives shared by both protocols. A thrown protocol error is None. */
module DecodeUtils {
  import opened Base
  import opened Events

  /** `JSON.parse`, `JSON.stringify` and the UTF-8 length of a text. */
  datatype Platform = Platform(
    parse: string -> Option<Json>,
    stringify: Json -> string,
    utf8: string -> nat)

  type Fields = map<string, Json>

  const MAX_SAFE_INTEGER: nat := 9007199254740991

  /** Deeper tool inputs are not accepted. */
  const MAX_DEPTH: nat := 64

  function Field(fields: Fields, name: string): Option<Json> {
    if name in fields then Some(fields[name]) else None
  }

  /** Absent or null. */
  predicate Nullish(value: Option<Json>) {
    value.None? || value.value.Null?
  }

  function SafeCount(value: Json): Option<nat> {
    match value
    case Num(Integer(n)) => if 0 <= n <= MAX_SAFE_INTEGER then Some(n) else None
    case _ => None
  }

  /** A count that may be absent: the outer None is an error, the inner one an absence. */
  function ReadTokenCount(value: Option<Json>): Option<Option<nat>> {
    match value
    case None => Some(None)
    case Some(v) => if SafeCount(v).Some? then Some(SafeCount(v)) else None
  }

  predicate NonEmptyString(value: Option<Json>) {
    value.Some? && value.value.Str? && value.value.s != ""
  }

  predicate FiniteJson(value: Json, depth: nat)
    decreases MAX_DEPTH + 1 - depth
  {
    && depth <= MAX_DEPTH
    && match value
       case Num(number) => !number.Infinite?
       case Arr(items) => forall item <- items :: FiniteJson(item, depth + 1)
       case Obj(fields) => forall key <- fields :: FiniteJson(fields[key], depth + 1)
       case _ => true
  }

  /** A tool payload must be an object of finite JSON values. */
  function ParseToolInput(p: Platform, raw: string): (r: Option<Json>)
    ensures r.Some? ==> r.value.Obj? && FiniteJson(r.value, 0)
  {
    var parsed := p.parse(raw);
    if parsed.Some? && parsed.value.Obj? && FiniteJson(parsed.value, 0) then parsed else None
  }

  /** White space and line ends, as `String.prototype.trim` sees them. */
  predicate Space(c: char) {
    var n := c as int;
    || 9 <= n <= 13 || n == 32 || n == 0xa0 || n == 0x1680 || 0x2000 <= n <= 0x200a
    || n == 0x2028 || n == 0x2029 || n == 0x202f || n == 0x205f || n == 0x3000 || n == 0xfeff
  }

  function TrimStart(s: string): string {
    if s != "" && Space(s[0]) then TrimStart(s[1..]) else s
  }

  function TrimEnd(s: string): string {
    if s != "" && Space(s[|s| - 1]) then TrimEnd(s[..|s| - 1]) else s
  }

  function Trim(s: string): string {
    TrimEnd(TrimStart(s))
  }

  predicate NoCacheTokens(usage: Fields) {
    && NoTokens(Field(usage, "cache_creation_input_tokens"))
    && NoTokens(Field(usage, "cache_read_input_tokens"))
  }

  predicate NoTokens(value: Option<Json>) {
    Nullish(value) || value.value == Num(Integer(0))
  }

  function MapErrorType(kind: Option<Json>, rateLimited: set<string>, unavailable: set<string>): ErrorCode {
    if kind.None? || !kind.value.Str? then GatewayError
    else if kind.value.s in rateLimited then RateLimited
    else if kind.value.s in unavailable then UpstreamUnavailable
    else GatewayError
  }

  /** The input of a tool call: the accumulated text, or `empty` when there is none. */
  function ToolInput(p: Platform, text: string, empty: Json): Option<Json> {
    if Trim(text) == "" then Some(empty) else ParseToolInput(p, Trim(text))
  }
}
