/** Events as JSON, and the client's check of what it has parsed. */
module EventJson {
  import opened Base
  import opened Events
  import opened AgentLoop
  import opened EventMapper
  import opened Requests

  function GatewayCode(code: ErrorCode): string {
    match code
    case Aborted => "aborted"
    case ProviderProtocolError => "provider_protocol_error"
    case UpstreamUnavailable => "upstream_unavailable"
    case RateLimited => "rate_limited"
    case GatewayError => "gateway_error"
    case OtherCode(text) => text
  }

  function CodeText(error: LoopCode): string {
    match error
    case FromGateway(code) => GatewayCode(code)
    case LoopAborted => "aborted"
    case ToolExecutionUnavailable => "tool_execution_unavailable"
    case UnknownTool => "unknown_tool"
    case InvalidToolCall => "invalid_tool_call"
    case DuplicateToolCallId => "duplicate_tool_call_id"
    case TooManyToolCalls => "too_many_tool_calls"
    case MaxTurnsExceeded => "max_turns_exceeded"
    case IncompleteModelResponse => "incomplete_model_response"
  }

  /** The object that goes into `JSON.stringify`; `message` is the fixed text of an error. */
  function JsonOf(message: LoopCode -> string, e: AgentEvent): Json {
    match e
    case RouteEvent(requestId, routeId, model) =>
      Obj(map["type" := Str("route_selected"), "requestId" := Str(requestId), "routeId" := Str(routeId), "model" := Str(model)])
    case TextEvent(requestId, text) =>
      Obj(map["type" := Str("text_delta"), "requestId" := Str(requestId), "text" := Str(text)])
    case CallEvent(requestId, id, name, input) =>
      Obj(map["type" := Str("tool_call"), "requestId" := Str(requestId), "id" := Str(id), "name" := Str(name), "input" := input])
    case UsageEvent(requestId, i, o) =>
      Obj(map["type" := Str("usage"), "requestId" := Str(requestId), "inputTokens" := Num(Integer(i)), "outputTokens" := Num(Integer(o))])
    case CompletedEvent(requestId) =>
      Obj(map["type" := Str("completed"), "requestId" := Str(requestId)])
    case ErrorEvent(requestId, error, retryable) =>
      Obj(map["type" := Str("error"), "requestId" := Str(requestId), "code" := Str(CodeText(error)),
              "message" := Str(message(error)), "retryable" := Bool(retryable)])
  }

  function EventJsons(message: LoopCode -> string, events: seq<AgentEvent>): seq<Json> {
    seq(|events|, i requires 0 <= i < |events| => JsonOf(message, events[i]))
  }

  // ----- the client's check -----

  type Fields = map<string, Json>

  predicate TextAt(fields: Fields, name: string) {
    name in fields && fields[name].Str?
  }

  predicate NumberAt(fields: Fields, name: string) {
    name in fields && fields[name].Num? && !fields[name].num.Infinite?
  }

  /** `validateAgentEvent` does not throw: a known type, exactly its fields, each of its kind. */
  predicate ValidEvent(value: Json) {
    value.Obj? && TextAt(value.fields, "type") && ValidFields(value.fields, value.fields["type"].s)
  }

  predicate ValidFields(fields: Fields, kind: string) {
    match kind
    case "route_selected" =>
      fields.Keys == {"type", "requestId", "routeId", "model"}
      && TextAt(fields, "requestId") && TextAt(fields, "routeId") && TextAt(fields, "model")
    case "text_delta" =>
      fields.Keys == {"type", "requestId", "text"} && TextAt(fields, "requestId") && TextAt(fields, "text")
    case "tool_call" =>
      fields.Keys == {"type", "requestId", "id", "name", "input"}
      && TextAt(fields, "requestId") && TextAt(fields, "id") && TextAt(fields, "name") && fields["input"].Obj?
    case "usage" =>
      fields.Keys == {"type", "requestId", "inputTokens", "outputTokens"}
      && TextAt(fields, "requestId") && NumberAt(fields, "inputTokens") && NumberAt(fields, "outputTokens")
    case "completed" =>
      fields.Keys == {"type", "requestId"} && TextAt(fields, "requestId")
    case "error" =>
      fields.Keys == {"type", "requestId", "code", "message", "retryable"}
      && TextAt(fields, "requestId") && TextAt(fields, "code") && TextAt(fields, "message") && fields["retryable"].Bool?
    case _ => false
  }

  predicate IsTerminal(value: Json) {
    value.Obj? && "type" in value.fields && value.fields["type"] in {Str("completed"), Str("error")}
  }

  // ----- the check of what the server writes -----

  /** The client accepts every event the server can write, but for a tool call whose input is not an object. */
  lemma ValidExactlyWhen(message: LoopCode -> string, e: AgentEvent)
    ensures ValidEvent(JsonOf(message, e)) <==> (e.CallEvent? ==> e.input.Obj?)
    ensures IsTerminal(JsonOf(message, e)) <==> e.Terminal()
  {
    var j := JsonOf(message, e);
    assert |"error"| == 5 && |"usage"| == 5 && "error"[0] != "usage"[0];
    match e
    case RouteEvent(_, _, _) => assert j.fields.Keys == {"type", "requestId", "routeId", "model"};
    case TextEvent(_, _) => assert j.fields.Keys == {"type", "requestId", "text"};
    case CallEvent(_, _, _, _) => assert j.fields.Keys == {"type", "requestId", "id", "name", "input"};
    case UsageEvent(_, _, _) => assert j.fields.Keys == {"type", "requestId", "inputTokens", "outputTokens"};
    case CompletedEvent(_) => assert j.fields.Keys == {"type", "requestId"};
    case ErrorEvent(_, _, _) => assert j.fields.Keys == {"type", "requestId", "code", "message", "retryable"};
  }

  lemma EventIsJson(message: LoopCode -> string, e: AgentEvent)
    requires e.CallEvent? ==> IsJson(e.input)
    ensures IsJson(JsonOf(message, e))
  {
    var j := JsonOf(message, e);
    forall key | key in j.fields
      ensures IsJson(j.fields[key])
    {
    }
  }

  // ----- what the fields say -----

  predicate Says(value: Json, name: string, text: string) {
    value.Obj? && name in value.fields && value.fields[name] == Str(text)
  }

  predicate Counts(value: Json, name: string, n: nat) {
    value.Obj? && name in value.fields && value.fields[name] == Num(Integer(n))
  }

  /** The name of a type is found under "type". */
  lemma TypeSays(message: LoopCode -> string, e: AgentEvent)
    ensures Says(JsonOf(message, e), "type",
                 match e
                 case RouteEvent(_, _, _) => "route_selected"
                 case TextEvent(_, _) => "text_delta"
                 case CallEvent(_, _, _, _) => "tool_call"
                 case UsageEvent(_, _, _) => "usage"
                 case CompletedEvent(_) => "completed"
                 case ErrorEvent(_, _, _) => "error")
  {
    hide CodeText;
  }

  /** Every part of an event is found in its JSON under its own name. */
  lemma FieldsSay(message: LoopCode -> string, e: AgentEvent)
    ensures var j := JsonOf(message, e);
            && Says(j, "requestId", e.requestId)
            && match e
               case RouteEvent(_, routeId, model) => Says(j, "routeId", routeId) && Says(j, "model", model)
               case TextEvent(_, text) => Says(j, "text", text)
               case CallEvent(_, id, name, input) => Says(j, "id", id) && Says(j, "name", name) && j.fields["input"] == input
               case UsageEvent(_, i, o) => Counts(j, "inputTokens", i) && Counts(j, "outputTokens", o)
               case CompletedEvent(_) => true
               case ErrorEvent(_, error, retryable) =>
                 && j.fields["retryable"] == Bool(retryable)
                 && (error == LoopAborted || error == FromGateway(Aborted) ==> Says(j, "code", "aborted"))
                 && (error == FromGateway(RateLimited) ==> Says(j, "code", "rate_limited"))
                 && (error == FromGateway(UpstreamUnavailable) ==> Says(j, "code", "upstream_unavailable"))
  {
    hide CodeText;
    TextOfCodes();
  }

  lemma TextOfCodes()
    ensures CodeText(LoopAborted) == "aborted" && CodeText(FromGateway(Aborted)) == "aborted"
    ensures CodeText(FromGateway(RateLimited)) == "rate_limited"
    ensures CodeText(FromGateway(UpstreamUnavailable)) == "upstream_unavailable"
  {}
}
