/** JSON values and the events a model stream is made of. */
module Events {
  import opened Base

  /** A JavaScript number: an integer, another finite value, or an overflow such as 1e400. */
  datatype Number = Integer(n: int) | Fraction(r: real) | Infinite

  datatype Json =
    | Null
    | Bool(b: bool)
    | Num(num: Number)
    | Str(s: string)
    | Arr(items: seq<Json>)
    | Obj(fields: map<string, Json>)

  /** The five codes an adapter reports, and whatever another gateway may report. */
  datatype ErrorCode =
    | Aborted
    | ProviderProtocolError
    | UpstreamUnavailable
    | RateLimited
    | GatewayError
    | OtherCode(text: string)

  datatype ModelEvent =
    | TextDelta(text: string)
    | ToolCall(id: string, name: string, input: Json)
    | Usage(inputTokens: nat, outputTokens: nat)
    | Completed
    | Error(code: ErrorCode, retryable: bool)
  {
    predicate Terminal() { Completed? || Error? }
  }

  /** The error event of an adapter; the code alone decides whether it is retryable. */
  function StreamError(code: ErrorCode): ModelEvent {
    Error(code, code == RateLimited || code == UpstreamUnavailable)
  }

  /** Exactly one terminal event, and nothing after it. */
  predicate OneTerminalAtEnd(events: seq<ModelEvent>) {
    && events != []
    && events[|events| - 1].Terminal()
    && NoTerminal(events[..|events| - 1])
  }

  predicate NoTerminal(events: seq<ModelEvent>) {
    forall i :: 0 <= i < |events| ==> !events[i].Terminal()
  }

  lemma TerminalAfter(quiet: seq<ModelEvent>, rest: seq<ModelEvent>)
    requires NoTerminal(quiet) && OneTerminalAtEnd(rest)
    ensures OneTerminalAtEnd(quiet + rest)
  {
    assert (quiet + rest)[..|quiet + rest| - 1] == quiet + rest[..|rest| - 1];
  }
}
