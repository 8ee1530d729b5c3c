/** The call-tool handler: route by tool name, validate, forward the three
    parameters to `GET /servers`, and turn the HTTP outcome into a tool
    result, a protocol error, or an exception passed on to the host. */
module Gateway {
  import opened Json
  import Descriptor
  import opened Arguments

  const API_BASE_URL := "https://api.pulsemcp.com/v0beta"
  const SERVERS_PATH := "/servers"
  const API_ERROR_PREFIX := "API Error: "
  const INVALID_ARGUMENTS_MESSAGE := "Invalid arguments for list_servers"
  const UNKNOWN_TOOL_PREFIX := "Unknown tool: "

  /** The request handed to the HTTP client; `params` holds the query
      parameters, `undefined` ones included. */
  datatype HttpRequest = HttpRequest(verb: string, url: string, params: map<string, Value>)

  /** What the awaited `GET` did. `AxiosErr` is an HTTP client error:
      `response` holds the response body when a response arrived, and
      `message` is the client's own error message. `OtherErr` is any other
      exception. */
  datatype HttpOutcome =
    | Ok(data: Value)
    | AxiosErr(response: Option<Value>, message: string)
    | OtherErr

  datatype ErrorCode = InvalidParams | MethodNotFound

  datatype Content = Text(text: string)

  /** What the handler produces: a thrown protocol error, a tool result
      (`isError` absent in the source reads as false), or the unexpected
      exception re-thrown to the host. */
  datatype Reply =
    | ProtocolError(code: ErrorCode, message: string)
    | ToolResult(content: seq<Content>, isError: bool)
    | Propagate

  /** The part of the handler that runs before any HTTP request. */
  datatype Step = Reject(code: ErrorCode, message: string) | Send(request: HttpRequest)

  /** Conversions the JavaScript runtime performs on values the handler
      never inspects: `JSON.stringify(data, null, 2)`, and the string that a
      template literal makes of a non-string value. */
  datatype Runtime = Runtime(stringify: Value -> string, display: Value -> string)

  /** The query-parameter record: each of the three keys, read from the
      arguments unchanged, `undefined` when absent; nothing else. */
  function QueryParams(args: Value): (p: map<string, Value>)
    ensures p.Keys == {"query", "count_per_page", "offset"}
    ensures forall k :: k in p ==> (p[k] == Undefined <==> !Has(args, k) || args.fields[k] == Undefined)
    ensures forall k :: k in p && Has(args, k) ==> p[k] == args.fields[k]
    ensures IsListServersArgs(args) ==>
      && (p["query"].Undefined? || p["query"].Str?)
      && (p["count_per_page"].Undefined? || p["count_per_page"].Num?)
      && (p["offset"].Undefined? || p["offset"].Num?)
  {
    map["query" := Get(args, "query"),
        "count_per_page" := Get(args, "count_per_page"),
        "offset" := Get(args, "offset")]
  }

  /** Dispatch on the tool name, then validation. An unknown name is
      rejected before the arguments are looked at; only a known name with
      accepted arguments leads to an HTTP request. */
  function Route(name: string, args: Value): (s: Step)
    ensures s.Send? <==> name == Descriptor.TOOL_NAME && IsListServersArgs(args)
    ensures s.Reject? ==> (s.code == MethodNotFound <==> name != Descriptor.TOOL_NAME)
    ensures s.Reject? && s.code == MethodNotFound ==> s.message == UNKNOWN_TOOL_PREFIX + name
    ensures s.Reject? && s.code == InvalidParams ==> s.message == INVALID_ARGUMENTS_MESSAGE
    ensures s.Send? ==> s.request == HttpRequest("GET", API_BASE_URL + SERVERS_PATH, QueryParams(args))
  {
    if name == Descriptor.TOOL_NAME then
      if !IsListServersArgs(args) then Reject(InvalidParams, INVALID_ARGUMENTS_MESSAGE)
      else Send(HttpRequest("GET", API_BASE_URL + SERVERS_PATH, QueryParams(args)))
    else Reject(MethodNotFound, UNKNOWN_TOOL_PREFIX + name)
  }

  /** `response?.data?.error?.message`, kept only when it is not nullish
      (the left operand of `??`). An empty string is kept. */
  function RemoteMessage(response: Option<Value>): (m: Option<Value>)
    ensures m.Some? ==> !IsNullish(m.value)
    ensures m.Some? <==>
      && response.Some? && Has(response.value, "error")
      && Has(response.value.fields["error"], "message")
      && !IsNullish(response.value.fields["error"].fields["message"])
    ensures m.Some? ==> m.value == response.value.fields["error"].fields["message"]
  {
    match response
    case None => None
    case Some(data) =>
      var message := Get(Get(data, "error"), "message");
      if IsNullish(message) then None else Some(message)
  }

  /** The text a template literal makes of a value. */
  function TemplateText(rt: Runtime, v: Value): (t: string)
    ensures v.Str? ==> t == v.s
  {
    if v.Str? then v.s else rt.display(v)
  }

  /** The text of a recovered HTTP error. */
  function ErrorText(rt: Runtime, response: Option<Value>, message: string): (t: string)
    ensures |t| >= |API_ERROR_PREFIX| && t[..|API_ERROR_PREFIX|] == API_ERROR_PREFIX
    ensures RemoteMessage(response).None? ==> t[|API_ERROR_PREFIX|..] == message
    ensures RemoteMessage(response).Some? ==> t[|API_ERROR_PREFIX|..] == TemplateText(rt, RemoteMessage(response).value)
  {
    API_ERROR_PREFIX + (match RemoteMessage(response)
                        case Some(m) => TemplateText(rt, m)
                        case None => message)
  }

  /** The `try`/`catch` around the request: success relays the whole body as
      one text item; an HTTP client error is recovered as an error-flagged
      text item; anything else is re-thrown. */
  function Translate(rt: Runtime, outcome: HttpOutcome): (r: Reply)
    ensures r.ProtocolError? == false
    ensures r.Propagate? <==> outcome.OtherErr?
    ensures r.ToolResult? ==> |r.content| == 1 && (r.isError <==> outcome.AxiosErr?)
    ensures outcome.Ok? ==> r.content[0].text == rt.stringify(outcome.data)
    ensures outcome.AxiosErr? ==> r.content[0].text == ErrorText(rt, outcome.response, outcome.message)
  {
    match outcome
    case Ok(data) => ToolResult([Text(rt.stringify(data))], false)
    case AxiosErr(response, message) => ToolResult([Text(ErrorText(rt, response, message))], true)
    case OtherErr => Propagate
  }

  /** The whole call-tool handler, with the HTTP call's outcome as an input.
      Error precedence: unknown tool, then invalid arguments (both before
      any request, whatever the outcome would be), then the outcome. */
  function Handle(rt: Runtime, name: string, args: Value, outcome: HttpOutcome): (r: Reply)
    ensures r.ProtocolError? <==> name != Descriptor.TOOL_NAME || !IsListServersArgs(args)
    ensures r.ProtocolError? ==> (r.code == MethodNotFound <==> name != Descriptor.TOOL_NAME)
    ensures r.Propagate? <==> name == Descriptor.TOOL_NAME && IsListServersArgs(args) && outcome.OtherErr?
    ensures r.ToolResult? ==> |r.content| == 1 && (r.isError <==> outcome.AxiosErr?)
  {
    match Route(name, args)
    case Reject(code, message) => ProtocolError(code, message)
    case Send(_) => Translate(rt, outcome)
  }

  /** Any name but "list_servers" is MethodNotFound, whatever the arguments,
      and no request is made. */
  lemma UnknownToolRejected(rt: Runtime, name: string, args: Value, outcome: HttpOutcome)
    requires name != Descriptor.TOOL_NAME
    ensures Route(name, args).Reject?
    ensures Handle(rt, name, args, outcome) == ProtocolError(MethodNotFound, UNKNOWN_TOOL_PREFIX + name)
  {
  }

  /** "list_servers" with rejected arguments is InvalidParams, and no
      request is made. */
  lemma InvalidArgumentsRejected(rt: Runtime, args: Value, outcome: HttpOutcome)
    requires !IsListServersArgs(args)
    ensures Route(Descriptor.TOOL_NAME, args).Reject?
    ensures Handle(rt, Descriptor.TOOL_NAME, args, outcome) == ProtocolError(InvalidParams, INVALID_ARGUMENTS_MESSAGE)
  {
  }

  /** A rejected call does not depend on what the server would have said. */
  lemma RejectionIgnoresOutcome(rt: Runtime, name: string, args: Value, o1: HttpOutcome, o2: HttpOutcome)
    requires Route(name, args).Reject?
    ensures Handle(rt, name, args, o1) == Handle(rt, name, args, o2)
  {
  }

  /** For a typed argument record the request carries exactly its fields,
      and `undefined` for the absent ones: no defaults are filled in. */
  lemma ForwardsTypedArguments(a: ListServersArgs)
    ensures Route(Descriptor.TOOL_NAME, ToValue(a)) ==
      Send(HttpRequest("GET", "https://api.pulsemcp.com/v0beta/servers",
                       map["query" := if a.query.Some? then Str(a.query.value) else Undefined,
                           "count_per_page" := if a.countPerPage.Some? then Num(a.countPerPage.value) else Undefined,
                           "offset" := if a.offset.Some? then Num(a.offset.value) else Undefined]))
  {
  }

  /** Keys other than the three are neither validated nor forwarded. */
  lemma ExtraKeysNotForwarded(m: map<string, Value>, extra: map<string, Value>)
    requires forall k :: k in extra ==> k !in ARGUMENT_KEYS
    ensures Route(Descriptor.TOOL_NAME, Obj(m + extra)) == Route(Descriptor.TOOL_NAME, Obj(m))
  {
  }

  /** On success the result is one unflagged text item holding the
      serialized body; the body is relayed as a whole. */
  lemma SuccessRelaysBody(rt: Runtime, args: Value, body: Value)
    requires IsListServersArgs(args)
    ensures Handle(rt, Descriptor.TOOL_NAME, args, Ok(body)) == ToolResult([Text(rt.stringify(body))], false)
  {
  }

  /** When parsing the serialized text gives the body back (as it does for
      a parsed JSON body), the caller recovers the exact body from the
      result text, and two such bodies give equal replies only if equal. */
  lemma BodyRoundTrip(rt: Runtime, parse: string -> Value, args: Value, body: Value, body': Value)
    requires parse(rt.stringify(body)) == body && parse(rt.stringify(body')) == body'
    requires IsListServersArgs(args)
    ensures parse(Handle(rt, Descriptor.TOOL_NAME, args, Ok(body)).content[0].text) == body
    ensures Handle(rt, Descriptor.TOOL_NAME, args, Ok(body)) == Handle(rt, Descriptor.TOOL_NAME, args, Ok(body')) <==> body == body'
  {
  }

  /** An HTTP client error becomes an error-flagged result, never an
      exception: "API Error: " and then the remote `error.message` when it is
      not nullish (the empty string included), else the client's message. */
  lemma ClientErrorRecovered(rt: Runtime, args: Value, response: Option<Value>, message: string)
    requires IsListServersArgs(args)
    ensures var r := Handle(rt, Descriptor.TOOL_NAME, args, AxiosErr(response, message));
      && r.ToolResult? && r.isError && |r.content| == 1
      && r.content[0].text == API_ERROR_PREFIX + (if RemoteMessage(response).Some? then TemplateText(rt, RemoteMessage(response).value) else message)
  {
  }

  /** A string remote message wins, even the empty one. */
  lemma RemoteStringMessageWins(rt: Runtime, args: Value, body: map<string, Value>, error: map<string, Value>, s: string, message: string)
    requires IsListServersArgs(args)
    ensures Handle(rt, Descriptor.TOOL_NAME, args,
                   AxiosErr(Some(Obj(body["error" := Obj(error["message" := Str(s)])])), message))
            == ToolResult([Text(API_ERROR_PREFIX + s)], true)
  {
  }

  /** A missing, `null` or `undefined` remote message, or no response at
      all, falls back to the client's message. */
  lemma NullishRemoteMessageFallsBack(rt: Runtime, args: Value, response: Option<Value>, message: string)
    requires IsListServersArgs(args)
    requires response.None? || IsNullish(Get(Get(response.value, "error"), "message"))
    ensures Handle(rt, Descriptor.TOOL_NAME, args, AxiosErr(response, message))
            == ToolResult([Text(API_ERROR_PREFIX + message)], true)
  {
  }

  /** Any other exception is re-thrown, not converted. */
  lemma OtherErrorPropagates(rt: Runtime, args: Value)
    requires IsListServersArgs(args)
    ensures Handle(rt, Descriptor.TOOL_NAME, args, OtherErr) == Propagate
  {
  }
}
