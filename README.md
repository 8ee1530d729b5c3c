# pulse-mcp list_servers adapter, modelled in Dafny

The repository is a single Model Context Protocol server with exactly one
tool, `list_servers`. The tool forwards three optional search parameters to
`GET https://api.pulsemcp.com/v0beta/servers` and relays the JSON body that
comes back. This model covers the adapter's own logic:

- the type guard `isListServersArgs`;
- the static tool descriptor that list-tools advertises;
- the call-tool handler: dispatch on the tool name, validation, the
  outbound query parameters, and how the HTTP outcome becomes a result.

Modules:

- `Json` (json.dfy): JavaScript values as the handler sees them, with
  `typeof`, the `in` operator, and property reads that give `undefined`
  when a property is absent.
- `Descriptor` (descriptor.dfy): the `list_servers` descriptor as a
  constant, and what its input schema admits under JSON Schema's `type`,
  `properties`, `maximum` and `required` keywords.
- `Arguments` (arguments.dfy): the validator and the typed
  `ListServersArgs` view it narrows to.
- `Gateway` (gateway.dfy): the handler as a pure function
  `Handle(rt, name, args, outcome)`. `outcome` is the result of the awaited
  HTTP call, an input here:
  - `Ok(body)`;
  - `AxiosErr(response, message)`, an HTTP client error;
  - `OtherErr`, any other exception.

  The handler produces one of:
  - a thrown protocol error (`InvalidParams` or `MethodNotFound`);
  - a tool result;
  - `Propagate`, meaning the exception is re-thrown.

Modelling choices:

- Arrays are objects to `typeof`, so the validator accepts them. An array
  has no own property named `query`, `count_per_page`, `offset`, `error`
  or `message`, so `Has` and `Get` see only a plain object's fields. The
  same goes for the prototype chain: no inherited property has one of
  these names.
- `response` is `None` when no response arrived (connection refused, say).
  Otherwise it holds the response body. `RemoteMessage` models the optional
  chain `error.response?.data?.error?.message` and the left side of `??`.
  Only `null` and `undefined` fall back to the client's message; an empty
  string does not.
- The handler never inspects two conversions, so they are parameters (the
  `Runtime` record): `JSON.stringify(data, null, 2)`, and the text a
  template literal makes of a remote message that is not a string.
- A result without `isError` is modelled as `isError == false`.
- The handler is a function, so two identical calls against the same
  outcome give identical results by construction.

## Model

| member | source | states |
|---|---|---|
| `Json.TypeOf` | src/index.ts:38-43 | `typeof` gives "object" exactly for null, arrays and objects; "string" exactly for strings; "number" exactly for numbers |
| `Json.IsNullish` | src/index.ts:144 | a value is nullish for `??` exactly when its `typeof` is "undefined" or it is `null` |
| `Json.Has` | src/index.ts:40-43 | `k in v` holds only of a plain (non-null, non-array) object, and on one it holds exactly when `k` is one of its own keys |
| `Json.Get` | src/index.ts:122-124 | a property read gives the property's value when present; an absent key, an array, a primitive or a nullish value reads `undefined` |
| `Arguments.IsListServersArgs` | src/index.ts:37-46 | accepts exactly the non-null `typeof`-objects whose present `query` is a string and whose present `count_per_page` and `offset` are numbers, which are the types the advertised schema declares |
| `Arguments.DeclaredTypesByKey` | src/index.ts:85-101 | the schema's declared types, read with `typeof`, are string for `query` and number for `count_per_page` and `offset` |
| `Arguments.RejectsNonObjects` | src/index.ts:38 | `null` and every value whose `typeof` is not "object" are rejected |
| `Arguments.MissingArgumentsRejected` | src/index.ts:110 | absent `arguments` (`undefined`) fail validation |
| `Arguments.AcceptsWithoutArgumentKeys` | src/index.ts:38-45 | any object or array holding none of the three keys is accepted, including `{}` and objects with other keys |
| `Arguments.RejectsExactlyWrongTypes` | src/index.ts:40-43 | an object or array is rejected if and only if one of the three keys is present with a value of the wrong `typeof` |
| `Arguments.UndefinedValueRejected` | src/index.ts:40-43 | a key that is present with value `undefined` is rejected |
| `Arguments.ExtraKeysIgnored` | src/index.ts:38-45 | adding keys other than the three never changes the verdict |
| `Arguments.NoRangeCheck` | src/index.ts:41-43 | every number is accepted for `count_per_page` and for `offset`; no range is checked |
| `Arguments.AdmittedIsAccepted` | src/index.ts:85-101 | every value the advertised schema admits passes the validator |
| `Arguments.AcceptedButNotAdmitted` | src/index.ts:92-96 | `{count_per_page: 5001}` passes the validator but breaks the advertised maximum; `[]` passes the validator but is not a JSON Schema object |
| `Arguments.ToValue` | src/index.ts:14-18 | a typed argument record becomes an object holding exactly its present fields, and the validator accepts that object |
| `Arguments.FromValue` | src/index.ts:14-18 | the typed view of an accepted value has a field exactly where the value has the key, with the same string or number |
| `Arguments.TypedRoundTrip` | src/index.ts:14-18 | reading a typed record back from its object gives the same record |
| `Arguments.ViewRoundTrip` | src/index.ts:121-125 | an accepted value and the object of its typed view read the same on all three argument keys |
| `Descriptor.ListTools` | src/index.ts:80-105 | list-tools advertises exactly the one descriptor `LIST_SERVERS`: name `list_servers`, its description, and the input schema `AdvertisedSchema` describes |
| `Descriptor.Lookup` | src/index.ts:87-101 | finds a property's schema exactly when the property is declared, and the schema found is that of its first declaration |
| `Descriptor.AdmittedHasDeclaredTypes` | src/index.ts:85-101 | on any object schema whose declared types mean the same to `typeof`, an admitted value has the declared types |
| `Descriptor.AdvertisedSchema` | src/index.ts:85-101 | the advertised schema is of type object and has no required property; it declares only `query` (string), `count_per_page` (number, maximum 5000) and `offset` (number, no bound) |
| `Gateway.QueryParams` | src/index.ts:121-125 | the query parameters hold exactly the three keys; each value is the argument's value unchanged, or `undefined` when the key is absent; after validation each is `undefined` or of its declared type |
| `Gateway.Route` | src/index.ts:108-115 | a request is built exactly for `list_servers` with accepted arguments; it is GET on the base URL plus `/servers` with those parameters; otherwise the call is rejected, with MethodNotFound exactly when the name is unknown, and with the source's messages |
| `Gateway.RemoteMessage` | src/index.ts:144 | gives the remote `error.message` exactly when the body has it and it is neither null nor undefined |
| `Gateway.TemplateText` | src/index.ts:143-145 | a string message is inserted unchanged |
| `Gateway.ErrorText` | src/index.ts:143-145 | the error text is "API Error: " followed by the remote message if there is one, else by the client's message |
| `Gateway.Translate` | src/index.ts:117-152 | success and client errors give one text item, with the error flag set exactly for client errors; the text is the serialized body or the error text; any other exception propagates |
| `Gateway.Handle` | src/index.ts:107-161 | precedence: an unknown name gives MethodNotFound, then invalid arguments give InvalidParams, and only then does the HTTP outcome decide; propagation happens exactly for a valid call with a non-client error |
| `Gateway.UnknownToolRejected` | src/index.ts:155-159 | any other tool name gives MethodNotFound "Unknown tool: <name>" with no request, whatever the arguments |
| `Gateway.InvalidArgumentsRejected` | src/index.ts:110-115 | `list_servers` with rejected arguments gives InvalidParams with no request |
| `Gateway.RejectionIgnoresOutcome` | src/index.ts:108-115 | a rejected call's reply does not depend on the HTTP outcome |
| `Gateway.ForwardsTypedArguments` | src/index.ts:118-127 | for typed arguments the request carries exactly their fields, with absent ones `undefined`; no defaults are filled in |
| `Gateway.ExtraKeysNotForwarded` | src/index.ts:121-125 | keys other than the three change neither the validation nor the request |
| `Gateway.SuccessRelaysBody` | src/index.ts:129-136 | on success the reply is one unflagged text item holding the serialized whole body |
| `Gateway.BodyRoundTrip` | src/index.ts:133 | for bodies that parsing recovers from their serialization, the caller recovers the exact body from the result text, and distinct such bodies give distinct replies |
| `Gateway.ClientErrorRecovered` | src/index.ts:137-149 | an HTTP client error gives an error-flagged single text item, never an exception; the text is "API Error: " followed by the remote message if there is one, else by the client's message |
| `Gateway.RemoteStringMessageWins` | src/index.ts:143-145 | a string `error.message` in the body wins, even an empty one |
| `Gateway.NullishRemoteMessageFallsBack` | src/index.ts:144 | no response, or a missing, null or undefined remote message, falls back to the client's message |
| `Gateway.OtherErrorPropagates` | src/index.ts:151 | any non-client error is re-thrown for a valid call |

## Left out

- Server construction, registering the handlers, the stdio transport and
  `run()` (src/index.ts:52-69, 164-172): these are calls into the protocol
  SDK and transport I/O. `Handle` models the body of the registered
  handler.
- The SIGINT handler, `process.exit` and `console.error` logging
  (src/index.ts:72-76, 167): process lifecycle and diagnostics.
- The HTTP client and the GET itself (src/index.ts:65-67, 118): the call's
  outcome is an input. Whether the client drops `undefined` parameters
  from the query string belongs to the library, so the request keeps them
  as `undefined`. Joining the base URL and the path is written as
  concatenation.
- The layout produced by `JSON.stringify(..., null, 2)`, and how a template
  literal renders a non-string remote message: both are `Runtime`
  parameters, because the handler never looks inside them.
  `JSON.stringify` never throws on a parsed JSON body, so that exception
  path is not modelled.
- The field structure of `ListServersResponse` (src/index.ts:20-35): the
  body passes through opaque.
- JavaScript number semantics: numbers are reals, with no NaN or
  infinities, and the model does no arithmetic on them apart from the
  schema's maximum.
- The protocol's numeric error codes: these live in the SDK, which is not
  part of this model.
- async/await scheduling.
