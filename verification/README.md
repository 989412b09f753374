# async-sdk-engine, modelled in Dafny

This project models the request-dispatch and error core of `async-sdk-engine`, a small Python SDK. The SDK sends batches of HTTP requests concurrently, using `trio` and `httpx`. The model covers these parts:

- **Request descriptors** (`HttpRequests.RequestInfo`): the constructor discards the body of `GET` and `DELETE` requests. The repr renders every field with `str`.
- **Method lookup** (`HttpRequests.MethodByName`): a case-insensitive table from method names to the client's five bound operations. An unknown name raises `KeyError`.
- **Argument shaping and fail-fast** (`HttpRequests.AsyncHandler.MakeRequest`):
  - `get` and `delete` are called with `params` only; the other operations also receive `json=body`.
  - A non-2xx status raises when `raise_on_error` is set.
  - Otherwise the response is appended to the handler's `responses` list.
- **The batch** (`HttpRequests.AsyncHandler.SendRequests`, `HttpRequests.Requests.ClientRequests`):
  - The spawning loop looks every method name up before any task runs, so a `KeyError` ends the batch with no call issued.
  - The tasks then complete in some order. That order is an input: `schedule`, a permutation of the request indices.
  - The first task that raises ends the batch.
  - A batch that ends without a raise returns one response per request. The responses are the batch's exchanges, each exactly once, in completion order.
- **Errors** (`Errors`):
  - the texts of `Error` and `CommunicationError`;
  - the status classification behind `ApiError` (client error, server error, fallback);
  - extraction of a diagnostic value from a response body (the JSON `"errors"` entry, the whole JSON value, or the UTF-8 text);
  - the one-line error message.
- **The `anything` endpoint** (`Api.Anything.GetAnything`): validate the whole list of bodies, then send one bodiless `GET anything` per body as one batch.

The method is the usual one. Specification functions (`ResolveAll`, `Run`, `Batch`, `NewApiError`, …) say what the code computes, and lemmas prove properties of them: permutation, the raise conditions, argument shaping. The imperative members (the handler's loops and its `responses` list) are proved equal to those functions.

Some collaborators are given as parameters:
- the transport's results: `transport[i]` is what the call for request `i` produced;
- the completion order;
- the JSON parser and UTF-8 decoder: `Errors.Codec`;
- the schema validation: a `validate` predicate.

Facts about the code that the model keeps:
- An unknown method name raises `KeyError`; there is no fallback.
- `client_requests` returns a list even for a single request, although its docstring (`src/http_requests.py:200-201`) promises a single response.
- `client_requests` always takes a list. Its docstring (`src/http_requests.py:197`) also admits a single `RequestInfo`, but the loop would then iterate the descriptor's fields, and `request.method` on a string raises `AttributeError` (`src/http_requests.py:145`). The model's input is therefore always a sequence of descriptors.
- All requests of a batch are spawned at once; the code has no limit on concurrent requests.
- No code path raises `ApiError` or `CommunicationError`. Failures surface as `httpx`'s own `HTTPStatusError` and transport exceptions, and a lookup failure as `KeyError`. `HttpRequests.Raised` models these.
- `httpx`'s `raise_for_status` rejects every non-2xx status, including 1xx and 3xx. For those statuses, as for 2xx, the classification falls through to its "Not a request error" fallback. `Errors.FallbackForNonErrorStatuses` shows this.

## Model

| member | source | states |
|---|---|---|
| HttpRequests.NewRequestInfo | src/http_requests.py:45-56 | method, path and params are kept; the body becomes None exactly when the upper-cased method is GET or DELETE, otherwise it is kept |
| HttpRequests.NewRequestInfoIsStable | src/http_requests.py:45-56 | rebuilding a descriptor from its own fields gives the same descriptor (dropping the body is idempotent) |
| HttpRequests.ReprOf | src/http_requests.py:58-62 | the repr is "RequestInfo(method: " then the method, ", path: " and the path, ", params: " and str(params), ", body: " and str(body), then ")" |
| HttpRequests.ReprOfBodylessDescriptor | src/http_requests.py:54-62 | the repr of any GET or DELETE descriptor ends with ", body: None)" |
| HttpRequests.ReprOfPostExample | unit_test/test_http_request.py:49-55 | a POST descriptor with body "body content" and no params renders as "RequestInfo(method: POST, path: /path, params: None, body: body content)" |
| HttpRequests.MethodByName | src/http_requests.py:154-172 | the lookup succeeds iff the upper-cased name is one of the five keys; the operation found has that name up to case; otherwise it raises KeyError with the upper-cased name |
| HttpRequests.UpperOperationName | src/http_requests.py:165-171 | every operation's name, upper-cased, is the table key that maps to that operation |
| HttpRequests.MethodByNameIgnoresCase | src/http_requests.py:172 | looking up a name and looking up its upper-cased form give the same result |
| HttpRequests.MethodByNameRoundTrip | src/http_requests.py:165-172 | looking up an operation's own name finds that operation |
| HttpRequests.DropsBodyIffGetOrDelete | src/http_requests.py:54 | the descriptor drops the body exactly when the lookup resolves the name to GET or DELETE |
| HttpRequests.ShapeCall | src/http_requests.py:117-123 | the call keeps the operation, path and params; json= is absent exactly for get and delete, and is the body otherwise |
| HttpRequests.RequestOutcome | src/http_requests.py:120-127 | nothing is raised iff a response arrived and either raise_on_error is off or the status is 2xx; a transport failure propagates; a rejected response raises HTTPStatusError for that response |
| HttpRequests.Dispatch | src/http_requests.py:144-152 | a descriptor turns into a call iff its method name resolves, and the call is shaped for the resolved operation from the descriptor's fields |
| HttpRequests.DispatchSendsKeptBody | src/http_requests.py:54-55 | a body the constructor drops is never sent, and no json= is passed; a body it keeps is sent as json= |
| HttpRequests.ResolveAll | src/http_requests.py:144-145 | the lookups of the spawning loop, one per request when all succeed |
| HttpRequests.ResolveAllSucceeds | src/http_requests.py:144-145 | the lookups succeed iff every method name resolves, and then yield each request's operation in request order |
| HttpRequests.ResolveAllPrefixFailure | src/http_requests.py:144-145 | a lookup failure among the first requests is the failure of the whole loop: later requests are not looked at |
| HttpRequests.Batch | src/http_requests.py:129-152 | a batch with an unresolvable method name issues no call, appends nothing and raises that KeyError |
| HttpRequests.Run | src/http_requests.py:143-152 | the tasks in completion order, until the first whose outcome raises ends the run: at most one call per task; without a raise, one call and one appended response per task; with a raise, every call but the raising one appended a response |
| HttpRequests.RunStep | src/http_requests.py:146-152 | after tasks that did not raise, the next task to complete issues its shaped call and appends its response unless its outcome raises |
| HttpRequests.RunPrefixFailure | src/http_requests.py:143-152 | once a task has raised, tasks completing later change nothing (the nursery is cancelled) |
| HttpRequests.RunDelivers | src/http_requests.py:127 | a run without a raise appended exactly the transport's exchanges, in completion order |
| HttpRequests.RunRaisesIff | src/http_requests.py:125-127 | a run raises iff the outcome of some completed task raises |
| HttpRequests.RunCallsAreShaped | src/http_requests.py:117-123 | the k-th call issued is the shaped call of the k-th task to complete; without a raise there is one call per task |
| HttpRequests.BatchDelivers | src/http_requests.py:129-152 | a batch ending without a raise issued one call and appended one response per request, and the responses are a permutation of the transport's exchanges |
| HttpRequests.BatchRaisesIff | src/http_requests.py:125-127 | once all names resolve, the batch ends without a raise iff every call got a response and, under raise_on_error, every status is 2xx |
| HttpRequests.BatchCallsAreDispatches | src/http_requests.py:144-152 | each call issued is the dispatch of the descriptor of the task that completed in that position |
| HttpRequests.AsyncHandler.constructor | src/http_requests.py:68-90 | the configuration is stored as given (defaults: timeout 15, verify false, raise_on_error true) and the responses list starts empty |
| HttpRequests.AsyncHandler.MakeRequest | src/http_requests.py:99-127 | the call issued is the shaped call; what is raised is the request outcome; the response is appended iff nothing is raised, and the list is unchanged otherwise |
| HttpRequests.AsyncHandler.ResolveMethods | src/http_requests.py:144-145 | the loop's lookups equal the specification's, stopping at the first KeyError |
| HttpRequests.AsyncHandler.CompleteTask | src/http_requests.py:146-152 | one spawned task, after tasks that did not raise: its outcome is the request outcome of its exchange, and the run and the responses list advance by its shaped call and, unless it raised, its response |
| HttpRequests.AsyncHandler.RunTasks | src/http_requests.py:146-152 | the tasks, completing in the given order, issue the specified calls, raise the specified exception and append the specified responses |
| HttpRequests.AsyncHandler.SendRequests | src/http_requests.py:129-152 | the calls, the raise and the new responses list are those of the batch specification |
| HttpRequests.Requests.constructor | src/http_requests.py:178-190 | the configuration is stored as given (defaults: verify false, timeout 15, raise_on_error true) |
| HttpRequests.Requests.ClientRequests | src/http_requests.py:192-214 | returns the batch's responses or its exception; on success the list has one response per request, also for one request, and is a permutation of the transport's exchanges |
| Errors.ErrorStr | src/errors.py:19-20 | the text is "Error: Error message: ", then the message, then "." |
| Errors.ErrorStrInjective | src/errors.py:19-20 | different messages give different texts |
| Errors.CommunicationErrorStr | src/errors.py:104-105 | the text is "CommunicationError, " followed by the message |
| Errors.FindErrorType | src/errors.py:87-98 | "Client error" iff 4xx, "Server error" iff 5xx, the fallback text iff neither |
| Errors.FallbackForNonErrorStatuses | src/errors.py:90-98 | every status outside 400..599 (1xx, 2xx, 3xx and out-of-range codes) reaches the fallback, although the comment says only 4xx and 5xx occur |
| Errors.IsJsonable | src/errors.py:45-58 | true iff the body parses, false iff the parser raises JSONDecodeError; a UnicodeDecodeError escapes |
| Errors.ErrorParseJsonOrUtf8 | src/errors.py:60-79 | non-JSON gives the UTF-8 text (or the decode error); a JSON object gives its "errors" entry or None; any other JSON value is returned whole |
| Errors.ReasonOrEmpty | src/errors.py:28 | a missing reason phrase becomes the empty string |
| Errors.NewApiError | src/errors.py:26-43 | an empty body gives errors "" without parsing; otherwise errors is the extracted diagnostic, or construction fails with the decoder's exception; status, reason, classification and message follow the response |
| Errors.ApiMessage | src/errors.py:37-42 | the message is the error type, a space, the decimal status, a space, the reason phrase, a space and str(errors): its length is the sum of the parts plus three, and each part sits at its position |
| Errors.EmptyContentIsNotParsed | src/errors.py:29-31 | for an empty body the error does not depend on the parser or the decoder |
| Errors.MessageOpensWithClassification | src/errors.py:37-42 | the message opens with the classification and the decimal status, so 4xx messages begin "Client error " and 5xx messages "Server error " |
| Errors.DiagnosticExamples | src/errors.py:76-79 | a JSON object with "errors" yields that entry, non-JSON text yields the text, an empty 404 body yields "" |
| Api.AnythingRequests | src/api.py:43-46 | one descriptor per body, each the bodiless GET of "anything", each dispatched as a GET with neither params nor json= |
| Api.AnythingRequestsIgnoreBodies | src/api.py:43-46 | only the number of bodies reaches the transport, not their contents |
| Api.Anything.constructor | src/api.py:12-13 | the endpoint keeps the client whose batch call it uses |
| Api.Anything.GetAnything | src/api.py:15-47 | a failed validation raises before any call is issued; otherwise the result and the calls are those of the batch over the descriptors; every call is the bare GET of "anything"; on success there is one response per body |

## Left out

- Concurrency: the `trio` nursery is modelled as an order in which tasks complete. Tasks cancelled mid-flight after another task raised are not recorded as calls. The exception group a failed nursery raises is modelled by the first exception it contains.
- The `httpx` client: the base URL join, headers, TLS verification, timeouts and connection pooling. The configuration is stored as given but not interpreted, and `headers` is carried along unused.
- The message text of `httpx`'s `HTTPStatusError`: the exception carries only the response.
- JSON parsing and UTF-8 decoding are collaborators (`Errors.Codec`), not implemented.
- The pydantic schema (`src/schema.py`) is not part of this model. Validation is a `validate` parameter.
- `src/client.py` and `src/main.py` (wiring and a demo script) are not part of this model.
- `ApiError.__str__`, `request_repr` and `links` are left out, because they render `httpx` request objects. The unused `error` argument of `ApiError` is left out too. So are loguru logging and the async context-manager methods `__aenter__`/`__aexit__`, which do nothing.
- `PyValues.Value` holds only JSON-shaped values (no floats, bytes or tuples). So float params, float bodies and float JSON results (such as `1.5`, `{"errors": 0.5}` or `NaN`) cannot be represented, and neither can the `str()` rendering of any of these in the descriptor repr or the `ApiError` message. A `bytes` body, which `make_request`'s signature admits, cannot be represented either, and neither can the `TypeError` the client raises when serialising it as `json=`.
- PyValues.DictGet: for duplicate keys it returns the first entry, whereas `json.loads` keeps the last. Distinct keys in what the parser returns are assumed, not enforced.
- PyValues.ToRepr: string escaping covers quotes, the backslash and ASCII control characters. It does not cover non-ASCII non-printable characters.
- PyValues.Upper: only ASCII letters are upper-cased. Python's full Unicode `str.upper` (for example, a ligature upper-casing to two letters) is not modelled.
- HttpRequests.AsyncHandler.constructor: `raise_on_error` is a bool. Passing `None`, which the signature allows and which acts as false, is not modelled.
- HttpRequests.AsyncHandler.MakeRequest: `params` and `body` are required arguments. Their `None` defaults are passed explicitly as `PyNone`.
