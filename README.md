# namekox-webserver: a Dafny model of the HTTP entrypoint core

This project models the HTTP entrypoint of the namekox microservice container.
Each request is routed to a handler. The handler hands it to a worker through a
one-shot event, waits for the worker's `(context, result, exc_info)` triple, and
turns that outcome into a response.

- **Text** (`text.dfy`) holds the Python string operations the handlers depend on:
  `str.strip()`, `str.split(' ', 1)` unpacked into two names, and `str.split('.')[-1]`.
  Each is specified by what it computes, not by how.
- **Handler** (`handler.py`, pure part) covers the formatters.
  - `WebServerHandler.handle_response` classifies the worker result into a closed
    tagged type: a passthrough response, `(payload, headers, status)`,
    `(payload, status)` or a bare value. It then builds the response by an
    exhaustive match. A tuple of any other length is an unpacking error.
  - `WebServerHandler.handle_exception` picks status 400 for a `BadRequest` and 500
    for anything else. As written it then raises (see Findings).
  - `ApiServerHandler` builds the JSON envelope `{code, errs, data, call_id}`, which
    is modelled as a record and not as JSON text. On error, the text is split at its
    first space. A text with no space raises `ValueError`. A `None` context raises
    `AttributeError` when `call_id` is read. This happens when the worker could not
    even be submitted.
- **Bridge** (`handler.py`, imperative part) covers `BaseServerHandler`.
  - `handle_request` clears `request.shallow`, creates a one-shot slot (the eventlet
    `Event`) and submits the worker. It returns the triple the worker deposited, or
    `(None, None, exc_info)` when submission raises.
  - `res_handler` deposits exactly the triple it is given and returns
    `(result, exc_info)`. A second deposit is refused.
- **Server** (`server.py`) covers `WebServer`, a class whose methods update its fields.
  - `setup` partitions the configuration section.
  - `start` and `stop` are guarded by the `started` and `accpted` flags.
  - `bind` is a get-or-insert into the container's `shared_providers` registry.
  - `gen_urls_map` builds one rule per entrypoint, in order.
  - `handle_connect` is the accept loop.
  - `WsgiApp.__call__` answers a routing exception without running any handler.

The worker and the submission error are parameters. So are the URL matcher's
verdict, the configuration section and the two defaults from the constants
module. Exceptions are the record `(typeName, message, isRemote, isBadRequest)`.

## Model

| member | source | states |
|---|---|---|
| `Text.LStrip` | namekox_webserver/core/entrypoints/app/handler.py:140-141 | result is the suffix of the input left after dropping every leading whitespace character, and it does not start with whitespace |
| `Text.RStrip` | namekox_webserver/core/entrypoints/app/handler.py:140-141 | result is the prefix left after dropping every trailing whitespace character, and it does not end with whitespace |
| `Text.Strip` | namekox_webserver/core/entrypoints/app/handler.py:140-141 | `str.strip()`: result is a slice of the input, everything outside the slice is whitespace, and neither end of the result is whitespace |
| `Text.StripKeepsTrimmed` | namekox_webserver/core/entrypoints/app/handler.py:140-141 | a string whose ends are not whitespace is unchanged by strip |
| `Text.StripIdempotent` | namekox_webserver/core/entrypoints/app/handler.py:140-141 | stripping twice equals stripping once |
| `Text.StripAllSpace` | namekox_webserver/core/entrypoints/app/handler.py:140-141 | an all-whitespace string strips to the empty string |
| `Text.SplitFirst` | namekox_webserver/core/entrypoints/app/handler.py:139 | `split(c, 1)` into two names fails exactly when `c` does not occur; otherwise the input is `first + c + rest` and `first` holds no `c` |
| `Text.SplitFirstJoin` | namekox_webserver/core/entrypoints/app/handler.py:139 | round trip: splitting `a + c + b` at the first `c` gives back `(a, b)` when `a` holds no `c` |
| `Text.LastSegment` | namekox_webserver/core/entrypoints/app/handler.py:119 | `split(sep)[-1]`: a suffix of the input with no separator, preceded by a separator unless it is the whole input |
| `Text.LastSegmentWhole` | namekox_webserver/core/entrypoints/app/handler.py:119 | a string with no separator is its own last segment |
| `Text.LastSegmentAfterSeparator` | namekox_webserver/core/entrypoints/app/handler.py:119 | round trip: the last segment of `prefix + sep + id` is `id` when `id` holds no separator |
| `Handler.NewEntrypoint` | namekox_webserver/core/entrypoints/app/handler.py:28-31 | a handler keeps its rule, and its methods default to `["GET"]` when none are given |
| `Handler.ClassifyResult` | namekox_webserver/core/entrypoints/app/handler.py:83-92 | the result shape is well formed, and classification fails exactly for a tuple whose length is neither 2 nor 3 |
| `Handler.ClassifyShapeValue` | namekox_webserver/core/entrypoints/app/handler.py:85-92 | round trip: classifying the value of a well-formed shape gives that shape |
| `Handler.ShapeValueOfClassified` | namekox_webserver/core/entrypoints/app/handler.py:85-92 | inverse direction: a result that classifies is the value of its shape |
| `Handler.WebHandleResponse` | namekox_webserver/core/entrypoints/app/handler.py:82-93 | fails exactly on a tuple of neither 2 nor 3 items, with that arity; a worker `Response` is returned as is; a tuple's first item, or a bare value, becomes the payload, and a bare value gets status 200 (each branch in full: `Handler.WebHandleResponseCases`) |
| `Handler.WebHandleResponseCases` | namekox_webserver/core/entrypoints/app/handler.py:82-93 | a response passes through unchanged; a 3-tuple gives `(payload, status, headers)`; a 2-tuple gives `(payload, status)` with no headers; a bare value gets status 200 with no headers; any other tuple length is an unpack error |
| `Handler.WebPassthroughOnly` | namekox_webserver/core/entrypoints/app/handler.py:83-93 | only a worker `Response` is returned as is, and only a 3-tuple supplies headers |
| `Handler.ExceptionStatus` | namekox_webserver/core/entrypoints/app/handler.py:97-100 | status is 400 exactly for a `BadRequest` and 500 exactly otherwise |
| `Handler.WebHandleException` | namekox_webserver/core/entrypoints/app/handler.py:95-105 | as written, always the `str.join` TypeError, never a response |
| `Handler.WebRespondFailsIffException` | namekox_webserver/core/entrypoints/app/handler.py:74-104 | the web handler fails with the `str.join` TypeError exactly when the bridge reported an exception, so success and failure formatting are never mixed |
| `Handler.WebHandleExceptionIntended` | namekox_webserver/core/entrypoints/app/handler.py:95-105 | intended failure response: status 400 iff `BadRequest` and 500 otherwise, no headers, body `TypeName + linesep + message` |
| `Handler.WebIntendedBodyRoundTrip` | namekox_webserver/core/entrypoints/app/handler.py:103-104 | the intended two-line body splits back into the type name and the message |
| `Handler.WebRespond` | namekox_webserver/core/entrypoints/app/handler.py:74-80 | succeeds only without an exception, with `handle_response`'s response; fails exactly when there is an exception or an unpackable tuple |
| `Handler.CallId` | namekox_webserver/core/entrypoints/app/handler.py:119 | the call id is the suffix after the last `.`, holds no `.`, and is the whole id when there is no `.` |
| `Handler.CallIdOfDotted` | namekox_webserver/core/entrypoints/app/handler.py:142 | `prefix.id` yields `id`, and an undotted id yields itself |
| `Handler.ApiHandleResponse` | namekox_webserver/core/entrypoints/app/handler.py:117-127 | with a context: status 200, JSON content type, and envelope `Request:Success` / `""` / the result / the call id; without a context: an AttributeError |
| `Handler.ErrorText` | namekox_webserver/core/entrypoints/app/handler.py:131-135 | a `RemoteError` contributes its own text; any other exception gives its type name, one space, and its message |
| `Handler.LocalErrorTextSplits` | namekox_webserver/core/entrypoints/app/handler.py:133-139 | the text of a non-remote exception splits at its first space back into type name and message, when the type name has no space |
| `Handler.ApiHandleException` | namekox_webserver/core/entrypoints/app/handler.py:129-150 | every response has status 200, JSON content type and `data` null; the method raises the split error exactly when the error text has no space, and otherwise raises the missing-context error exactly when the context is None; with a space and a context it always responds, with code `ServerError:` + the stripped text before the first space, `errs` = the stripped rest, and the call id's last segment |
| `Handler.ApiLocalError` | namekox_webserver/core/entrypoints/app/handler.py:133-145 | a non-remote exception gives code `ServerError:` + its type name and `errs` = its stripped message |
| `Handler.ApiRemoteError` | namekox_webserver/core/entrypoints/app/handler.py:131-145 | a `RemoteError` `kind rest` gives code `ServerError:` + stripped `kind` and `errs` = stripped `rest` |
| `Handler.ApiRemoteErrorWithoutSpace` | namekox_webserver/core/entrypoints/app/handler.py:139 | a `RemoteError` whose text has no space makes the handler raise, whatever the context |
| `Handler.ApiRespond` | namekox_webserver/core/entrypoints/app/handler.py:109-115 | fails exactly when the context is None or the exception text has no space; every response has status 200 and JSON headers |
| `Handler.ApiRespondShape` | namekox_webserver/core/entrypoints/app/handler.py:109-150 | every API response has status 200 and JSON headers; `code` is `Request:Success` exactly when there was no exception; `data` is the result on success and null on error |
| `Handler.Respond` | namekox_webserver/core/entrypoints/app/handler.py:74-115 | only the API handler ever responds to an exception; an API response has status 200 and JSON headers; a web response is `handle_response`'s |
| `Bridge.Slot.Send` | namekox_webserver/core/entrypoints/app/handler.py:63 | the first send deposits its value; a later send is refused and leaves the first value in place |
| `Bridge.Slot.Wait` | namekox_webserver/core/entrypoints/app/handler.py:55 | waiting yields the deposited triple |
| `Bridge.ResHandler` | namekox_webserver/core/entrypoints/app/handler.py:60-64 | deposits exactly `(context, result, exc_info)` and returns `(result, exc_info)`; on an already-triggered event it changes nothing and fails |
| `Bridge.DepositTwice` | namekox_webserver/core/entrypoints/app/handler.py:50-64 | a second callback on one event is refused, and the waiter still reads the first triple |
| `Bridge.BridgeOutcome` | namekox_webserver/core/entrypoints/app/handler.py:45-58 | when submission raises, context and result stay None and only `exc_info` is set; otherwise the triple is exactly the worker's |
| `Bridge.BridgeExceptionSource` | namekox_webserver/core/entrypoints/app/handler.py:44-58 | the triple carries an exception exactly when submission failed or the worker reported one |
| `Bridge.HandleRequest` | namekox_webserver/core/entrypoints/app/handler.py:44-58 | the request is read in full (`shallow` cleared), its path values go unchanged to the worker, and the result is the bridge outcome |
| `Bridge.ServeRequest` | namekox_webserver/core/entrypoints/app/handler.py:74-80 | a handler's `handle_request` is the bridge followed by exactly one formatter, chosen by whether `exc_info` is None |
| `Bridge.SubmissionFailureRaises` | namekox_webserver/core/entrypoints/app/handler.py:56-58 | after a submission failure neither handler returns a response: the web handler hits the join TypeError; the API handler reads `call_id` off `None`, unless it already failed to split |
| `Server.ConfigOr` | namekox_webserver/core/entrypoints/app/server.py:63-64 | host/port take the configured value unless it is missing or falsy, in which case they take the default |
| `Server.SslArgs` | namekox_webserver/core/entrypoints/app/server.py:65-66 | `sslargs` holds only TLS keys, each configured or the forced `server_side`, with configured values kept |
| `Server.SrvArgs` | namekox_webserver/core/entrypoints/app/server.py:67-68 | `srvargs` holds only configured keys that are neither TLS nor host/port, or the forced `debug`, with configured values kept |
| `Server.PartitionRoutesEveryKey` | namekox_webserver/core/entrypoints/app/server.py:62-68 | every TLS key goes to `sslargs` and `sslargs` holds only TLS keys that are configured or `server_side`; every other key but host/port goes to `srvargs`, which holds nothing else but `debug`; no key lands in both, and host/port in neither |
| `Server.PartitionKeepsValues` | namekox_webserver/core/entrypoints/app/server.py:65-68 | configured values are kept, except the forced `server_side` and `debug` |
| `Server.PartitionForcedFlags` | namekox_webserver/core/entrypoints/app/server.py:66-68 | `sslargs` is empty exactly when no TLS key is configured and otherwise has `server_side=True`; `srvargs` is empty exactly when no other key remains and otherwise has `debug=True` |
| `Server.IntendedSetup` | namekox_webserver/core/entrypoints/app/server.py:62-68 | intended `setup`: all four fields are set, missing host/port take the defaults, and `sslargs`/`srvargs` share no key and hold neither host nor port |
| `Server.SetupAsWritten` | namekox_webserver/core/entrypoints/app/server.py:62-68 | as written: raises exactly when a TLS key is configured; host and port are assigned first either way; after the raise neither argument dict is set, and without TLS keys `sslargs` is empty |
| `Server.SetupAsWrittenRaisesIffSsl` | namekox_webserver/core/entrypoints/app/server.py:62-68 | the source's `setup` raises exactly when a TLS key is configured, and otherwise agrees with the intended partition, with empty `sslargs` |
| `Server.SetupAsWrittenCertfileOnly` | namekox_webserver/core/entrypoints/app/server.py:65 | for `{certfile}` the source raises, while the intended partition gives `{certfile, server_side: True}` and no server options |
| `Server.WebServer.Setup` | namekox_webserver/core/entrypoints/app/server.py:59-68 | skipped once the four fields are set; otherwise assigns the host/port defaults and the intended partition of the section (an empty one when the section is missing) |
| `Server.WebServer.constructor` | namekox_webserver/core/entrypoints/app/server.py:43-53 | every field starts as None, `accpted` true and `started` false |
| `Server.WebServer.Bind` | namekox_webserver/core/entrypoints/app/server.py:70-75 | returns the existing registry entry under the class name; otherwise stores a fresh instance under that key and returns it; other keys are unchanged |
| `Server.BindTwice` | namekox_webserver/core/entrypoints/app/server.py:70-75 | repeated binds on one container return the same instance |
| `Server.RuleOf` | namekox_webserver/core/entrypoints/app/handler.py:33-35 | a handler's rule carries its pattern, its methods and the handler as endpoint |
| `Server.UrlRules` | namekox_webserver/core/entrypoints/app/server.py:108-113 | one rule per entrypoint, in registration order |
| `Server.WebServer.GenUrlsMap` | namekox_webserver/core/entrypoints/app/server.py:108-113 | the loop emits, in order, one rule per registered entrypoint, with that entrypoint's rule, methods and endpoint |
| `Server.WebServer.GetWsgiSrv` | namekox_webserver/core/entrypoints/app/server.py:100-106 | the socket is TLS-wrapped exactly when `sslargs` is non-empty; the server options are `srvargs`; the app's URL map is built from the current entrypoints |
| `Server.WebServer.Start` | namekox_webserver/core/entrypoints/app/server.py:77-83 | the first start opens the socket on host/port, builds the WSGI server and spawns the accept loop; a second start changes nothing |
| `Server.WebServer.Stop` | namekox_webserver/core/entrypoints/app/server.py:85-88 | `accpted` becomes false first; after a start, the loop is killed and the socket closed; without a start it raises |
| `Server.StopThenStart` | namekox_webserver/core/entrypoints/app/server.py:77-88 | once stopped, a later start does not reopen anything: the socket stays closed and the loop stays dead |
| `Server.WebServer.HandleConnect` | namekox_webserver/core/entrypoints/app/server.py:85-94 | while `accpted` holds, every accepted connection gets its own handler thread, in order; a `stop` landing after `n` connections leaves exactly the first `n` handed off and `accpted` false; after an earlier `stop` none is |
| `Server.Handed` | namekox_webserver/core/entrypoints/app/server.py:90-94 | the number handed off is the whole sequence unless a stop lands before its end, and then exactly the stop point |
| `Server.RoutingErrorSkipsHandlers` | namekox_webserver/core/entrypoints/app/server.py:26-31 | a routing exception is the response whatever any worker would do, so no handler runs |
| `Server.AppOutcome` | namekox_webserver/core/entrypoints/app/server.py:23-32 | the outcome is the routing exception exactly when matching failed; otherwise it is the matched handler's response or the exception it raised |
| `Server.CallApp` | namekox_webserver/core/entrypoints/app/server.py:23-32 | on a match, the request gets the path values and goes to that handler, whose response or exception is the outcome; a routing exception becomes the response and leaves the request untouched |

## Findings

| source | as written | input that shows it | evidently intended | confidence | as-written member | corrected member |
|---|---|---|---|---|---|---|
| namekox_webserver/core/entrypoints/app/handler.py:104 | `payload.join(**exc_data)` passes keyword arguments to `str.join`, which accepts none, so every call raises TypeError | any failed request to a web handler, e.g. a worker raising `BadRequest` | fill the template with the type name and message (`str.format`) and return the 400/500 response | high (not executed) | `Handler.WebRespondFailsIffException` | `Handler.WebHandleExceptionIntended` |
| namekox_webserver/core/entrypoints/app/server.py:65 | the dict comprehension pops keys from `config` while iterating over it, so the next iteration step raises RuntimeError | a configuration section `{"certfile": "c.pem"}` | move the TLS keys into `sslargs` and leave the rest in `config` | high (not executed) | `Server.SetupAsWrittenRaisesIffSsl` | `Server.PartitionRoutesEveryKey` |

The web handler's request path keeps the as-written failure. `Handler.WebRespond`
and `Bridge.ServeRequest` therefore fail for every exception, as the source does.
`Server.WebServer.Setup` uses the intended partition. `Server.SetupAsWritten`
records what the source does instead.

## Left out

- `Server.WebServer.Setup`: uses the intended partition of line 65. The source raises RuntimeError for any TLS key, after host and port were already assigned. `Server.SetupAsWritten` models that behaviour.
- Sockets and the WSGI engine are not modelled: `eventlet.listen`, `accept`, `settimeout`, `wrap_ssl`, `wsgi.Server` and `process_request` are foreign I/O. `Socket`, `WsgiServer` and `GreenThread` only record what was opened.
- `Server.WebServer.HandleConnect`: `accept` blocks forever in the source. The model takes the accepted connections as a finite sequence, and a concurrent `stop` as the point in it where `accpted` is cleared. The socket timeout is not modelled.
- werkzeug's URL matching (`Map`, `Rule`, `bind_to_environ`, `adapter.match`) is foreign: its verdict is the `MatchResult` parameter. The only assumption is that a match names a rule of the app's map.
- werkzeug's `Request` and `Response` wrappers, and calling the response as a WSGI app, are not modelled. Status and header values are passed through unchecked.
- The blocking `Event.wait()`, `spawn_worker_thread`, `spawn_manage_thread` and `gt.kill()` concern scheduling. The bridge runs the worker to completion where it is submitted. A worker that never calls back is not modelled, so neither is the unbounded wait.
- `json.dumps` is not modelled: the envelope is a record, and serialisation failures are not modelled.
- `gen_exc_to_data`, the text of a `RemoteError` and `as_wraps_partial` belong to namekox_core. Exceptions are abstract records. The intended web body assumes `gen_exc_to_data` yields the type name and the message.
- `Handler.WebHandleExceptionIntended`: uses the POSIX `os.linesep` (`"\n"`) only.
- `Text.IsSpace` is Python 3's whitespace set. Under Python 2, `unicode.strip()` also removes U+180E, and `str.strip()` on byte strings removes only ASCII whitespace; neither is modelled.
- `get_context_from_header` is a stub returning `{}`. The context is whatever the worker deposits.
- namekox_webserver/constants.py is not part of this model. `WEBSERVER_CONFIG_KEY` is replaced by the section passed to `Setup`, and the two defaults are a parameter.
- `register_extension`, `unregister_extension` and `wait_extension_stop` belong to namekox_core and are not modelled, so `BaseServerHandler.setup` and `stop` are not either. `entrypoints` is a sequence in registration order. If the container keeps a set, its iteration order is not captured.
- The class attribute `BaseServerHandler.server = WebServer()` is one instance shared by every handler class. This sharing is not modelled.
- `Server.WebServer.Bind`: the key is always `"WebServer"`. Subclasses, which would key by their own name, are not modelled. The instance that `EntrypointProvider.bind` clones is a fresh `WebServer` with the same entrypoints.
- namekox_webserver/core/entrypoints/app/__init__.py only builds the `web`/`api` decorator table and has no logic.
