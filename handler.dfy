/** The outcome-to-response formatting of `WebServerHandler` and
    `ApiServerHandler` (namekox_webserver/core/entrypoints/app/handler.py):
    how a worker's result or failure becomes an HTTP response. */
module Handler {
  import opened Wrappers
  import Text

  /** The Python values a worker may return, as far as the handlers look at
      them: a werkzeug `Response` and tuples are told apart, everything else
      is carried through untouched. */
  datatype Value =
    | VNone
    | VBool(b: bool)
    | VInt(i: int)
    | VStr(s: string)
    | VList(items: seq<Value>)
    | VDict(entries: map<string, Value>)
    | VTuple(items: seq<Value>)
    | VResponse(response: Response)

  /** A response body: the raw payload handed to werkzeug, or the JSON
      envelope `{code, errs, data, call_id}` before `json.dumps`. */
  datatype Body =
    | Payload(payload: Value)
    | Envelope(code: string, errs: string, data: Value, callId: string)

  /** `werkzeug.wrappers.Response(payload, status=..., headers=...)`. */
  datatype Response = Response(body: Body, status: Value, headers: Value)

  /** The worker context; only its `call_id` is read here. */
  datatype Context = Context(callId: string)

  /** An exception as the handlers see it: its type's `__name__`, its text,
      whether it is a `RemoteError` and whether it is a `BadRequest`. */
  datatype Exc = Exc(typeName: string, message: string, isRemote: bool, isBadRequest: bool)

  /** The `(context, result, exc_info)` triple the bridge hands back. */
  datatype Triple = Triple(context: Option<Context>, result: Value, excInfo: Option<Exc>)

  /** What the formatting code raises instead of returning a response. */
  datatype Failure =
    | UnpackError(arity: nat)   // ValueError: a tuple of neither 2 nor 3 items
    | JoinKeywordError          // TypeError: str.join() takes no keyword arguments
    | SplitError(text: string)  // ValueError: no space to split the error text at
    | MissingContext            // AttributeError: context is None, it has no call_id

  /** The two handler classes. */
  datatype HandlerKind = Web | Api

  /** The HTTP methods a handler accepts when none are given. */
  const DEFAULT_METHODS: seq<string> := ["GET"]

  /** A registered handler: its class, URL rule and accepted methods. */
  datatype Entrypoint = Entrypoint(kind: HandlerKind, rule: string, methods: seq<string>)

  /** `BaseServerHandler(rule)` with the default `methods=('GET',)`. */
  function NewEntrypoint(kind: HandlerKind, rule: string, methods: Option<seq<string>>): (ep: Entrypoint)
    ensures ep.kind == kind && ep.rule == rule
    ensures methods.None? ==> ep.methods == ["GET"]
    ensures methods.Some? ==> ep.methods == methods.value
  {
    Entrypoint(kind, rule, if methods.Some? then methods.value else DEFAULT_METHODS)
  }

  // ---------------------------------------------------------------------
  // WebServerHandler.handle_response

  /** The four shapes of a worker result the web handler accepts. */
  datatype ResultShape =
    | FullResponse(response: Response)
    | PayloadHeadersStatus(payload: Value, headers: Value, status: Value)
    | PayloadStatus(payload: Value, status: Value)
    | BareValue(value: Value)

  /** A bare value is anything that is neither a response nor a tuple. */
  predicate IsBare(v: Value) {
    !v.VResponse? && !v.VTuple?
  }

  /** A shape that a worker result can actually have. */
  predicate WellFormedShape(shape: ResultShape) {
    shape.BareValue? ==> IsBare(shape.value)
  }

  /** The `isinstance`/`len` inspection of the worker result: a tuple of
      neither 2 nor 3 items cannot be unpacked. */
  function ClassifyResult(result: Value): (r: Result<ResultShape, Failure>)
    ensures r.Ok? ==> WellFormedShape(r.value)
    ensures r.Err? <==> result.VTuple? && |result.items| != 2 && |result.items| != 3
  {
    match result
    case VResponse(resp) => Ok(FullResponse(resp))
    case VTuple(items) =>
      if |items| == 3 then Ok(PayloadHeadersStatus(items[0], items[1], items[2]))
      else if |items| == 2 then Ok(PayloadStatus(items[0], items[1]))
      else Err(UnpackError(|items|))
    case _ => Ok(BareValue(result))
  }

  /** The worker result that has a given shape: a 3-tuple is
      `(payload, headers, status)`, a 2-tuple `(payload, status)`. */
  function ShapeValue(shape: ResultShape): Value {
    match shape
    case FullResponse(resp) => VResponse(resp)
    case PayloadHeadersStatus(p, h, s) => VTuple([p, h, s])
    case PayloadStatus(p, s) => VTuple([p, s])
    case BareValue(v) => v
  }

  /** Classifying the value of a shape recovers the shape. */
  lemma ClassifyShapeValue(shape: ResultShape)
    requires WellFormedShape(shape)
    ensures ClassifyResult(ShapeValue(shape)) == Ok(shape)
  {
  }

  /** Every result that classifies is the value of its shape. */
  lemma ShapeValueOfClassified(result: Value)
    requires ClassifyResult(result).Ok?
    ensures ShapeValue(ClassifyResult(result).value) == result
  {
    if result.VTuple? {
      var items := result.items;
      assert |items| == 3 ==> items == [items[0], items[1], items[2]];
      assert |items| == 2 ==> items == [items[0], items[1]];
    }
  }

  /** The response built for each shape; a bare value gets status 200. */
  function BuildResponse(shape: ResultShape): Response {
    match shape
    case FullResponse(resp) => resp
    case PayloadHeadersStatus(p, h, s) => Response(Payload(p), s, h)
    case PayloadStatus(p, s) => Response(Payload(p), s, VNone)
    case BareValue(v) => Response(Payload(v), VInt(200), VNone)
  }

  /** `WebServerHandler.handle_response`: fails only on a tuple it cannot
      unpack, returns a worker `Response` as is, and otherwise wraps a payload
      taken from the result. */
  function WebHandleResponse(result: Value): (r: Result<Response, Failure>)
    ensures r.Err? <==> result.VTuple? && |result.items| != 2 && |result.items| != 3
    ensures r.Err? ==> r.error == UnpackError(|result.items|)
    ensures r.Ok? && result.VResponse? ==> r.value == result.response
    ensures r.Ok? && result.VTuple? ==> r.value.body == Payload(result.items[0])
    ensures r.Ok? && IsBare(result) ==> r.value.body == Payload(result) && r.value.status == VInt(200)
  {
    match ClassifyResult(result)
    case Ok(shape) => Ok(BuildResponse(shape))
    case Err(e) => Err(e)
  }

  /** What `handle_response` returns for each kind of worker result. */
  lemma WebHandleResponseCases(result: Value)
    ensures result.VResponse? ==> WebHandleResponse(result) == Ok(result.response)
    ensures result.VTuple? && |result.items| == 3 ==>
      WebHandleResponse(result) == Ok(Response(Payload(result.items[0]), result.items[2], result.items[1]))
    ensures result.VTuple? && |result.items| == 2 ==>
      WebHandleResponse(result) == Ok(Response(Payload(result.items[0]), result.items[1], VNone))
    ensures result.VTuple? && |result.items| != 2 && |result.items| != 3 ==>
      WebHandleResponse(result) == Err(UnpackError(|result.items|))
    ensures IsBare(result) ==> WebHandleResponse(result) == Ok(Response(Payload(result), VInt(200), VNone))
  {
  }

  /** A response is never re-wrapped, and any other successful result is
      wrapped with no headers unless a 3-tuple supplied them. */
  lemma WebPassthroughOnly(result: Value)
    requires WebHandleResponse(result).Ok?
    ensures WebHandleResponse(result).value.body.Payload? || result.VResponse?
    ensures !result.VResponse? && !(result.VTuple? && |result.items| == 3) ==>
      WebHandleResponse(result).value.headers == VNone
  {
  }

  // ---------------------------------------------------------------------
  // WebServerHandler.handle_exception

  /** The status chosen for a failure: 400 for a `BadRequest`, 500 otherwise. */
  function ExceptionStatus(e: Exc): (status: int)
    ensures status == 400 <==> e.isBadRequest
    ensures status == 500 <==> !e.isBadRequest
  {
    if e.isBadRequest then 400 else 500
  }

  /** `WebServerHandler.handle_exception` as written: the status it chooses
      (`ExceptionStatus`) is never used, because the `str.join` call with
      keyword arguments raises TypeError first, so no response is ever
      returned. */
  function WebHandleException(e: Exc): (r: Result<Response, Failure>)
    ensures r.Err? && r.error.JoinKeywordError?
  {
    Err(JoinKeywordError)
  }

  /** `os.linesep` on POSIX systems. */
  const LINESEP: char := '\n'

  /** The evidently intended `handle_exception`: the template
      `'{exc_type}' + os.linesep + '{exc_mesg}'` filled with the exception's
      type name and message. */
  function WebHandleExceptionIntended(e: Exc): (r: Response)
    ensures r.status == VInt(400) <==> e.isBadRequest
    ensures r.status == VInt(500) <==> !e.isBadRequest
    ensures r.headers == VNone
    ensures r.body == Payload(VStr(e.typeName + [LINESEP] + e.message))
  {
    Response(Payload(VStr(e.typeName + [LINESEP] + e.message)), VInt(ExceptionStatus(e)), VNone)
  }

  /** The intended two-line body can be read back: its first line is the
      type name and the rest is the message. */
  lemma WebIntendedBodyRoundTrip(e: Exc)
    requires LINESEP !in e.typeName
    ensures Text.SplitFirst(WebHandleExceptionIntended(e).body.payload.s, LINESEP)
         == Some((e.typeName, e.message))
  {
    Text.SplitFirstJoin(e.typeName, LINESEP, e.message);
  }

  /** `WebServerHandler.handle_request` after the bridge: the success
      formatter when there is no `exc_info`, the failure formatter otherwise. */
  function WebRespond(t: Triple): (r: Result<Response, Failure>)
    ensures r.Ok? ==> t.excInfo.None? && r == WebHandleResponse(t.result)
    ensures r.Err? <==> t.excInfo.Some? || (t.result.VTuple? && |t.result.items| != 2 && |t.result.items| != 3)
  {
    if t.excInfo.None? then WebHandleResponse(t.result) else WebHandleException(t.excInfo.value)
  }

  /** As written, the web handler fails with the join TypeError exactly when
      the bridge reported an exception; a successful worker never hits it. */
  lemma WebRespondFailsIffException(t: Triple)
    ensures WebRespond(t) == Err(JoinKeywordError) <==> t.excInfo.Some?
  {
  }

  // ---------------------------------------------------------------------
  // ApiServerHandler

  const JSON_HEADERS: Value := VDict(map["Content-Type" := VStr("application/json")])
  const SUCCESS_CODE: string := "Request:Success"
  const ERROR_PREFIX: string := "ServerError:"

  /** `context.call_id.split('.')[-1]`. */
  function CallId(ctx: Context): (id: string)
    ensures '.' !in id
    ensures |id| <= |ctx.callId| && id == ctx.callId[|ctx.callId| - |id|..]
    ensures |id| < |ctx.callId| ==> ctx.callId[|ctx.callId| - |id| - 1] == '.'
  {
    Text.LastSegment(ctx.callId, '.')
  }

  /** A dotted call id `prefix.id` yields `id`; an undotted one yields itself. */
  lemma CallIdOfDotted(prefix: string, id: string)
    requires '.' !in id
    ensures CallId(Context(prefix + ['.'] + id)) == id
    ensures CallId(Context(id)) == id
  {
    Text.LastSegmentAfterSeparator(prefix, '.', id);
    Text.LastSegmentWhole(id, '.');
  }

  /** `ApiServerHandler.handle_response`. */
  function ApiHandleResponse(ctx: Option<Context>, result: Value): (r: Result<Response, Failure>)
    ensures r.Err? <==> ctx.None?
    ensures r.Ok? ==> r.value.status == VInt(200) && r.value.headers == JSON_HEADERS
    ensures r.Ok? ==> r.value.body == Envelope(SUCCESS_CODE, "", result, CallId(ctx.value))
  {
    match ctx
    case None => Err(MissingContext)
    case Some(c) => Ok(Response(Envelope(SUCCESS_CODE, "", result, CallId(c)), VInt(200), JSON_HEADERS))
  }

  /** The text that `handle_exception` splits: the `RemoteError`'s own text,
      or `"TypeName message"` for any other exception. */
  function ErrorText(e: Exc): (s: string)
    ensures e.isRemote ==> s == e.message
    ensures !e.isRemote ==> ' ' in s && |s| == |e.typeName| + 1 + |e.message|
    ensures !e.isRemote ==>
      s[..|e.typeName|] == e.typeName && s[|e.typeName|] == ' ' && s[|e.typeName| + 1..] == e.message
  {
    if e.isRemote then e.message else e.typeName + " " + e.message
  }

  /** The text of a local exception splits back into its type name and its
      message, as long as the type name has no space. */
  lemma {:induction false} LocalErrorTextSplits(e: Exc)
    requires !e.isRemote && ' ' !in e.typeName
    ensures Text.SplitFirst(ErrorText(e), ' ') == Some((e.typeName, e.message))
  {
    assert ErrorText(e) == e.typeName + [' '] + e.message;
    Text.SplitFirstJoin(e.typeName, ' ', e.message);
  }

  /** `ApiServerHandler.handle_exception`: split the error text at its first
      space (raising when there is none), strip both halves, and report them
      in the `ServerError:` envelope with status 200 and `data` null. */
  function ApiHandleException(ctx: Option<Context>, e: Exc): (r: Result<Response, Failure>)
    ensures r.Ok? ==> r.value.status == VInt(200) && r.value.headers == JSON_HEADERS
    ensures r.Ok? ==> r.value.body.Envelope? && r.value.body.data == VNone
    ensures r == Err(SplitError(ErrorText(e))) <==> ' ' !in ErrorText(e)
    ensures r == Err(MissingContext) <==> ' ' in ErrorText(e) && ctx.None?
    ensures ' ' in ErrorText(e) && ctx.Some? ==>
      && r.Ok?
      && r.value.body.code == ERROR_PREFIX + Text.Strip(Text.SplitFirst(ErrorText(e), ' ').value.0)
      && r.value.body.errs == Text.Strip(Text.SplitFirst(ErrorText(e), ' ').value.1)
      && r.value.body.callId == CallId(ctx.value)
  {
    var text := ErrorText(e);
    match Text.SplitFirst(text, ' ')
    case None => Err(SplitError(text))
    case Some((subErr, errMsg)) =>
      match ctx
      case None => Err(MissingContext)
      case Some(c) =>
        Ok(Response(Envelope(ERROR_PREFIX + Text.Strip(subErr), Text.Strip(errMsg), VNone, CallId(c)),
                     VInt(200), JSON_HEADERS))
  }

  /** A non-remote exception, whose type name is an identifier, is reported
      as `ServerError:<TypeName>` with its stripped message. */
  lemma ApiLocalError(c: Context, e: Exc)
    requires !e.isRemote
    requires e.typeName != [] && forall k :: 0 <= k < |e.typeName| ==> !Text.IsSpace(e.typeName[k])
    ensures ApiHandleException(Some(c), e)
         == Ok(Response(Envelope(ERROR_PREFIX + e.typeName, Text.Strip(e.message), VNone, CallId(c)),
                        VInt(200), JSON_HEADERS))
  {
    assert ' ' !in e.typeName by {
      assert Text.IsSpace(' ');
    }
    Text.SplitFirstJoin(e.typeName, ' ', e.message);
    Text.StripKeepsTrimmed(e.typeName);
  }

  /** A `RemoteError` whose text is `kind message` is reported with the
      stripped kind as sub-code and the stripped rest as `errs`. */
  lemma ApiRemoteError(c: Context, e: Exc, kind: string, rest: string)
    requires e.isRemote && e.message == kind + " " + rest && ' ' !in kind
    ensures ApiHandleException(Some(c), e)
         == Ok(Response(Envelope(ERROR_PREFIX + Text.Strip(kind), Text.Strip(rest), VNone, CallId(c)),
                        VInt(200), JSON_HEADERS))
  {
    Text.SplitFirstJoin(kind, ' ', rest);
  }

  /** A `RemoteError` whose text has no space makes `handle_exception` raise,
      whatever the context. */
  lemma ApiRemoteErrorWithoutSpace(ctx: Option<Context>, e: Exc)
    requires e.isRemote && ' ' !in e.message
    ensures ApiHandleException(ctx, e) == Err(SplitError(e.message))
  {
  }

  /** `ApiServerHandler.handle_request` after the bridge. */
  function ApiRespond(t: Triple): (r: Result<Response, Failure>)
    ensures r.Err? <==> t.context.None? || (t.excInfo.Some? && ' ' !in ErrorText(t.excInfo.value))
    ensures r.Ok? ==> r.value.status == VInt(200) && r.value.headers == JSON_HEADERS
  {
    if t.excInfo.None? then ApiHandleResponse(t.context, t.result)
    else ApiHandleException(t.context, t.excInfo.value)
  }

  /** Every API response has status 200 and the JSON content type, and its
      `code` tells which formatter built it: `Request:Success` exactly when
      there was no exception. */
  lemma ApiRespondShape(t: Triple)
    requires ApiRespond(t).Ok?
    ensures ApiRespond(t).value.status == VInt(200)
    ensures ApiRespond(t).value.headers == JSON_HEADERS
    ensures ApiRespond(t).value.body.Envelope?
    ensures ApiRespond(t).value.body.code == SUCCESS_CODE <==> t.excInfo.None?
    ensures t.excInfo.None? ==> ApiRespond(t).value.body.errs == "" && ApiRespond(t).value.body.data == t.result
    ensures t.excInfo.Some? ==> ApiRespond(t).value.body.data == VNone
  {
    if t.excInfo.Some? {
      var code := ApiRespond(t).value.body.code;
      assert code[..|ERROR_PREFIX|] == ERROR_PREFIX;
      assert code[0] != SUCCESS_CODE[0];
    }
  }

  /** `handle_request` of either handler class. */
  function Respond(kind: HandlerKind, t: Triple): (r: Result<Response, Failure>)
    ensures r.Ok? && t.excInfo.Some? ==> kind == Api
    ensures kind == Api && r.Ok? ==> r.value.status == VInt(200) && r.value.headers == JSON_HEADERS
    ensures kind == Web && r.Ok? ==> r == WebHandleResponse(t.result)
  {
    match kind
    case Web => WebRespond(t)
    case Api => ApiRespond(t)
  }
}
