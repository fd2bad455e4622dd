/** The per-request bridge of `BaseServerHandler`
    (namekox_webserver/core/entrypoints/app/handler.py): the request is
    handed to a worker, whose completion callback deposits the outcome in a
    one-shot event that the connection then reads. The wait itself is not
    modelled: the worker is run to completion where it is submitted. */
module Bridge {
  import opened Wrappers
  import opened Handler

  /** The parts of a werkzeug `Request` the bridge touches. */
  class Request {
    var shallow: bool
    var pathValues: map<string, string>

    constructor (shallow: bool, pathValues: map<string, string>)
      ensures this.shallow == shallow && this.pathValues == pathValues
    {
      this.shallow := shallow;
      this.pathValues := pathValues;
    }
  }

  /** The eventlet `Event` used as a one-shot slot: it holds nothing until
      the first `send`, and a second `send` is refused. */
  class Slot {
    var value: Option<Triple>

    constructor ()
      ensures value == None
    {
      value := None;
    }

    /** `event.send(data)`: deposits `t` if nothing was deposited yet;
        otherwise the slot keeps its first value and the send fails. */
    method Send(t: Triple) returns (ok: bool)
      modifies this
      ensures ok <==> old(value).None?
      ensures value == if ok then Some(t) else old(value)
    {
      ok := value.None?;
      if ok {
        value := Some(t);
      }
    }

    /** `event.wait()` once a value is there. */
    method Wait() returns (t: Triple)
      requires value.Some?
      ensures t == value.value
    {
      t := value.value;
    }
  }

  /** Raised by `res_handler` when its event was already triggered. */
  datatype BridgeError = AlreadySent

  /** `BaseServerHandler.res_handler`: deposits exactly the triple it was
      called with and returns `(result, exc_info)` to the worker. */
  method ResHandler(slot: Slot, context: Option<Context>, result: Value, excInfo: Option<Exc>)
    returns (r: Result<(Value, Option<Exc>), BridgeError>)
    modifies slot
    ensures old(slot.value).None? ==>
      slot.value == Some(Triple(context, result, excInfo)) && r == Ok((result, excInfo))
    ensures old(slot.value).Some? ==> slot.value == old(slot.value) && r == Err(AlreadySent)
  {
    var ok := slot.Send(Triple(context, result, excInfo));
    if ok {
      r := Ok((result, excInfo));
    } else {
      r := Err(AlreadySent);
    }
  }

  /** A completion callback invoked twice on one event: the second deposit is
      refused and the connection still reads the first outcome. */
  method DepositTwice(first: Triple, second: Triple)
    returns (waited: Triple, firstReply: Result<(Value, Option<Exc>), BridgeError>,
             secondReply: Result<(Value, Option<Exc>), BridgeError>)
    ensures waited == first
    ensures firstReply == Ok((first.result, first.excInfo))
    ensures secondReply == Err(AlreadySent)
  {
    var slot := new Slot();
    firstReply := ResHandler(slot, first.context, first.result, first.excInfo);
    secondReply := ResHandler(slot, second.context, second.result, second.excInfo);
    waited := slot.Wait();
  }

  /** What `BaseServerHandler.handle_request` returns: when submitting the
      worker raises, only `exc_info` is set; otherwise the triple the worker
      deposited. */
  function BridgeOutcome(submitError: Option<Exc>, deposited: Triple): (t: Triple)
    ensures submitError.Some? ==> t.context.None? && t.result == VNone && t.excInfo == submitError
    ensures submitError.None? ==> t == deposited
  {
    if submitError.Some? then Triple(None, VNone, submitError) else deposited
  }

  /** The bridge reports an exception exactly when submission failed or the
      worker reported one. */
  lemma BridgeExceptionSource(submitError: Option<Exc>, deposited: Triple)
    ensures BridgeOutcome(submitError, deposited).excInfo.Some?
        <==> submitError.Some? || deposited.excInfo.Some?
  {
  }

  /** `BaseServerHandler.handle_request`. `submitError` is what
      `spawn_worker_thread` raises, if anything; `worker` is the outcome the
      worker reports for the keyword arguments it is given (the path values).
      The request is read in full (`shallow` cleared) before anything else. */
  method HandleRequest(request: Request, submitError: Option<Exc>, worker: map<string, string> -> Triple)
    returns (t: Triple)
    modifies request
    ensures !request.shallow && request.pathValues == old(request.pathValues)
    ensures t == BridgeOutcome(submitError, worker(old(request.pathValues)))
  {
    t := Triple(None, VNone, None);
    request.shallow := false;
    var kwargs := request.pathValues;
    var event := new Slot();
    if submitError.Some? {
      t := Triple(t.context, t.result, submitError);
      return;
    }
    var outcome := worker(kwargs);
    var reply := ResHandler(event, outcome.context, outcome.result, outcome.excInfo);
    t := event.Wait();
  }

  /** `WebServerHandler.handle_request` / `ApiServerHandler.handle_request`:
      the bridge, then exactly one of the two formatters. */
  method ServeRequest(kind: HandlerKind, request: Request, submitError: Option<Exc>,
                      worker: map<string, string> -> Triple)
    returns (r: Result<Response, Failure>)
    modifies request
    ensures !request.shallow && request.pathValues == old(request.pathValues)
    ensures r == Respond(kind, BridgeOutcome(submitError, worker(old(request.pathValues))))
  {
    var t := HandleRequest(request, submitError, worker);
    r := Respond(kind, t);
  }

  /** When the worker cannot even be submitted, neither handler produces a
      response: the web handler fails in `handle_exception`, and the API
      handler either cannot split the text or reads `call_id` off a `None`
      context. */
  lemma SubmissionFailureRaises(kind: HandlerKind, e: Exc, deposited: Triple)
    ensures Respond(kind, BridgeOutcome(Some(e), deposited)).Err?
    ensures kind == Web ==> Respond(kind, BridgeOutcome(Some(e), deposited)) == Err(JoinKeywordError)
    ensures kind == Api && ' ' in ErrorText(e) ==>
      Respond(kind, BridgeOutcome(Some(e), deposited)) == Err(MissingContext)
  {
  }
}
