/** The JSON-RPC 2.0 dispatcher of mcp_backend/app/api/jsonrpc.py: request
    validation (section 4 of the JSON-RPC 2.0 Specification), notifications
    (section 4.1), response and error objects (sections 5 and 5.1) and
    batches (section 6), over a registry of method handlers.

    A handler is a function from its arguments to an outcome; `tr` stands for
    `get_message`, the message table lookup used for default texts. */
module JsonRpc {
  import opened Base
  import opened Text
  import opened Json

  const InvalidRequestCode := -32600
  const MethodNotFoundCode := -32601
  const InvalidParamsCode := -32602
  const ServerErrorCode := -32000

  /** How `_execute_method` passes `params`: `**params` for a dict,
      `*params` for a list, nothing otherwise. */
  datatype CallArgs = ByName(named: seq<(string, Json)>) | ByPosition(positional: seq<Json>) | NoArgs

  /** What a handler does: return a value, raise a `TypeError` (a call
      whose arguments do not fit), raise a `JSONRPCError` of its own (`data`
      is JNull for None) or raise anything else. */
  datatype Outcome =
    | Returned(value: Json)
    | RaisedTypeError(message: string)
    | RaisedRpc(code: int, message: string, data: Json)
    | RaisedOther(error: Error)

  type Handler = CallArgs -> Outcome

  /** What `_execute_method` leaves to `handle_request`: a value, a
      `JSONRPCError`, or any other exception. */
  datatype Execution = Value(v: Json) | RpcFailure(code: int, message: string, data: Json) | Unexpected

  /** An exception that escapes `handle_request` to its caller. */
  datatype Raised = RpcRaised(code: int, message: string) | PyRaised(error: Error)

  /** What `handle_request` ends with: a response (None for no response)
      or an exception raised to the caller. */
  datatype Handled = Answer(response: Option<Json>) | Escaped(raised: Raised)

  /** The responses a batch gathered, or the exception that ended it. */
  datatype Collected = Gathered(responses: seq<Json>) | Stopped(raised: Raised)

  /** The arguments `params` gives a handler. */
  function ArgsOf(params: Json): (a: CallArgs)
    ensures params.JObj? ==> a == ByName(params.fields)
    ensures params.JArr? ==> a == ByPosition(params.items)
    ensures !params.JObj? && !params.JArr? ==> a == NoArgs
  {
    match params
    case JObj(fs) => ByName(fs)
    case JArr(xs) => ByPosition(xs)
    case _ => NoArgs
  }

  /** `_execute_method`: an unhashable name fails the registry lookup with a
      TypeError, an unregistered one raises `MethodNotFound`, and a handler's
      TypeError becomes `InvalidParams`. */
  function Execute(methods: map<string, Handler>, name: Json, params: Json, tr: string -> string): (r: Execution)
    ensures (name.JArr? || name.JObj?) ==> r == Unexpected
    ensures !name.JArr? && !name.JObj? && !(name.JStr? && name.s in methods) ==>
              r == RpcFailure(MethodNotFoundCode,
                              if name.JNull? then tr("errors.not_found") else "方法未找到: " + PyStr(name), JNull)
    ensures name.JStr? && name.s in methods ==>
              match methods[name.s](ArgsOf(params))
              case Returned(v) => r == Value(v)
              case RaisedTypeError(m) => r == RpcFailure(InvalidParamsCode, "参数类型错误: " + m, JNull)
              case RaisedRpc(c, m, d) => r == RpcFailure(c, m, d)
              case RaisedOther(_) => r == Unexpected
  {
    if name.JArr? || name.JObj? then Unexpected
    else if !(name.JStr? && name.s in methods) then
      RpcFailure(MethodNotFoundCode, if name.JNull? then tr("errors.not_found") else "方法未找到: " + PyStr(name), JNull)
    else
      match methods[name.s](ArgsOf(params))
      case Returned(v) => Value(v)
      case RaisedTypeError(m) => RpcFailure(InvalidParamsCode, "参数类型错误: " + m, JNull)
      case RaisedRpc(c, m, d) => RpcFailure(c, m, d)
      case RaisedOther(_) => Unexpected
  }

  /** The checks on a dict request, in order; None when it passes them. */
  function Invalidity(fs: seq<(string, Json)>): (m: Option<string>)
    ensures m.None? <==> Lookup(fs, "jsonrpc") == Some(JStr("2.0")) && "method" in Keys(fs)
  {
    if "jsonrpc" !in Keys(fs) then Some("缺少 jsonrpc 字段")
    else if Lookup(fs, "jsonrpc") != Some(JStr("2.0")) then Some("jsonrpc 字段必须为 2.0")
    else if "method" !in Keys(fs) then Some("缺少 method 字段")
    else None
  }

  /** A success response object. */
  function Success(result: Json, id: Json): (j: Json)
    ensures j.JObj? && Keys(j.fields) == ["jsonrpc", "result", "id"]
    ensures Lookup(j.fields, "jsonrpc") == Some(JStr("2.0"))
    ensures Lookup(j.fields, "result") == Some(result)
    ensures Lookup(j.fields, "id") == Some(id)
  {
    var fs := [("jsonrpc", JStr("2.0")), ("result", result), ("id", id)];
    assert fs[1..][1..] == [("id", id)];
    assert Lookup(fs[1..][1..], "id") == Some(id);
    assert Lookup(fs[1..], "id") == Some(id);
    JObj(fs)
  }

  /** An error object, with `data` only when it is not None. */
  function ErrorObject(code: int, message: string, data: Json): (j: Json)
    ensures j.JObj? && Lookup(j.fields, "code") == Some(JInt(code))
    ensures Lookup(j.fields, "message") == Some(JStr(message))
    ensures "data" in Keys(j.fields) <==> data != JNull
    ensures data != JNull ==> Lookup(j.fields, "data") == Some(data)
  {
    var base := [("code", JInt(code)), ("message", JStr(message))];
    var withData := base + [("data", data)];
    assert withData[1..][1..] == [("data", data)];
    assert Lookup(withData[1..][1..], "data") == Some(data);
    assert Lookup(withData[1..], "data") == Some(data);
    assert Keys(withData) == ["code", "message", "data"];
    if data == JNull then JObj(base) else JObj(withData)
  }

  /** An error response object. */
  function Failure(code: int, message: string, data: Json, id: Json): (j: Json)
    ensures j.JObj? && Keys(j.fields) == ["jsonrpc", "error", "id"]
    ensures Lookup(j.fields, "jsonrpc") == Some(JStr("2.0"))
    ensures Lookup(j.fields, "error") == Some(ErrorObject(code, message, data))
    ensures Lookup(j.fields, "id") == Some(id)
  {
    var fs := [("jsonrpc", JStr("2.0")), ("error", ErrorObject(code, message, data)), ("id", id)];
    assert fs[1..][1..] == [("id", id)];
    assert Lookup(fs[1..][1..], "id") == Some(id);
    assert Lookup(fs[1..], "id") == Some(id);
    JObj(fs)
  }

  /** A response object: a dict carrying `"jsonrpc": "2.0"`. */
  predicate IsResponse(j: Json) {
    j.JObj? && Lookup(j.fields, "jsonrpc") == Some(JStr("2.0"))
  }

  /** `handle_request` for anything but a list. A value that is not a dict is
      refused inside the `try`; the handler then asks `"id" in request_data`,
      which is a substring test on a string (followed by a failing `.get`)
      and raises a TypeError on a number, a boolean or None. */
  function Single(methods: map<string, Handler>, req: Json, tr: string -> string): (h: Handled)
    requires !req.JArr?
    ensures h.Answer? && h.response.Some? ==> IsResponse(h.response.value)
    ensures req.JObj? && "id" !in Keys(req.fields) ==> h == Answer(None)
  {
    if !req.JObj? then
      if req.JStr? then
        if Contains(req.s, "id") then Escaped(PyRaised(NoAttribute(req, "get"))) else Answer(None)
      else
        Escaped(PyRaised(Error(TypeError, "argument of type '" + TypeName(req) + "' is not iterable")))
    else SingleObject(methods, req.fields, tr)
  }

  /** `handle_request` for a dict: validate, run the method, answer. */
  function SingleObject(methods: map<string, Handler>, fs: seq<(string, Json)>, tr: string -> string): (h: Handled) {
    var hasId := "id" in Keys(fs);
    var id := GetOr(JObj(fs), "id", JNull);
    var invalid := Invalidity(fs);
    if invalid.Some? then
      Answer(if hasId then Some(Failure(InvalidRequestCode, invalid.value, JNull, id)) else None)
    else
      Reply(Execute(methods, Lookup(fs, "method").value, GetOr(JObj(fs), "params", JObj([])), tr), hasId, id, tr)
  }

  /** The answer to a valid request once its method has run: a value is
      answered when the id is not None, a failure whenever an "id" key is
      present. */
  function Reply(e: Execution, hasId: bool, id: Json, tr: string -> string): (h: Handled)
    ensures h.Answer?
    ensures !hasId && id == JNull ==> h == Answer(None)
    ensures h.response.Some? ==> IsResponse(h.response.value) && Lookup(h.response.value.fields, "id") == Some(id)
  {
    match e
    case Value(v) => Answer(if id == JNull then None else Some(Success(v, id)))
    case RpcFailure(c, m, d) => Answer(if hasId then Some(Failure(c, m, d, id)) else None)
    case Unexpected => Answer(if hasId then Some(Failure(ServerErrorCode, tr("errors.server_error"), JNull, id)) else None)
  }

  /** With an id, every outcome is answered, carrying that id. */
  lemma ReplyWithId(e: Execution, id: Json, tr: string -> string)
    requires id != JNull
    ensures var h := Reply(e, true, id, tr);
            h.Answer? && h.response.Some? && h.response.value.JObj? &&
            Lookup(h.response.value.fields, "id") == Some(id) &&
            Lookup(h.response.value.fields, "jsonrpc") == Some(JStr("2.0"))
  {
  }

  /** `handle_request`: a list is a batch, anything else a single request. */
  function Handle(methods: map<string, Handler>, req: Json, tr: string -> string): (h: Handled)
    ensures !req.JArr? && h.Answer? && h.response.Some? ==> IsResponse(h.response.value)
    ensures req.JArr? && h.Answer? && h.response.Some? ==> h.response.value.JArr? && h.response.value.items != []
    ensures req == JArr([]) ==> h.Escaped?
    decreases req, 1
  {
    if req.JArr? then Batch(methods, req, tr) else Single(methods, req, tr)
  }

  /** The responses of the first `n` requests of a batch, in order, leaving
      out the None ones; an exception from a request ends the batch. */
  function Responses(methods: map<string, Handler>, batch: Json, n: nat, tr: string -> string): (c: Collected)
    requires batch.JArr? && n <= |batch.items|
    ensures c.Gathered? ==> |c.responses| <= n
    decreases batch, 0, n
  {
    if n == 0 then Gathered([])
    else
      match Responses(methods, batch, n - 1, tr)
      case Stopped(e) => Stopped(e)
      case Gathered(rs) =>
        match Handle(methods, batch.items[n - 1], tr)
        case Escaped(e) => Stopped(e)
        case Answer(a) => Gathered(if a.Some? then rs + [a.value] else rs)
  }

  /** `_handle_batch_request`: an empty batch raises `InvalidRequest`
      outside the `try`; a batch without responses answers None. */
  function Batch(methods: map<string, Handler>, batch: Json, tr: string -> string): Handled
    requires batch.JArr?
    decreases batch, 0, |batch.items| + 1
  {
    if batch.items == [] then Escaped(RpcRaised(InvalidRequestCode, "批量请求不能为空"))
    else
      match Responses(methods, batch, |batch.items|, tr)
      case Stopped(e) => Escaped(e)
      case Gathered(rs) => Answer(if rs == [] then None else Some(JArr(rs)))
  }

  // ------------------------------------------------------------ properties

  /** A dict request failing validation is answered with -32600 when it has
      an "id" key, and not at all otherwise. */
  lemma InvalidRequestAnswered(methods: map<string, Handler>, fs: seq<(string, Json)>, tr: string -> string)
    requires Lookup(fs, "jsonrpc") != Some(JStr("2.0")) || "method" !in Keys(fs)
    ensures var h := Single(methods, JObj(fs), tr);
            h.Answer? &&
            ("id" in Keys(fs) ==> h.response.Some? &&
                                  Lookup(h.response.value.fields, "error").value.fields[0] == ("code", JInt(InvalidRequestCode))) &&
            ("id" !in Keys(fs) ==> h.response.None?)
  {
  }

  /** A valid dict request whose "id" key holds a value other than None is
      always answered, with that id; its error code is -32601 for an
      unregistered method name, -32602 for a handler's TypeError and -32000
      for any other exception. */
  lemma AnsweredWithId(methods: map<string, Handler>, fs: seq<(string, Json)>, tr: string -> string, id: Json)
    requires Lookup(fs, "id") == Some(id) && id != JNull
    ensures var h := Single(methods, JObj(fs), tr);
            h.Answer? && h.response.Some? && h.response.value.JObj? &&
            Lookup(h.response.value.fields, "id") == Some(id) &&
            Lookup(h.response.value.fields, "jsonrpc") == Some(JStr("2.0"))
  {
    assert GetOr(JObj(fs), "id", JNull) == id;
    assert Single(methods, JObj(fs), tr) == SingleObject(methods, fs, tr);
    if Invalidity(fs).None? {
      ReplyWithId(Execute(methods, Lookup(fs, "method").value, GetOr(JObj(fs), "params", JObj([])), tr), id, tr);
    }
  }

  /** The error code a valid request with an id is answered with: -32601
      for an unregistered method name, -32602 for a handler's TypeError and
      -32000 for any other exception; a value is answered with a success
      response. */
  lemma ErrorCodes(methods: map<string, Handler>, fs: seq<(string, Json)>, tr: string -> string, name: string)
    requires Invalidity(fs).None? && Lookup(fs, "method") == Some(JStr(name))
    requires "id" in Keys(fs)
    ensures var h := Single(methods, JObj(fs), tr);
            var args := ArgsOf(GetOr(JObj(fs), "params", JObj([])));
            var id := Lookup(fs, "id").value;
            (name !in methods ==>
               h == Answer(Some(Failure(MethodNotFoundCode, "方法未找到: " + name, JNull, id)))) &&
            (name in methods && methods[name](args).RaisedTypeError? ==>
               h == Answer(Some(Failure(InvalidParamsCode, "参数类型错误: " + methods[name](args).message, JNull, id)))) &&
            (name in methods && methods[name](args).RaisedOther? ==>
               h == Answer(Some(Failure(ServerErrorCode, tr("errors.server_error"), JNull, id)))) &&
            (name in methods && methods[name](args).Returned? && id != JNull ==>
               h == Answer(Some(Success(methods[name](args).value, id))))
  {
    var params := GetOr(JObj(fs), "params", JObj([]));
    var id := Lookup(fs, "id").value;
    assert GetOr(JObj(fs), "id", JNull) == id;
    assert Single(methods, JObj(fs), tr) == SingleObject(methods, fs, tr);
    ReplyCodes(methods, name, params, id, tr);
  }

  /** The answer to a request with an id once `name` has run on `params`. */
  lemma ReplyCodes(methods: map<string, Handler>, name: string, params: Json, id: Json, tr: string -> string)
    ensures var h := Reply(Execute(methods, JStr(name), params, tr), true, id, tr);
            var args := ArgsOf(params);
            (name !in methods ==>
               h == Answer(Some(Failure(MethodNotFoundCode, "方法未找到: " + name, JNull, id)))) &&
            (name in methods && methods[name](args).RaisedTypeError? ==>
               h == Answer(Some(Failure(InvalidParamsCode, "参数类型错误: " + methods[name](args).message, JNull, id)))) &&
            (name in methods && methods[name](args).RaisedOther? ==>
               h == Answer(Some(Failure(ServerErrorCode, tr("errors.server_error"), JNull, id)))) &&
            (name in methods && methods[name](args).Returned? && id != JNull ==>
               h == Answer(Some(Success(methods[name](args).value, id))))
  {
    var e := Execute(methods, JStr(name), params, tr);
    if name in methods {
      var o := methods[name](ArgsOf(params));
      if o.RaisedTypeError? {
        assert e == RpcFailure(InvalidParamsCode, "参数类型错误: " + o.message, JNull);
      } else if o.RaisedOther? {
        assert e == Unexpected;
      } else if o.Returned? {
        assert e == Value(o.value);
      }
    } else {
      assert PyStr(JStr(name)) == name;
    }
  }

  /** A request without an "id" key is never answered, whatever happens;
      with "id": null it is answered only when it fails. */
  lemma NotificationsUnanswered(methods: map<string, Handler>, fs: seq<(string, Json)>, tr: string -> string)
    ensures "id" !in Keys(fs) ==> Single(methods, JObj(fs), tr) == Answer(None)
    ensures Lookup(fs, "id") == Some(JNull) && Invalidity(fs).None? &&
            Execute(methods, Lookup(fs, "method").value, GetOr(JObj(fs), "params", JObj([])), tr).Value? ==>
              Single(methods, JObj(fs), tr) == Answer(None)
  {
  }

  /** An empty batch raises instead of answering. */
  lemma EmptyBatchRaises(methods: map<string, Handler>, tr: string -> string)
    ensures Handle(methods, JArr([]), tr) == Escaped(RpcRaised(InvalidRequestCode, "批量请求不能为空"))
  {
  }

  /** A batch of dict requests never raises and answers at most once per
      request; with no "id" keys at all it gathers nothing. */
  lemma {:induction false} DictBatch(methods: map<string, Handler>, batch: Json, n: nat, tr: string -> string)
    requires batch.JArr? && n <= |batch.items|
    requires forall i :: 0 <= i < |batch.items| ==> batch.items[i].JObj?
    ensures Responses(methods, batch, n, tr).Gathered?
    ensures |Responses(methods, batch, n, tr).responses| <= n
    ensures (forall i :: 0 <= i < n ==> "id" !in Keys(batch.items[i].fields)) ==>
              Responses(methods, batch, n, tr).responses == []
    decreases n
  {
    if n > 0 {
      DictBatch(methods, batch, n - 1, tr);
      var x := batch.items[n - 1];
      assert Handle(methods, x, tr) == Single(methods, x, tr);
      NotificationsUnanswered(methods, x.fields, tr);
    }
  }

  /** A batch of dict requests whose ids are all values answers once per
      request, in request order. */
  lemma DictBatchAnswersEach(methods: map<string, Handler>, batch: Json, n: nat, tr: string -> string)
    requires batch.JArr? && n <= |batch.items|
    requires forall i :: 0 <= i < |batch.items| ==>
               batch.items[i].JObj? && Lookup(batch.items[i].fields, "id").Some? &&
               Lookup(batch.items[i].fields, "id") != Some(JNull)
    ensures Responses(methods, batch, n, tr).Gathered?
    ensures |Responses(methods, batch, n, tr).responses| == n
    ensures forall i :: 0 <= i < n ==>
              Single(methods, batch.items[i], tr).Answer? &&
              Single(methods, batch.items[i], tr).response.Some? &&
              Responses(methods, batch, n, tr).responses[i] == Single(methods, batch.items[i], tr).response.value
  {
    var xs := batch.items;
    forall i | 0 <= i < |xs|
      ensures Single(methods, xs[i], tr).Answer? && Single(methods, xs[i], tr).response.Some?
      ensures Handle(methods, xs[i], tr) == Single(methods, xs[i], tr)
    {
      AnsweredWithId(methods, xs[i].fields, tr, Lookup(xs[i].fields, "id").value);
      assert Handle(methods, xs[i], tr) == Single(methods, xs[i], tr);
    }
    var answers := seq(|xs|, i requires 0 <= i < |xs| => Single(methods, xs[i], tr).response.value);
    ResponsesAll(methods, batch, n, tr, answers);
  }

  /** Request `i` of the batch is answered with `answers[i]`. */
  ghost predicate AnsweredAt(methods: map<string, Handler>, batch: Json, i: nat, tr: string -> string, answers: seq<Json>) {
    batch.JArr? && i < |batch.items| && i < |answers| &&
    Handle(methods, batch.items[i], tr) == Answer(Some(answers[i]))
  }

  /** Requests answered one by one gather their answers in order. */
  lemma {:induction false} ResponsesAll(methods: map<string, Handler>, batch: Json, n: nat, tr: string -> string, answers: seq<Json>)
    requires batch.JArr? && n <= |batch.items| && n <= |answers|
    requires forall i :: 0 <= i < n ==> AnsweredAt(methods, batch, i, tr, answers)
    ensures Responses(methods, batch, n, tr) == Gathered(answers[..n])
    decreases n
  {
    if n > 0 {
      ResponsesAll(methods, batch, n - 1, tr, answers);
      ResponsesStep(methods, batch, n, tr, answers);
    }
  }

  /** A request answered with a response adds it after the earlier ones. */
  lemma ResponsesStep(methods: map<string, Handler>, batch: Json, n: nat, tr: string -> string, answers: seq<Json>)
    requires batch.JArr? && 0 < n <= |batch.items| && n <= |answers|
    requires Responses(methods, batch, n - 1, tr) == Gathered(answers[..n - 1])
    requires AnsweredAt(methods, batch, n - 1, tr, answers)
    ensures Responses(methods, batch, n, tr) == Gathered(answers[..n])
  {
    assert answers[..n] == answers[..n - 1] + [answers[n - 1]];
  }

  /** A batch in which every request is a notification answers None. */
  lemma AllNotificationsBatch(methods: map<string, Handler>, batch: Json, tr: string -> string)
    requires batch.JArr? && batch.items != []
    requires forall i :: 0 <= i < |batch.items| ==> batch.items[i].JObj? && "id" !in Keys(batch.items[i].fields)
    ensures Handle(methods, batch, tr) == Answer(None)
  {
    DictBatch(methods, batch, |batch.items|, tr);
  }

  // -------------------------------------------------------------- the class

  /** The dispatcher with its registry of methods. */
  class Dispatcher {
    var methods: map<string, Handler>

    constructor ()
      ensures methods == map[]
    {
      methods := map[];
    }

    /** `register_method`: a name registered again replaces its handler. */
    method RegisterMethod(name: string, handler: Handler)
      modifies this
      ensures methods == old(methods)[name := handler]
      ensures name in methods && methods[name] == handler
      ensures forall n :: n in old(methods) && n != name ==> n in methods && methods[n] == old(methods)[n]
    {
      methods := methods[name := handler];
    }

    /** The `method(name)` decorator: registers and hands the handler back. */
    method Method(name: string, handler: Handler) returns (f: Handler)
      modifies this
      ensures f == handler && methods == old(methods)[name := handler]
    {
      RegisterMethod(name, handler);
      f := handler;
    }

    /** `handle_request` */
    method HandleRequest(req: Json, tr: string -> string) returns (h: Handled)
      ensures h == Handle(methods, req, tr)
      decreases req, 1
    {
      if req.JArr? {
        h := HandleBatchRequest(req.items, tr);
      } else {
        h := Single(methods, req, tr);
      }
    }

    /** `_handle_batch_request`: each request in turn, collecting the
        responses that are not None. */
    method HandleBatchRequest(requests: seq<Json>, tr: string -> string) returns (h: Handled)
      ensures h == Batch(methods, JArr(requests), tr)
      decreases JArr(requests), 0
    {
      if requests == [] {
        return Escaped(RpcRaised(InvalidRequestCode, "批量请求不能为空"));
      }
      var responses: seq<Json> := [];
      var i := 0;
      while i < |requests|
        invariant 0 <= i <= |requests|
        invariant Responses(methods, JArr(requests), i, tr) == Gathered(responses)
      {
        assert requests[i] < JArr(requests);
        var response := HandleRequest(requests[i], tr);
        if response.Escaped? {
          assert Responses(methods, JArr(requests), i + 1, tr) == Stopped(response.raised);
          StoppedStays(methods, JArr(requests), i + 1, tr);
          return Escaped(response.raised);
        }
        if response.response.Some? {
          responses := responses + [response.response.value];
        }
        i := i + 1;
      }
      h := if responses == [] then Answer(None) else Answer(Some(JArr(responses)));
    }
  }

  /** Once a batch has stopped, it stays stopped. */
  lemma {:induction false} StoppedStays(methods: map<string, Handler>, batch: Json, m: nat, tr: string -> string)
    requires batch.JArr? && m <= |batch.items| && Responses(methods, batch, m, tr).Stopped?
    ensures forall n | m <= n <= |batch.items| :: Responses(methods, batch, n, tr) == Responses(methods, batch, m, tr)
    decreases |batch.items| - m
  {
    if m < |batch.items| {
      assert Responses(methods, batch, m + 1, tr) == Responses(methods, batch, m, tr);
      StoppedStays(methods, batch, m + 1, tr);
    }
  }
}
