/** The client error handler (frontend/src/utils/errorHandler.ts): it turns
    whatever an operation threw into an `AppError`, logs it through the
    `Logger`, and keeps the newest 100 in a queue.  The thrown value is a
    `Thrown`; the creation time and the user id read from the stored access
    token are the `now` and `userId` parameters. */
module ErrorHandling {
  import opened Wrappers
  import opened Text
  import opened Json
  import opened Logging

  datatype ErrorCode =
    | NetworkError | TimeoutError | ConnectionError
    | AuthRequired | AuthExpired | AuthInvalid
    | PermissionDenied | ResourceNotFound
    | ValidationError | InvalidInput
    | ApiError | ServerError | RateLimited
    | UnknownError | ComponentError
  {
    /** The enum member's string value. */
    function Name(): string {
      match this
      case NetworkError => "NETWORK_ERROR"
      case TimeoutError => "TIMEOUT_ERROR"
      case ConnectionError => "CONNECTION_ERROR"
      case AuthRequired => "AUTH_REQUIRED"
      case AuthExpired => "AUTH_EXPIRED"
      case AuthInvalid => "AUTH_INVALID"
      case PermissionDenied => "PERMISSION_DENIED"
      case ResourceNotFound => "RESOURCE_NOT_FOUND"
      case ValidationError => "VALIDATION_ERROR"
      case InvalidInput => "INVALID_INPUT"
      case ApiError => "API_ERROR"
      case ServerError => "SERVER_ERROR"
      case RateLimited => "RATE_LIMITED"
      case UnknownError => "UNKNOWN_ERROR"
      case ComponentError => "COMPONENT_ERROR"
    }
  }

  /** `message` is whatever value the source put there (a non-string
      `data.message` passes through). */
  datatype AppError = AppError(code: ErrorCode, message: Json, details: Json, timestamp: int, userId: Option<Json>)

  /** What was thrown: `None` is `undefined`; `isErrorInstance` is
      `instanceof Error`, whose properties (`message`, `stack`, and for an
      axios error `response` and `request`) are the fields of `value`. */
  datatype Thrown = Thrown(value: Option<Json>, isErrorInstance: bool)

  const MaxErrors: nat := 100

  /** An object literal; a property whose value is `undefined` is left out. */
  function Fields(entries: seq<(string, Option<Json>)>): (r: map<string, Json>)
    ensures forall k :: k in r ==> exists i :: 0 <= i < |entries| && entries[i].0 == k
  {
    if entries == [] then map[]
    else
      var rest := Fields(entries[..|entries| - 1]);
      var (k, v) := entries[|entries| - 1];
      if v.Some? then rest[k := v.value] else rest
  }

  /** A two-entry object literal: each present entry, under its own key. */
  lemma TwoFields(k1: string, v1: Option<Json>, k2: string, v2: Option<Json>)
    requires k1 != k2
    ensures var d := JObj(Fields([(k1, v1), (k2, v2)]));
      d.fields.Keys <= {k1, k2} && Get(d, k1) == v1 && Get(d, k2) == v2
  {
    var e := [(k1, v1), (k2, v2)];
    assert e[..1] == [(k1, v1)];
    assert e[..1][..0] == [];
    var r1 := Fields(e[..1]);
    assert r1 == if v1.Some? then map[k1 := v1.value] else map[];
    assert Fields(e) == if v2.Some? then r1[k2 := v2.value] else r1;
  }

  /** The details object of `handleHttpError`: each present entry, under its
      own key. */
  lemma DetailsFields(context: Option<Json>, status: Option<Json>, data: Option<Json>)
    ensures var d := JObj(Fields([("context", context), ("status", status), ("data", data)]));
      d.fields.Keys <= {"context", "status", "data"} && Get(d, "context") == context &&
      Get(d, "status") == status && Get(d, "data") == data
  {
    var e := [("context", context), ("status", status), ("data", data)];
    assert e[..2] == [("context", context), ("status", status)];
    assert e[..2][..1] == [("context", context)];
    assert e[..2][..1][..0] == [];
    var r1 := Fields(e[..2][..1]);
    assert r1 == if context.Some? then map["context" := context.value] else map[];
    var r2 := Fields(e[..2]);
    assert r2 == if status.Some? then r1["status" := status.value] else r1;
    assert Fields(e) == if data.Some? then r2["data" := data.value] else r2;
  }

  function IsStatus(status: Option<Json>, n: int): bool { status == Some(JNum(n)) }

  /** The `switch (status)` of `handleHttpError`: strict equality, so only a
      number matches a case. */
  function HttpCode(status: Option<Json>): (r: ErrorCode)
    ensures IsStatus(status, 400) <==> r == ValidationError
    ensures IsStatus(status, 401) <==> r == AuthRequired
    ensures IsStatus(status, 403) <==> r == PermissionDenied
    ensures IsStatus(status, 404) <==> r == ResourceNotFound
    ensures IsStatus(status, 429) <==> r == RateLimited
    ensures (IsStatus(status, 500) || IsStatus(status, 502) || IsStatus(status, 503) || IsStatus(status, 504))
            <==> r == ServerError
    ensures r in {ValidationError, AuthRequired, PermissionDenied, ResourceNotFound, RateLimited, ServerError, ApiError}
  {
    match status
    case Some(JNum(n)) =>
      if n == 400 then ValidationError
      else if n == 401 then AuthRequired
      else if n == 403 then PermissionDenied
      else if n == 404 then ResourceNotFound
      else if n == 429 then RateLimited
      else if n == 500 || n == 502 || n == 503 || n == 504 then ServerError
      else ApiError
    case _ => ApiError
  }

  /** `handleHttpError`: `None` when a 400 response has no data, where reading
      `data.message` throws. */
  function HttpError(response: Json, context: Option<Json>, now: int, userId: Option<Json>): (r: Option<AppError>)
    ensures r.None? <==> IsStatus(Get(response, "status"), 400) && Nullish(Get(response, "data"))
    ensures r.Some? ==> r.value.code == HttpCode(Get(response, "status"))
    ensures r.Some? && r.value.code == ValidationError ==>
              r.value.message == JsOr(Get(Get(response, "data").value, "message"), Some(JStr("Invalid request data"))).value
    ensures r.Some? && r.value.code == ApiError ==>
              r.value.message == JStr("HTTP " + OptJsString(Get(response, "status")) + " error")
    ensures r.Some? && r.value.code == AuthRequired ==> r.value.message == JStr("Authentication required")
    ensures r.Some? && r.value.code == PermissionDenied ==> r.value.message == JStr("Permission denied")
    ensures r.Some? && r.value.code == ResourceNotFound ==> r.value.message == JStr("Resource not found")
    ensures r.Some? && r.value.code == RateLimited ==> r.value.message == JStr("Too many requests")
    ensures r.Some? && r.value.code == ServerError ==> r.value.message == JStr("Server error occurred")
    ensures r.Some? ==> r.value.timestamp == now && r.value.userId == userId
    ensures r.Some? ==> var d := r.value.details;
      d.JObj? && d.fields.Keys <= {"context", "status", "data"} && Get(d, "context") == context &&
      Get(d, "status") == Get(response, "status") && Get(d, "data") == Get(response, "data")
  {
    var status := Get(response, "status");
    var data := Get(response, "data");
    var details := JObj(Fields([("context", context), ("status", status), ("data", data)]));
    DetailsFields(context, status, data);
    var code := HttpCode(status);
    if code == ValidationError && Nullish(data) then None
    else
      var message :=
        match code
        case ValidationError => JsOr(Get(data.value, "message"), Some(JStr("Invalid request data"))).value
        case AuthRequired => JStr("Authentication required")
        case PermissionDenied => JStr("Permission denied")
        case ResourceNotFound => JStr("Resource not found")
        case RateLimited => JStr("Too many requests")
        case ServerError => JStr("Server error occurred")
        case _ => JStr("HTTP " + OptJsString(status) + " error");
      Some(AppError(code, message, details, now, userId))
  }

  /** The classification of `handleError`: `None` when the thrown value is
      `null` or `undefined` (reading `.response` throws) or `HttpError`
      throws. */
  function Classify(t: Thrown, context: Option<Json>, now: int, userId: Option<Json>): (r: Option<AppError>)
    ensures Nullish(t.value) ==> r.None?
    ensures !Nullish(t.value) && OptJsTruthy(Get(t.value.value, "response")) ==>
              r == HttpError(Get(t.value.value, "response").value, context, now, userId)
    ensures !Nullish(t.value) && !OptJsTruthy(Get(t.value.value, "response")) ==>
              r.Some? && r.value.timestamp == now && r.value.userId == userId
    ensures !Nullish(t.value) && !OptJsTruthy(Get(t.value.value, "response")) && OptJsTruthy(Get(t.value.value, "request")) ==>
              r.value.code == NetworkError && r.value.message == JStr("Network error occurred") &&
              r.value.details.JObj? && r.value.details.fields.Keys <= {"context", "originalError"} &&
              Get(r.value.details, "context") == context &&
              Get(r.value.details, "originalError") == Get(t.value.value, "message")
    ensures !Nullish(t.value) && !OptJsTruthy(Get(t.value.value, "response")) && !OptJsTruthy(Get(t.value.value, "request")) ==>
              r.value.code == UnknownError
    ensures !Nullish(t.value) && !OptJsTruthy(Get(t.value.value, "response")) && !OptJsTruthy(Get(t.value.value, "request")) ==>
              r.value.message == (if t.isErrorInstance then Get(t.value.value, "message").GetOr(JStr(""))
                                  else JStr("An unknown error occurred")) &&
              r.value.details.JObj? && Get(r.value.details, "context") == context
    ensures !Nullish(t.value) && !OptJsTruthy(Get(t.value.value, "response")) && !OptJsTruthy(Get(t.value.value, "request")) &&
            t.isErrorInstance ==>
              r.value.details.fields.Keys <= {"context", "stack"} && Get(r.value.details, "stack") == Get(t.value.value, "stack")
    ensures !Nullish(t.value) && !OptJsTruthy(Get(t.value.value, "response")) && !OptJsTruthy(Get(t.value.value, "request")) &&
            !t.isErrorInstance ==>
              r.value.details.fields.Keys <= {"context", "error"} && Get(r.value.details, "error") == t.value
  {
    if Nullish(t.value) then None
    else
      var v := t.value.value;
      if OptJsTruthy(Get(v, "response")) then HttpError(Get(v, "response").value, context, now, userId)
      else if OptJsTruthy(Get(v, "request")) then
        TwoFields("context", context, "originalError", Get(v, "message"));
        Some(AppError(NetworkError, JStr("Network error occurred"),
                      JObj(Fields([("context", context), ("originalError", Get(v, "message"))])), now, userId))
      else if t.isErrorInstance then
        TwoFields("context", context, "stack", Get(v, "stack"));
        Some(AppError(UnknownError, Get(v, "message").GetOr(JStr("")),
                      JObj(Fields([("context", context), ("stack", Get(v, "stack"))])), now, userId))
      else
        TwoFields("context", context, "error", Some(v));
        Some(AppError(UnknownError, JStr("An unknown error occurred"),
                      JObj(Fields([("context", context), ("error", Some(v))])), now, userId))
  }

  /** `getUserMessage`: the Russian text shown for a code; a validation error
      shows its `details.message` when that is truthy. */
  function UserMessage(e: AppError): (r: Json)
    ensures e.code != ValidationError ==> r.JStr?
    ensures e.code == AuthRequired || e.code == AuthExpired ==> r == JStr("Необходимо войти в систему заново.")
    ensures e.code == ValidationError && OptJsTruthy(Get(e.details, "message")) ==> r == Get(e.details, "message").value
    ensures e.code == ValidationError && !OptJsTruthy(Get(e.details, "message")) ==>
              r == JStr("Проверьте правильность введённых данных.")
  {
    match e.code
    case NetworkError => JStr("Проблема с подключением к интернету. Проверьте соединение и попробуйте снова.")
    case AuthRequired => JStr("Необходимо войти в систему заново.")
    case AuthExpired => JStr("Необходимо войти в систему заново.")
    case PermissionDenied => JStr("У вас нет прав для выполнения этого действия.")
    case ResourceNotFound => JStr("Запрашиваемый ресурс не найден.")
    case RateLimited => JStr("Слишком много запросов. Подождите немного и попробуйте снова.")
    case ServerError => JStr("Проблема на сервере. Мы уже работаем над её решением.")
    case ValidationError => JsOr(Get(e.details, "message"), Some(JStr("Проверьте правильность введённых данных."))).value
    case _ => JStr("Произошла неожиданная ошибка. Попробуйте обновить страницу.")
  }

  /** An HTTP error never carries `details.message` (its details hold
      `context`, `status` and `data`), so a 400 response always shows the
      generic validation text, whatever message the server sent. */
  lemma HttpValidationShowsGenericText(response: Json, context: Option<Json>, now: int, userId: Option<Json>)
    requires HttpError(response, context, now, userId).Some?
    requires HttpError(response, context, now, userId).value.code == ValidationError
    ensures UserMessage(HttpError(response, context, now, userId).value) == JStr("Проверьте правильность введённых данных.")
  {
    var details := Fields([("context", context), ("status", Get(response, "status")), ("data", Get(response, "data"))]);
    assert "message" !in details;
  }

  /** The authentication codes end the session. */
  predicate ShouldLogout(e: AppError)
    ensures ShouldLogout(e) <==> e.code == AuthRequired || e.code == AuthExpired || e.code == AuthInvalid
    ensures ShouldLogout(e) ==> !CanRetry(e)
  {
    e.code in {AuthRequired, AuthExpired, AuthInvalid}
  }

  /** The transient codes may be retried. */
  predicate CanRetry(e: AppError)
    ensures CanRetry(e) <==> e.code == NetworkError || e.code == TimeoutError || e.code == ServerError
  {
    e.code in {NetworkError, TimeoutError, ServerError}
  }

  /** The decisions on an HTTP error: only 401 logs the user out, and only
      500, 502, 503 and 504 are retried. */
  lemma HttpDecisions(response: Json, context: Option<Json>, now: int, userId: Option<Json>)
    requires HttpError(response, context, now, userId).Some?
    ensures var e := HttpError(response, context, now, userId).value;
            var status := Get(response, "status");
            (ShouldLogout(e) <==> IsStatus(status, 401)) &&
            (CanRetry(e) <==> IsStatus(status, 500) || IsStatus(status, 502) || IsStatus(status, 503) || IsStatus(status, 504))
  {
  }

  /** A request that got no response is always retried and never logs out. */
  lemma NetworkErrorsRetry(t: Thrown, context: Option<Json>, now: int, userId: Option<Json>)
    requires !Nullish(t.value)
    requires !OptJsTruthy(Get(t.value.value, "response")) && OptJsTruthy(Get(t.value.value, "request"))
    ensures var e := Classify(t, context, now, userId).value;
            CanRetry(e) && !ShouldLogout(e)
  {
  }

  /** The logger call of `logError`: full details in development builds,
      only the message otherwise. */
  function LogText(e: AppError, development: bool): (r: (string, Option<Json>))
    ensures development ==>
      r.1 == Some(e.details) && |r.0| >= |e.code.Name()| + 3 &&
      r.0[..|e.code.Name()| + 3] == "[" + e.code.Name() + "] " && r.0[|e.code.Name()| + 3..] == JsString(e.message)
    ensures !development ==>
      r.0 == "Error: " + e.code.Name() && r.1.Some? && r.1.value.JObj? && r.1.value.fields.Keys == {"message"}
  {
    if development then ("[" + e.code.Name() + "] " + JsString(e.message), Some(e.details))
    else ("Error: " + e.code.Name(), Some(Obj1("message", e.message)))
  }

  /** A push onto a queue capped at `cap` keeps the bound, ends with the new
      entry and drops only the oldest. */
  lemma QueueKeepsNewest<T>(q: seq<T>, e: T, cap: nat)
    requires 0 < cap && |q| <= cap
    ensures var r := TakeLast(q + [e], cap);
            |r| <= cap && r[|r| - 1] == e &&
            (|q| < cap ==> r == q + [e]) &&
            (|q| == cap ==> r == q[1..] + [e])
  {
    var l := q + [e];
    if |q| == cap {
      assert l[|l| - cap..] == q[1..] + [e];
    }
  }

  class ErrorHandler {
    var errorQueue: seq<AppError>

    constructor ()
      ensures errorQueue == []
    {
      errorQueue := [];
    }

    ghost predicate Valid()
      reads this
    {
      |errorQueue| <= MaxErrors
    }

    /** `addToQueue`: push, then keep the newest 100. */
    method AddToQueue(e: AppError)
      requires Valid()
      modifies this
      ensures Valid()
      ensures errorQueue == TakeLast(old(errorQueue) + [e], MaxErrors)
    {
      errorQueue := errorQueue + [e];
      if |errorQueue| > MaxErrors {
        errorQueue := SliceFrom(errorQueue, -(MaxErrors as int));
      }
    }

    /** `handleError`: classify, log, queue, return.  `None` is the
        `TypeError` thrown for a `null` or `undefined` value, before anything
        is logged or queued. */
    method HandleError(t: Thrown, context: Option<Json>, now: int, userId: Option<Json>, log: Logger)
      returns (r: Option<AppError>)
      requires Valid() && log.Valid()
      modifies this, log
      ensures Valid() && log.Valid()
      ensures r == Classify(t, context, now, userId)
      ensures r.None? ==> errorQueue == old(errorQueue) && log.logs == old(log.logs)
      ensures r.Some? ==> errorQueue == TakeLast(old(errorQueue) + [r.value], MaxErrors)
      ensures r.Some? ==>
        var (message, data) := LogText(r.value, log.development);
        log.logs == Capped(old(log.logs) + [LogEntry(Error, message, Some(ErrorData(data)), now)])
    {
      r := Classify(t, context, now, userId);
      if r.None? {
        return;
      }
      var (message, data) := LogText(r.value, log.development);
      log.LogError(message, data, now);
      AddToQueue(r.value);
    }

    /** `getRecentErrors(limit = 10)` is `slice(-limit)`: the last `limit` entries;
        a limit of 0 gives the whole queue. */
    function RecentErrors(limit: int := 10): (r: seq<AppError>)
      reads this
      ensures limit > 0 ==> r == TakeLast(errorQueue, limit)
      ensures limit == 0 ==> r == errorQueue
      ensures limit < 0 ==> r == errorQueue[if -limit <= |errorQueue| then -limit else |errorQueue|..]
    {
      SliceFrom(errorQueue, -limit)
    }

    method ClearErrors()
      modifies this
      ensures errorQueue == []
    {
      errorQueue := [];
    }
  }

  /** How the operation passed to `handleAsync` settled. */
  datatype Settled<T> = Resolved(value: T) | Rejected(thrown: Thrown)

  /** What `handleAsync` resolves to: `{data}` or `{error}`; `Rejects` is the
      rejection passed on when `handleError` itself throws. */
  datatype AsyncResult<T> = WithData(data: T) | WithError(error: AppError) | Rejects

  /** `handleAsync`: the data on success, otherwise the handled error, never
      both. */
  method HandleAsync<T>(handler: ErrorHandler, log: Logger, outcome: Settled<T>, context: Option<Json>, now: int,
                        userId: Option<Json>)
    returns (r: AsyncResult<T>)
    requires handler.Valid() && log.Valid()
    modifies handler, log
    ensures handler.Valid() && log.Valid()
    ensures outcome.Resolved? ==> r == WithData(outcome.value)
    ensures outcome.Resolved? ==> handler.errorQueue == old(handler.errorQueue) && log.logs == old(log.logs)
    ensures outcome.Rejected? ==>
      var c := Classify(outcome.thrown, context, now, userId);
      (c.Some? ==> r == WithError(c.value) && handler.errorQueue == TakeLast(old(handler.errorQueue) + [c.value], MaxErrors)) &&
      (c.None? ==> r == Rejects)
  {
    if outcome.Resolved? {
      return WithData(outcome.value);
    }
    var e := handler.HandleError(outcome.thrown, context, now, userId, log);
    if e.Some? {
      r := WithError(e.value);
    } else {
      r := Rejects;
    }
  }
}
