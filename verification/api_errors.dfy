/**
 * `handleApiError` of lib/api/handleApiError.ts: the classification of an
 * `ApiClientError` into an error kind, a user-facing message, a way of
 * showing it and whether the action may be retried.
 */
module ApiErrors {
  import opened Js
  import opened Wrappers
  import opened ApiClient

  datatype ErrorType = AuthError | NetworkError | ServerError | InputError
  datatype UiType = Toast | Inline | AlertBox

  /**
   * `ErrorHandlingResult`; `R` is the type of the retry callback, which the
   * classifier only passes along.
   */
  datatype ErrorHandling<R> = ErrorHandling(errorType: ErrorType, userMessage: string, uiType: UiType, canRetry: bool, retryAction: Option<R>)

  const SessionExpiredMessage := "세션이 만료되었습니다. 다시 로그인해주세요."
  const CheckNetworkMessage := "네트워크 연결을 확인해주세요."
  const OfflineMessage := "인터넷 연결이 없습니다. 네트워크를 확인해주세요."
  const ServerErrorMessage := "서버 오류가 발생했습니다. 잠시 후 다시 시도해주세요."
  const BadGatewayMessage := "서비스를 일시적으로 사용할 수 없습니다."
  const UnavailableMessage := "서비스가 일시적으로 중단되었습니다. 잠시 후 다시 시도해주세요."
  const GatewayTimeoutMessage := "요청 시간이 초과되었습니다. 다시 시도해주세요."
  const CannotProcessMessage := "요청을 처리할 수 없습니다."
  const InvalidInputMessage := "입력한 내용에 오류가 있습니다."
  const BadRequestMessage := "잘못된 요청입니다. 입력 내용을 확인해주세요."
  const ForbiddenMessage := "권한이 없습니다."
  const NotFoundMessage := "요청한 리소스를 찾을 수 없습니다."
  const UnknownErrorMessage := "알 수 없는 오류가 발생했습니다."

  /** The message of a 5xx error: three statuses have their own, the rest share one. */
  function ServerMessage(status: int): string {
    if status == 502 then BadGatewayMessage
    else if status == 503 then UnavailableMessage
    else if status == 504 then GatewayTimeoutMessage
    else ServerErrorMessage
  }

  /**
   * The message the body of a 4xx reply suggests: when `data` is an object
   * with an object-typed truthy `fieldErrors`, the generic invalid-input
   * message; otherwise its non-empty string `message`; otherwise a default.
   */
  function BodyMessage(data: JsValue): string {
    if Truthy(data) && IsObjectType(data) then
      var fieldErrors := Get(data, "fieldErrors");
      var message := Get(data, "message");
      if Truthy(fieldErrors) && IsObjectType(fieldErrors) then InvalidInputMessage
      else if Truthy(message) && message.Str? then message.s
      else CannotProcessMessage
    else CannotProcessMessage
  }

  /** The message of a 4xx error: four statuses override whatever the body said. */
  function InputMessage(status: int, data: JsValue): string {
    if status == 400 then BadRequestMessage
    else if status == 403 then ForbiddenMessage
    else if status == 404 then NotFoundMessage
    else if status == 422 then InvalidInputMessage
    else BodyMessage(data)
  }

  /**
   * `handleApiError(error, retryAction)`; `online` is `navigator.onLine`
   * (false when there is no navigator).
   */
  function HandleApiError<R>(error: ApiClientError, retryAction: Option<R>, online: bool): (r: ErrorHandling<R>)
    ensures r.errorType == AuthError <==> error.status == 401
    ensures r.errorType == NetworkError <==> error.status == 0
    ensures r.errorType == InputError <==> 400 <= error.status < 500 && error.status != 401
    ensures r.errorType == ServerError <==> error.status >= 500 || (error.status < 400 && error.status != 0)
    ensures r.canRetry <==> error.status == 0 || error.status >= 500
    ensures r.retryAction == if r.canRetry then retryAction else None
    ensures r.uiType == (if r.errorType == InputError then Inline else Toast)
    ensures error.status == 401 ==> r.userMessage == SessionExpiredMessage
    ensures error.status == 0 ==> r.userMessage == (if online then CheckNetworkMessage else OfflineMessage)
    ensures error.status >= 500 ==> r.userMessage == ServerMessage(error.status)
    ensures r.errorType == InputError ==> r.userMessage == InputMessage(error.status, error.data)
    ensures (error.status < 0 || 0 < error.status < 400) ==> r.userMessage == (if error.message != "" then error.message else UnknownErrorMessage)
  {
    var status := error.status;
    if status == 401 then
      ErrorHandling(AuthError, SessionExpiredMessage, Toast, false, None)
    else if status == 0 then
      ErrorHandling(NetworkError, if online then CheckNetworkMessage else OfflineMessage, Toast, true, retryAction)
    else if status >= 500 then
      ErrorHandling(ServerError, ServerMessage(status), Toast, true, retryAction)
    else if status >= 400 then
      ErrorHandling(InputError, InputMessage(status, error.data), Inline, false, None)
    else
      ErrorHandling(ServerError, if error.message != "" then error.message else UnknownErrorMessage, Toast, false, None)
  }

  /**
   * For a 4xx status without its own message, a server-supplied string
   * `message` reaches the user unchanged unless the body also carries
   * object-typed field errors.
   */
  lemma ServerMessageShownForInputErrors<R>(error: ApiClientError, retryAction: Option<R>, online: bool, msg: string)
    requires 400 <= error.status < 500
    requires error.status !in {400, 401, 403, 404, 422}
    requires msg != ""
    requires error.data.Obj? && "message" in error.data.props && error.data.props["message"] == Str(msg)
    ensures var fieldErrors := Get(error.data, "fieldErrors");
      HandleApiError(error, retryAction, online).userMessage ==
        if Truthy(fieldErrors) && IsObjectType(fieldErrors) then InvalidInputMessage else msg
  {
  }

  /** A failure `apiFetch` raises on its own (no reply, unreadable body, failing handler) is always offered a retry. */
  lemma WrappedFailuresAreRetryable<R>(t: Thrown, retryAction: Option<R>, online: bool)
    requires !t.ThrownClientError?
    ensures var r := HandleApiError(WrapThrown(t), retryAction, online);
      r.errorType == NetworkError && r.canRetry && r.retryAction == retryAction
  {
  }
}
