/**
 * The two sign-up pages. app/auth/signup/page.tsx checks four fields at once
 * and posts a `FormData` body to `/users/signup`; app/signup/page.tsx only
 * compares the two passwords and posts JSON to `/auth/signup`. Both read a
 * failure the same way.
 */
module Signup {
  import opened Js
  import opened Text
  import opened Wrappers
  import opened EmailFormat
  import opened ApiClient
  import opened ApiErrors
  import opened Session

  const EmailErrorMessage := "유효한 이메일 주소를 입력해주세요."
  const PasswordErrorMessage := "비밀번호는 최소 8자 이상이어야 합니다."
  const NicknameErrorMessage := "닉네임을 입력해주세요."
  const ConfirmErrorMessage := "비밀번호가 일치하지 않습니다."
  const SignupFailedMessage := "회원가입에 실패했습니다."

  /** Appended to the message of a failure that may be retried. */
  const RetrySuffix := " (재시도 가능)"

  /** The shortest accepted password. */
  const MinPasswordLength := 8

  /** The email is empty or does not match the page's pattern as written. */
  predicate EmailRejected(email: string) {
    email == "" || !SignupPatternMatches(email)
  }

  /** The password is empty or shorter than the minimum. */
  predicate PasswordRejected(password: string) {
    password == "" || |password| < MinPasswordLength
  }

  /** The confirmation is empty or differs from the password. */
  predicate ConfirmRejected(password: string, confirm: string) {
    confirm == "" || password != confirm
  }

  /**
   * The field-error map of `handleSubmit`: every check is made, and each
   * failing one contributes its own key and message.
   */
  function FieldErrors(email: string, password: string, nickname: string, confirm: string): (errs: map<string, string>)
    ensures ("email" in errs <==> EmailRejected(email)) && ("email" in errs ==> errs["email"] == EmailErrorMessage)
    ensures ("password" in errs <==> PasswordRejected(password)) && ("password" in errs ==> errs["password"] == PasswordErrorMessage)
    ensures ("nickname" in errs <==> IsBlank(nickname)) && ("nickname" in errs ==> errs["nickname"] == NicknameErrorMessage)
    ensures ("confirmPassword" in errs <==> ConfirmRejected(password, confirm)) &&
      ("confirmPassword" in errs ==> errs["confirmPassword"] == ConfirmErrorMessage)
    ensures errs.Keys <= {"email", "password", "nickname", "confirmPassword"}
  {
    TrimEmptyIffBlank(nickname);
    var e := AddError(map[], EmailRejected(email), "email", EmailErrorMessage);
    var p := AddError(e, PasswordRejected(password), "password", PasswordErrorMessage);
    var n := AddError(p, Trim(nickname) == [], "nickname", NicknameErrorMessage);
    AddError(n, ConfirmRejected(password, confirm), "confirmPassword", ConfirmErrorMessage)
  }

  /** `fieldErrors[key] = message` when the check failed: that key is set, every other entry stays. */
  function AddError(errs: map<string, string>, failed: bool, key: string, message: string): (r: map<string, string>)
    ensures key in r <==> failed || key in errs
    ensures failed ==> r[key] == message
    ensures !failed ==> r == errs
    ensures r.Keys == errs.Keys + (if failed then {key} else {})
    ensures forall k | k in errs && k != key :: k in r && r[k] == errs[k]
  {
    if failed then errs[key := message] else errs
  }

  /** No address without a backslash gets past the page's pattern, so every ordinary address is refused. */
  lemma AddressWithoutBackslashRefused(email: string, password: string, nickname: string, confirm: string)
    requires '\\' !in email
    ensures "email" in FieldErrors(email, password, nickname, confirm)
  {
    SignupNeedsBackslash(email);
  }

  /** The inputs of the full sign-up form. */
  datatype Field = EmailField | NicknameField | PasswordField | ConfirmField

  function FieldKey(f: Field): string {
    match f
    case EmailField => "email"
    case NicknameField => "nickname"
    case PasswordField => "password"
    case ConfirmField => "confirmPassword"
  }

  /**
   * The state of the full form. `fieldErrors` is a JavaScript value because
   * a server reply may replace the map with whatever it sent.
   */
  datatype SignupForm = SignupForm(
    email: string,
    nickname: string,
    password: string,
    confirmPassword: string,
    hasImage: bool,
    isLoading: bool,
    error: Option<string>,
    fieldErrors: JsValue)

  /** The fields a submitted `FormData` carries; the nickname goes out as typed, untrimmed. */
  datatype SignupFields = SignupFields(email: string, password: string, nickname: string, withImage: bool)

  /** A request of the full form: what `fetch` receives and the `FormData` fields behind it. */
  datatype SignupRequest = SignupRequest(request: FetchRequest, fields: SignupFields)

  /** The object of string messages a failed local check stores. */
  function ErrorsObject(errs: map<string, string>): (v: JsValue)
    ensures v.Obj? && v.props.Keys == errs.Keys
    ensures forall k | k in errs :: v.props[k] == Str(errs[k])
  {
    Obj(map k | k in errs :: Str(errs[k]))
  }

  /**
   * A submit of the full form: with any field error, the error map is shown
   * and nothing is sent; otherwise a `FormData` `POST` to `/users/signup`
   * starts.
   */
  function Submit(s: SignupForm, baseUrl: string): (r: (SignupForm, Option<SignupRequest>))
    ensures r.1.None? <==> |FieldErrors(s.email, s.password, s.nickname, s.confirmPassword)| > 0
    ensures r.1.None? ==> r.0 == s.(error := None, fieldErrors := ErrorsObject(FieldErrors(s.email, s.password, s.nickname, s.confirmPassword)))
    ensures r.1.Some? ==>
      && r.0 == s.(error := None, fieldErrors := Obj(map[]), isLoading := true)
      && r.1.value.fields == SignupFields(s.email, s.password, s.nickname, s.hasImage)
      && r.1.value.request.url == RequestUrl(baseUrl, "/users/signup")
      && r.1.value.request.httpMethod == Some("POST") && r.1.value.request.body == FormDataBody
      && ContentType !in r.1.value.request.headers
  {
    var errs := FieldErrors(s.email, s.password, s.nickname, s.confirmPassword);
    if |errs| > 0 then (s.(error := None, fieldErrors := ErrorsObject(errs)), None)
    else
      var config := RequestConfig(Some("POST"), FormDataBody, map[], None, false);
      (s.(error := None, fieldErrors := Obj(map[]), isLoading := true),
       Some(SignupRequest(BuildRequest(baseUrl, "/users/signup", config), SignupFields(s.email, s.password, s.nickname, s.hasImage))))
  }

  /** A form that sends has a valid-looking email, a long enough password and a confirmation equal to it. */
  lemma SentFormPassedEveryCheck(s: SignupForm, baseUrl: string)
    requires Submit(s, baseUrl).1.Some?
    ensures SignupPatternMatches(s.email) && |s.password| >= MinPasswordLength
    ensures s.confirmPassword == s.password && !IsBlank(s.nickname)
  {
    var errs := FieldErrors(s.email, s.password, s.nickname, s.confirmPassword);
    assert "email" !in errs && "password" !in errs && "nickname" !in errs && "confirmPassword" !in errs;
  }

  /**
   * Typing into a field: the value changes and, when that field's error is
   * truthy, only its key is deleted from the error map.
   */
  function Edit(s: SignupForm, f: Field, value: string): (r: SignupForm)
    ensures r.isLoading == s.isLoading && r.error == s.error && r.hasImage == s.hasImage
    ensures !Truthy(Get(r.fieldErrors, FieldKey(f)))
    ensures forall k | k != FieldKey(f) :: Get(r.fieldErrors, k) == Get(s.fieldErrors, k)
    ensures r.email == (if f == EmailField then value else s.email)
    ensures r.nickname == (if f == NicknameField then value else s.nickname)
    ensures r.password == (if f == PasswordField then value else s.password)
    ensures r.confirmPassword == (if f == ConfirmField then value else s.confirmPassword)
  {
    var key := FieldKey(f);
    var typed := match f
      case EmailField => s.(email := value)
      case NicknameField => s.(nickname := value)
      case PasswordField => s.(password := value)
      case ConfirmField => s.(confirmPassword := value);
    if Truthy(Get(s.fieldErrors, key)) then typed.(fieldErrors := Obj(s.fieldErrors.props - {key}))
    else typed
  }

  /** Editing the same field twice leaves the same error map as editing it once. */
  lemma EditClearingIdempotent(s: SignupForm, f: Field, v1: string, v2: string)
    ensures Edit(Edit(s, f, v1), f, v2).fieldErrors == Edit(s, f, v1).fieldErrors
  {
  }

  /** How the page reacts to a failed request: where it goes, the message it shows and the field errors it keeps. */
  datatype Reaction = Reaction(redirect: Option<string>, error: Option<string>, fieldErrors: JsValue)

  /** The retry callback handed to `handleApiError`; only its presence matters here. */
  datatype RetryAction = ResendSameData

  /** The server's field errors, when its 4xx body carries an object-typed truthy `fieldErrors`. */
  predicate ServerFieldErrors(data: JsValue) {
    Truthy(data) && IsObjectType(data) && Truthy(Get(data, "fieldErrors")) && IsObjectType(Get(data, "fieldErrors"))
  }

  /**
   * The reaction to an `ApiClientError`, given the state cleared at submit:
   * 401 goes to `/login` silently; a 4xx with non-empty server field errors
   * shows only those; a retryable failure gets the retry suffix.
   */
  function ClientErrorReaction(e: ApiClientError, online: bool): (r: Reaction)
    ensures r.redirect == (if e.status == 401 then Some("/login") else None)
    ensures r.error.None? <==>
      e.status == 401 || (400 <= e.status < 500 && ServerFieldErrors(e.data) && HasOwnKeys(Get(e.data, "fieldErrors")))
    ensures 400 <= e.status < 500 && e.status != 401 && ServerFieldErrors(e.data) ==> r.fieldErrors == Get(e.data, "fieldErrors")
    ensures r.error.Some? ==> StartsWith(r.error.value, HandleApiError(e, Some(ResendSameData), online).userMessage)
    ensures (e.status == 0 || e.status >= 500) ==>
      r.error == Some(HandleApiError(e, Some(ResendSameData), online).userMessage + RetrySuffix)
    ensures (e.status < 0 || 0 < e.status < 400) ==>
      r.error == Some(HandleApiError(e, Some(ResendSameData), online).userMessage)
  {
    var info := HandleApiError(e, Some(ResendSameData), online);
    match info.errorType
    case AuthError => Reaction(Some("/login"), None, Obj(map[]))
    case InputError =>
      if ServerFieldErrors(e.data) then
        var fieldErrors := Get(e.data, "fieldErrors");
        if HasOwnKeys(fieldErrors) then Reaction(None, None, fieldErrors)
        else Reaction(None, Some(info.userMessage), fieldErrors)
      else Reaction(None, Some(info.userMessage), Obj(map[]))
    case _ =>
      Reaction(None, Some(if info.canRetry then info.userMessage + RetrySuffix else info.userMessage), Obj(map[]))
  }

  /** The reaction to anything thrown during the request: a non-`ApiClientError` shows its own message or a default. */
  function FailureReaction(thrown: Thrown, online: bool): (r: Reaction)
    ensures thrown.ThrownClientError? ==> r == ClientErrorReaction(thrown.error, online)
    ensures thrown.ThrownError? ==> r == Reaction(None, Some(thrown.message), Obj(map[]))
    ensures thrown.ThrownOther? ==> r == Reaction(None, Some(SignupFailedMessage), Obj(map[]))
  {
    match thrown
    case ThrownClientError(e) => ClientErrorReaction(e, online)
    case ThrownError(message) => Reaction(None, Some(message), Obj(map[]))
    case ThrownOther => Reaction(None, Some(SignupFailedMessage), Obj(map[]))
  }

  /** A session-expired reply sends the user to the login page with no message on either page. */
  lemma UnauthorizedRedirectsSilently(e: ApiClientError, online: bool)
    requires e.status == 401
    ensures FailureReaction(ThrownClientError(e), online) == Reaction(Some("/login"), None, Obj(map[]))
  {
  }

  /** The retry suffix appears exactly on the failures `handleApiError` marks retryable. */
  lemma SuffixMarksRetryable(e: ApiClientError, online: bool)
    requires !(400 <= e.status < 500)
    ensures var r := ClientErrorReaction(e, online);
      var info := HandleApiError(e, Some(ResendSameData), online);
      e.status != 401 ==> r.error == Some(if info.canRetry then info.userMessage + RetrySuffix else info.userMessage)
  {
  }

  /**
   * The retry callback's own failure handling: an `ApiClientError` shows the
   * plain message of `handleApiError` (no redirect, even on 401; no suffix);
   * anything else is swallowed.
   */
  function RetryFailure(thrown: Thrown, online: bool): (error: Option<string>)
    ensures error.Some? <==> thrown.ThrownClientError?
    ensures thrown.ThrownClientError? ==> error == Some(HandleApiError<RetryAction>(thrown.error, None, online).userMessage)
  {
    match thrown
    case ThrownClientError(e) => Some(HandleApiError<RetryAction>(e, None, online).userMessage)
    case _ => None
  }

  /** A session that expires during a retry shows the session-expired message instead of redirecting. */
  lemma RetryShowsSessionExpired(e: ApiClientError, online: bool)
    requires e.status == 401
    ensures RetryFailure(ThrownClientError(e), online) == Some(SessionExpiredMessage)
  {
  }

  /** How a request of either page ended: a 2xx reply body, or a thrown value. */
  datatype SignupOutcome = Succeeded(data: JsValue) | Failed(thrown: Thrown)

  /**
   * The end of a submit: a reply stores the tokens and navigates; a failure
   * applies its reaction. Loading ends either way.
   */
  function Finish(s: SignupForm, outcome: SignupOutcome, online: bool, toText: JsValue -> string): (r: (SignupForm, seq<Write>, Option<string>))
    ensures !r.0.isLoading
    ensures outcome.Succeeded? ==> r.0 == s.(isLoading := false) && r.2.Some? && (r.1, r.2.value) == SaveTokens(outcome.data, toText)
    ensures outcome.Failed? ==>
      var reaction := FailureReaction(outcome.thrown, online);
      && r.1 == [] && r.2 == reaction.redirect
      && r.0 == s.(isLoading := false, error := reaction.error, fieldErrors := reaction.fieldErrors)
  {
    match outcome
    case Succeeded(data) =>
      var (writes, target) := SaveTokens(data, toText);
      (s.(isLoading := false), writes, Some(target))
    case Failed(thrown) =>
      var reaction := FailureReaction(thrown, online);
      (s.(isLoading := false, error := reaction.error, fieldErrors := reaction.fieldErrors), [], reaction.redirect)
  }

  /**
   * app/signup/page.tsx: the only check is that the two passwords agree;
   * a matching pair is posted as JSON `{email, password}` to `/auth/signup`.
   */
  function BasicSubmit(email: string, password: string, confirm: string, baseUrl: string,
                       stringify: JsValue -> string): (r: Result<FetchRequest, string>)
    ensures r.Err? <==> password != confirm
    ensures r.Err? ==> r.error == ConfirmErrorMessage
    ensures r.Ok? ==>
      && r.value.url == RequestUrl(baseUrl, "/auth/signup") && r.value.httpMethod == Some("POST")
      && r.value.body == JsonBody(stringify(Obj(map["email" := Str(email), "password" := Str(password)])))
      && ContentType in r.value.headers && r.value.headers[ContentType] == JsonMediaType
  {
    if password != confirm then Err(ConfirmErrorMessage)
    else
      var body := JsonBody(stringify(Obj(map["email" := Str(email), "password" := Str(password)])));
      Ok(BuildRequest(baseUrl, "/auth/signup", RequestConfig(Some("POST"), body, map[], None, false)))
  }

  /**
   * The short page's submit handler accepts what the full page's handler
   * refuses: an empty email and an empty password, as long as the
   * confirmation is empty too. The handler builds the sign-up request for
   * them; the page's `required` inputs are a separate, browser-side gate.
   */
  lemma BasicHandlerAcceptsWhatFullHandlerRefuses(baseUrl: string, stringify: JsValue -> string)
    ensures BasicSubmit("", "", "", baseUrl, stringify).Ok?
    ensures "email" in FieldErrors("", "", "", "") && "password" in FieldErrors("", "", "", "")
  {
  }
}
