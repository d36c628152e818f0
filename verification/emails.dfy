/**
 * lib/api/emails.ts: the request gates of `sendEmail` and `previewEmailCard`,
 * the branching of `previewEmail`, the development mocks that keep an e-mail
 * history in local storage, and the unwrapping and normalisation of the
 * `getEmails` response.
 *
 * Request payloads are loosely typed objects (`JsObject`); e-mail records
 * keep the fields of the `Email` type, each loosely typed. Dates are integers of milliseconds:
 * `dateOf` is `new Date(v).getTime()` (`None` for an invalid date), `isoOf`
 * is `toISOString`, and `parses` says whether a string gives a valid date.
 */
module Emails {
  import opened Js
  import opened Text
  import opened Wrappers
  import opened Seqs
  import opened EmailFormat
  import opened ApiClient
  import opened RuleFallback

  /** The checks made before any request, each named by what it rejects. */
  datatype Check =
    | VillagerIdInvalid
    | ReceiverEmailMissing
    | ReceiverEmailMalformed
    | ReceiverEmailTooLong
    | OriginalTextMissing
    | SubjectNotString
    | SubjectTooLong
    | ToneTypeMissing
    | ScheduledAtMissing
    | ScheduledAtUnparseable

  /** The longest receiver address and subject the gates let through. */
  const MaxFieldLength := 255

  /** The position of each check in the order `sendEmail` makes them. */
  function SendRank(c: Check): nat {
    match c
    case VillagerIdInvalid => 0
    case ReceiverEmailMissing => 1
    case ReceiverEmailMalformed => 2
    case ReceiverEmailTooLong => 3
    case OriginalTextMissing => 4
    case SubjectNotString => 5
    case SubjectTooLong => 6
    case ToneTypeMissing => 7
    case ScheduledAtMissing => 8
    case ScheduledAtUnparseable => 9
  }

  /** `Number.isInteger(villagerId)` fails. */
  predicate BadVillagerId(p: JsObject) {
    !IsInteger(Prop(p, "villagerId"))
  }

  /** `receiverEmail` is absent, not a string, or blank. */
  predicate EmailMissing(p: JsObject) {
    !NonBlankString(Prop(p, "receiverEmail"))
  }

  /** `receiverEmail` is a string whose trimmed form is not an address. */
  predicate EmailMalformed(p: JsObject) {
    Prop(p, "receiverEmail").Str? && !IsValidEmail(Trim(Prop(p, "receiverEmail").s))
  }

  /** `receiverEmail` is a string longer than the limit once trimmed. */
  predicate EmailTooLong(p: JsObject) {
    Prop(p, "receiverEmail").Str? && |Trim(Prop(p, "receiverEmail").s)| > MaxFieldLength
  }

  /** `originalText` is absent, not a string, or blank. */
  predicate TextMissing(p: JsObject) {
    !NonBlankString(Prop(p, "originalText"))
  }

  /** `subject` is present but not a string. */
  predicate SubjectNotText(p: JsObject) {
    !Prop(p, "subject").Undefined? && !Prop(p, "subject").Str?
  }

  /** `subject` is a string longer than the limit once trimmed. */
  predicate SubjectOverLong(p: JsObject) {
    Prop(p, "subject").Str? && |Trim(Prop(p, "subject").s)| > MaxFieldLength
  }

  /** `toneType` is absent, not a string, or blank. */
  predicate ToneMissing(p: JsObject) {
    !NonBlankString(Prop(p, "toneType"))
  }

  /** `scheduledAt` is absent, not a string, or blank. */
  predicate ScheduleMissing(p: JsObject) {
    !NonBlankString(Prop(p, "scheduledAt"))
  }

  /** `scheduledAt` is a string that is not a valid date. */
  predicate ScheduleUnparseable(p: JsObject, parses: string -> bool) {
    Prop(p, "scheduledAt").Str? && !parses(Prop(p, "scheduledAt").s)
  }

  /** Whether payload `p` fails check `c` of `sendEmail`, judged on its own. */
  predicate SendViolates(p: JsObject, parses: string -> bool, c: Check) {
    match c
    case VillagerIdInvalid => BadVillagerId(p)
    case ReceiverEmailMissing => EmailMissing(p)
    case ReceiverEmailMalformed => EmailMalformed(p)
    case ReceiverEmailTooLong => EmailTooLong(p)
    case OriginalTextMissing => TextMissing(p)
    case SubjectNotString => SubjectNotText(p)
    case SubjectTooLong => SubjectOverLong(p)
    case ToneTypeMissing => ToneMissing(p)
    case ScheduledAtMissing => ScheduleMissing(p)
    case ScheduledAtUnparseable => ScheduleUnparseable(p, parses)
  }

  /** The payload passes every check of `sendEmail` ranked before `n`. */
  predicate SendPassedBefore(p: JsObject, parses: string -> bool, n: nat) {
    && (n > 0 ==> !BadVillagerId(p))
    && (n > 1 ==> !EmailMissing(p))
    && (n > 2 ==> !EmailMalformed(p))
    && (n > 3 ==> !EmailTooLong(p))
    && (n > 4 ==> !TextMissing(p))
    && (n > 5 ==> !SubjectNotText(p))
    && (n > 6 ==> !SubjectOverLong(p))
    && (n > 7 ==> !ToneMissing(p))
    && (n > 8 ==> !ScheduleMissing(p))
    && (n > 9 ==> !ScheduleUnparseable(p, parses))
  }

  /** `payload.subject ? payload.subject.trim() : ""` for a subject that is a string or absent. */
  function TrimmedSubject(subject: JsValue): string {
    if subject.Str? then Trim(subject.s) else ""
  }

  /** `{...payload, receiverEmail: email, subject}`: the payload with two fields replaced and the rest unchanged. */
  function TrimmedPayload(p: JsObject, email: string, subject: string): (q: JsObject)
    ensures q.Keys == p.Keys + {"receiverEmail", "subject"}
    ensures forall k | k in p && k != "receiverEmail" && k != "subject" :: q[k] == p[k]
    ensures Prop(q, "receiverEmail") == Str(email) && Prop(q, "subject") == Str(subject)
  {
    p["receiverEmail" := Str(email)]["subject" := Str(subject)]
  }

  /**
   * The checks of `sendEmail`, in order; the first that fails rejects the
   * payload. A passing payload comes back with `receiverEmail` and `subject`
   * replaced by their trimmed forms.
   */
  function CheckSendPayload(p: JsObject, parses: string -> bool): (r: Result<JsObject, Check>)
    ensures r.Err? ==> SendViolates(p, parses, r.error)
    ensures r.Err? ==> SendPassedBefore(p, parses, SendRank(r.error))
    ensures r.Ok? <==> SendPassedBefore(p, parses, 10)
    ensures r.Ok? ==> Prop(p, "receiverEmail").Str? && r.value == TrimmedPayload(p, Trim(Prop(p, "receiverEmail").s), TrimmedSubject(Prop(p, "subject")))
  {
    if BadVillagerId(p) then Err(VillagerIdInvalid)
    else if EmailMissing(p) then Err(ReceiverEmailMissing)
    else if EmailMalformed(p) then Err(ReceiverEmailMalformed)
    else if EmailTooLong(p) then Err(ReceiverEmailTooLong)
    else if TextMissing(p) then Err(OriginalTextMissing)
    else if SubjectNotText(p) then Err(SubjectNotString)
    else if SubjectOverLong(p) then Err(SubjectTooLong)
    else if ToneMissing(p) then Err(ToneTypeMissing)
    else if ScheduleMissing(p) then Err(ScheduledAtMissing)
    else if ScheduleUnparseable(p, parses) then Err(ScheduledAtUnparseable)
    else
      Ok(TrimmedPayload(p, Trim(Prop(p, "receiverEmail").s), TrimmedSubject(Prop(p, "subject"))))
  }

  /**
   * An `Email` record as the history in local storage and the server's list
   * hold it. Every field is loosely typed, since stored and received data is
   * not checked; absent fields are `Undefined`.
   */
  datatype Email = Email(
    id: JsValue,
    villagerId: JsValue,
    villagerName: JsValue,
    subject: JsValue,
    originalText: JsValue,
    transformedText: JsValue,
    content: JsValue,
    previewContent: JsValue,
    status: JsValue,
    createdAt: JsValue,
    sentAt: JsValue,
    deletedAt: JsValue,
    scheduledAt: JsValue)

  /** The `Email` fields of a parsed value; a value that is not an object has none. */
  function EmailOf(v: JsValue): Email {
    Email(Get(v, "id"), Get(v, "villagerId"), Get(v, "villagerName"), Get(v, "subject"),
          Get(v, "originalText"), Get(v, "transformedText"), Get(v, "content"), Get(v, "previewContent"),
          Get(v, "status"), Get(v, "createdAt"), Get(v, "sentAt"), Get(v, "deletedAt"), Get(v, "scheduledAt"))
  }

  /** The names the development mock gives its six known villagers. */
  function MockVillagerName(id: int): string {
    if id == 1 then "톰"
    else if id == 2 then "이사벨"
    else if id == 3 then "마샬"
    else if id == 4 then "레이몬드"
    else if id == 5 then "쥬디"
    else if id == 6 then "셰리"
    else "주민 " + IntToDecimal(id)
  }

  /** An `Email` as the plain object it is stored as; every field reads back unchanged. */
  function EmailValue(e: Email): (v: JsValue)
    ensures v.Obj? && EmailOf(v) == e
  {
    Obj(map["id" := e.id, "villagerId" := e.villagerId, "villagerName" := e.villagerName, "subject" := e.subject,
            "originalText" := e.originalText, "transformedText" := e.transformedText, "content" := e.content,
            "previewContent" := e.previewContent, "status" := e.status, "createdAt" := e.createdAt,
            "sentAt" := e.sentAt, "deletedAt" := e.deletedAt, "scheduledAt" := e.scheduledAt])
  }

  /** Why the development mock of `sendEmail` throws before it stores anything. */
  datatype HistoryFault =
    | HistoryUnparseable  // `JSON.parse` throws on the stored text
    | HistoryNotArray     // the parsed value has no `unshift`

  /**
   * The list `mockSendEmail` puts the new e-mail in front of: empty when
   * nothing (or the empty string) is stored under `sentEmails`, else the
   * parsed stored text, whose elements are kept as they are. `parse` is
   * `JSON.parse` (`None` when it throws).
   */
  function PriorHistory(saved: Option<string>, parse: string -> Option<JsValue>): (r: Result<seq<JsValue>, HistoryFault>)
    ensures saved.None? || saved.value == "" ==> r == Ok([])
    ensures saved.Some? && saved.value != "" ==>
      && (r == Err(HistoryUnparseable) <==> parse(saved.value).None?)
      && (r == Err(HistoryNotArray) <==> parse(saved.value).Some? && !parse(saved.value).value.Arr?)
      && (r.Ok? ==> parse(saved.value) == Some(Arr(r.value)))
  {
    if saved.None? || saved.value == "" then Ok([])
    else match parse(saved.value)
      case None => Err(HistoryUnparseable)
      case Some(v) => if v.Arr? then Ok(v.items) else Err(HistoryNotArray)
  }

  /** What the development mock of `sendEmail` leaves behind: the stored history and its reply. */
  datatype MockSend = MockSend(stored: seq<JsValue>, transformedText: string)

  /**
   * `mockSendEmail(payload)` with the text `saved` under `sentEmails` and the
   * clock reading `nowMs` (whose ISO form is `nowIso`): the new e-mail is put
   * in front of the history, with the rule fallback as its transformed text.
   * The reply carries that text and no image. A stored text that does not
   * parse, or parses to something other than an array, makes the mock throw.
   */
  function MockSendEmail(p: JsObject, saved: Option<string>, parse: string -> Option<JsValue>, nowMs: int, nowIso: string): (r: Result<MockSend, HistoryFault>)
    requires Prop(p, "originalText").Str? && IsInteger(Prop(p, "villagerId"))
    ensures r.Err? <==> PriorHistory(saved, parse).Err?
    ensures r.Err? ==> r.error == PriorHistory(saved, parse).error
    ensures r.Ok? ==> |r.value.stored| == |PriorHistory(saved, parse).value| + 1 && r.value.stored[1..] == PriorHistory(saved, parse).value
    ensures r.Ok? ==> r.value.stored[0].Obj? && var e := EmailOf(r.value.stored[0]);
      && e.originalText == Prop(p, "originalText") == e.content
      && e.transformedText == Str(r.value.transformedText) == e.previewContent
      && r.value.transformedText == ApplyRuleFallback(Prop(p, "originalText").s)
      && e.villagerId == Prop(p, "villagerId")
      && e.subject == Or(Prop(p, "subject"), Str(""))
      && e.scheduledAt == Prop(p, "scheduledAt")
      && (e.status == Str("draft") <==> Truthy(Prop(p, "scheduledAt")))
      && (e.status == Str("sent") <==> !Truthy(Prop(p, "scheduledAt")))
      && e.sentAt == (if Truthy(Prop(p, "scheduledAt")) then Undefined else Str(nowIso))
      && e.createdAt == Str(nowIso)
  {
    match PriorHistory(saved, parse)
    case Err(fault) => Err(fault)
    case Ok(prior) =>
      var originalText := Prop(p, "originalText").s;
      var transformedText := ApplyRuleFallback(originalText);
      var villagerId := Prop(p, "villagerId");
      var scheduledAt := Prop(p, "scheduledAt");
      var scheduled := Truthy(scheduledAt);
      var email := Email(
        Str("email-" + IntToDecimal(nowMs)),
        villagerId,
        Str(MockVillagerName(villagerId.n.Floor)),
        Or(Prop(p, "subject"), Str("")),
        Str(originalText),
        Str(transformedText),
        Str(originalText),
        Str(transformedText),
        Str(if scheduled then "draft" else "sent"),
        Str(nowIso),
        if scheduled then Undefined else Str(nowIso),
        Undefined,
        scheduledAt);
      Ok(MockSend([EmailValue(email)] + prior, transformedText))
  }

  /** Where `sendEmail` sends a payload that passed its checks. */
  datatype SendOutcome =
    | SendRejected(check: Check)
    | SentToMock(mock: Result<MockSend, HistoryFault>)
    | SentToServer(request: FetchRequest, result: Result<JsValue, ApiClientError>)

  /** The `apiFetch` configuration of a production `POST` with a JSON body. */
  function PostConfig(body: JsObject, stringify: JsValue -> string): RequestConfig {
    RequestConfig(Some("POST"), JsonBody(stringify(Obj(body))), map[], None, false)
  }

  /**
   * `sendEmail(payload)`. In development the mock receives the ORIGINAL
   * payload, not the trimmed one, and throws on a corrupt stored history
   * (`SentToMock` with an error); in production the trimmed payload is posted
   * and the server's reply is `reply`.
   */
  function SendEmail(p: JsObject, parses: string -> bool, development: bool, saved: Option<string>, parse: string -> Option<JsValue>,
                     nowMs: int, nowIso: string,
                     baseUrl: string, stringify: JsValue -> string, reply: FetchReply): (r: SendOutcome)
    ensures r.SendRejected? <==> CheckSendPayload(p, parses).Err?
    ensures r.SendRejected? ==> r.check == CheckSendPayload(p, parses).error
    ensures r.SentToMock? <==> development && CheckSendPayload(p, parses).Ok?
    ensures r.SentToMock? ==> r.mock == MockSendEmail(p, saved, parse, nowMs, nowIso)
    ensures r.SentToServer? ==>
      && r.request == BuildRequest(baseUrl, "/emails", PostConfig(CheckSendPayload(p, parses).value, stringify))
      && r.request.body == JsonBody(stringify(Obj(CheckSendPayload(p, parses).value)))
      && (r.result.Ok? <==> reply.Responded? && IsOk(reply.status) && reply.body.Ok?)
      && (r.result.Ok? ==> r.result.value == reply.body.value)
  {
    match CheckSendPayload(p, parses)
    case Err(c) => SendRejected(c)
    case Ok(validated) =>
      if development then SentToMock(MockSendEmail(p, saved, parse, nowMs, nowIso))
      else
        var run := ApiFetch(baseUrl, "/emails", PostConfig(validated, stringify), reply, None);
        SentToServer(run.request, match run.result case Ok(resp) => Ok(resp.data) case Err(e) => Err(e))
  }

  /**
   * A payload that reaches the development mock always has a non-blank
   * `scheduledAt`, so every e-mail the mock stores is a draft with no sending
   * time, and it keeps the untrimmed subject of the original payload.
   */
  lemma MockStoresOnlyDrafts(p: JsObject, parses: string -> bool, saved: Option<string>, parse: string -> Option<JsValue>,
                             nowMs: int, nowIso: string)
    requires SendPassedBefore(p, parses, 10)
    ensures Prop(p, "originalText").Str? && IsInteger(Prop(p, "villagerId"))
    ensures MockSendEmail(p, saved, parse, nowMs, nowIso).Ok? ==>
      var e := EmailOf(MockSendEmail(p, saved, parse, nowMs, nowIso).value.stored[0]);
      e.status == Str("draft") && e.sentAt == Undefined && e.subject == Or(Prop(p, "subject"), Str(""))
  {
    PassingPayloadFields(p, parses);
    ScheduledPayloadIsDraft(p, saved, parse, nowMs, nowIso);
  }

  /** A payload that passes every check has an integer villager id and non-blank text and schedule. */
  lemma PassingPayloadFields(p: JsObject, parses: string -> bool)
    requires SendPassedBefore(p, parses, 10)
    ensures IsInteger(Prop(p, "villagerId"))
    ensures NonBlankString(Prop(p, "originalText")) && NonBlankString(Prop(p, "scheduledAt"))
  {
  }

  /** The mock stores a draft exactly for a payload with a truthy `scheduledAt`. */
  lemma ScheduledPayloadIsDraft(p: JsObject, saved: Option<string>, parse: string -> Option<JsValue>, nowMs: int, nowIso: string)
    requires Prop(p, "originalText").Str? && IsInteger(Prop(p, "villagerId"))
    requires NonBlankString(Prop(p, "scheduledAt"))
    ensures MockSendEmail(p, saved, parse, nowMs, nowIso).Ok? ==>
      var e := EmailOf(MockSendEmail(p, saved, parse, nowMs, nowIso).value.stored[0]);
      e.status == Str("draft") && e.sentAt == Undefined && e.subject == Or(Prop(p, "subject"), Str(""))
  {
  }

  /** The checks `previewEmailCard` makes, in order; the others do not apply to it. */
  function CardRank(c: Check): nat {
    match c
    case OriginalTextMissing => 0
    case ToneTypeMissing => 1
    case ReceiverEmailMissing => 2
    case ReceiverEmailMalformed => 3
    case ReceiverEmailTooLong => 4
    case _ => 5
  }

  /** Whether the arguments of `previewEmailCard` fail check `c`, judged on its own. */
  predicate CardViolates(text: string, toneType: string, receiverEmail: string, c: Check) {
    match c
    case OriginalTextMissing => IsBlank(text)
    case ToneTypeMissing => IsBlank(toneType)
    case ReceiverEmailMissing => IsBlank(receiverEmail)
    case ReceiverEmailMalformed => !IsValidEmail(Trim(receiverEmail))
    case ReceiverEmailTooLong => |Trim(receiverEmail)| > MaxFieldLength
    case _ => false
  }

  /** The arguments pass every check of `previewEmailCard` ranked before `n`. */
  predicate CardPassedBefore(text: string, toneType: string, receiverEmail: string, n: nat) {
    && (n > 0 ==> !CardViolates(text, toneType, receiverEmail, OriginalTextMissing))
    && (n > 1 ==> !CardViolates(text, toneType, receiverEmail, ToneTypeMissing))
    && (n > 2 ==> !CardViolates(text, toneType, receiverEmail, ReceiverEmailMissing))
    && (n > 3 ==> !CardViolates(text, toneType, receiverEmail, ReceiverEmailMalformed))
    && (n > 4 ==> !CardViolates(text, toneType, receiverEmail, ReceiverEmailTooLong))
  }

  /** The payload `previewEmailCard` posts: the villager id and the three trimmed strings. */
  function CardPayload(villagerId: int, text: string, toneType: string, receiverEmail: string): JsObject {
    map["villagerId" := Num(villagerId as real), "originalText" := Str(Trim(text)),
        "toneType" := Str(Trim(toneType)), "receiverEmail" := Str(Trim(receiverEmail))]
  }

  /** The checks of `previewEmailCard`, in order, and the payload a passing call sends. */
  function CheckCardRequest(villagerId: int, text: string, toneType: string, receiverEmail: string): (r: Result<JsObject, Check>)
    ensures r.Err? ==> CardRank(r.error) < 5 && CardViolates(text, toneType, receiverEmail, r.error)
    ensures r.Err? ==> CardPassedBefore(text, toneType, receiverEmail, CardRank(r.error))
    ensures r.Ok? ==> CardPassedBefore(text, toneType, receiverEmail, 5)
    ensures r.Ok? ==> r.value == CardPayload(villagerId, text, toneType, receiverEmail)
  {
    if CardViolates(text, toneType, receiverEmail, OriginalTextMissing) then Err(OriginalTextMissing)
    else if CardViolates(text, toneType, receiverEmail, ToneTypeMissing) then Err(ToneTypeMissing)
    else if CardViolates(text, toneType, receiverEmail, ReceiverEmailMissing) then Err(ReceiverEmailMissing)
    else if CardViolates(text, toneType, receiverEmail, ReceiverEmailMalformed) then Err(ReceiverEmailMalformed)
    else if CardViolates(text, toneType, receiverEmail, ReceiverEmailTooLong) then Err(ReceiverEmailTooLong)
    else Ok(CardPayload(villagerId, text, toneType, receiverEmail))
  }

  /** What `previewEmailCard` does with its arguments. */
  datatype CardOutcome =
    | CardRejected(check: Check)
    | CardFromMock(villagerId: int, text: string)
    | CardFromServer(request: FetchRequest, result: Result<JsValue, string>)

  /**
   * `previewEmailCard(villagerId, originalText, toneType, receiverEmail)`: in
   * production the checked payload is posted to `/emails/preview` and a
   * failure is re-thrown as a plain error carrying the client error's message.
   */
  function PreviewEmailCard(villagerId: int, text: string, toneType: string, receiverEmail: string, development: bool,
                            baseUrl: string, stringify: JsValue -> string, reply: FetchReply): (r: CardOutcome)
    ensures r.CardRejected? <==> CheckCardRequest(villagerId, text, toneType, receiverEmail).Err?
    ensures r.CardRejected? ==> r.check == CheckCardRequest(villagerId, text, toneType, receiverEmail).error
    ensures r.CardFromMock? ==> development && r == CardFromMock(villagerId, Trim(text))
    ensures r.CardFromServer? ==>
      && !development
      && r.request.url == RequestUrl(baseUrl, "/emails/preview")
      && r.request.body == JsonBody(stringify(Obj(CardPayload(villagerId, text, toneType, receiverEmail))))
      && (r.result.Ok? <==> reply.Responded? && IsOk(reply.status) && reply.body.Ok?)
      && (r.result.Ok? ==> r.result.value == reply.body.value)
      && (r.result.Err? ==> r.result.error == ApiFetch(baseUrl, "/emails/preview", PostConfig(CardPayload(villagerId, text, toneType, receiverEmail), stringify), reply, None).result.error.message)
  {
    match CheckCardRequest(villagerId, text, toneType, receiverEmail)
    case Err(c) => CardRejected(c)
    case Ok(payload) =>
      if development then CardFromMock(villagerId, Trim(text))
      else
        var run := ApiFetch(baseUrl, "/emails/preview", PostConfig(payload, stringify), reply, None);
        CardFromServer(run.request, match run.result case Ok(resp) => Ok(resp.data) case Err(e) => Err(e.message))
  }

  /**
   * `previewEmailCard` refuses its arguments exactly when the text or the
   * tone type is blank, or the trimmed receiver is not a valid address or is
   * longer than 255 characters.
   */
  lemma CardRequestAcceptedIff(villagerId: int, text: string, toneType: string, receiverEmail: string, development: bool,
                               baseUrl: string, stringify: JsValue -> string, reply: FetchReply)
    ensures !PreviewEmailCard(villagerId, text, toneType, receiverEmail, development, baseUrl, stringify, reply).CardRejected? <==>
      && !IsBlank(text) && !IsBlank(toneType)
      && IsValidEmail(Trim(receiverEmail)) && |Trim(receiverEmail)| <= MaxFieldLength
  {
    var c := CheckCardRequest(villagerId, text, toneType, receiverEmail);
    assert PreviewEmailCard(villagerId, text, toneType, receiverEmail, development, baseUrl, stringify, reply).CardRejected? <==> c.Err?;
    TrimEmptyIffBlank(receiverEmail);
    if IsValidEmail(Trim(receiverEmail)) {
      assert Trim(receiverEmail) != [];
    }
    assert c.Ok? <==> CardPassedBefore(text, toneType, receiverEmail, 5);
  }

  /** The reply of `previewEmail`: a preview text, or the development mock's text for the trimmed input. */
  datatype PreviewReply = PreviewContent(text: string) | MockPreview(villagerId: int, text: string)

  /** `previewEmail(villagerId, originalText, toneType)`: it never contacts the server. */
  function PreviewEmail(villagerId: int, originalText: string, toneType: string, development: bool): (r: PreviewReply)
    ensures IsBlank(originalText) ==> r == PreviewContent("")
    ensures !IsBlank(originalText) && IsBlank(toneType) ==> r == PreviewContent(Trim(originalText))
    ensures r.MockPreview? <==> development && !IsBlank(originalText) && !IsBlank(toneType)
  {
    var trimmedText := Trim(originalText);
    if trimmedText == [] then PreviewContent("")
    else if toneType == [] || IsBlank(toneType) then PreviewContent(trimmedText)
    else if development then MockPreview(villagerId, trimmedText)
    else PreviewContent(trimmedText)
  }

  /** In production, and whenever no tone type is given, the preview is exactly the trimmed input. */
  lemma PreviewIsTrimmedText(villagerId: int, originalText: string, toneType: string, development: bool)
    requires !development || IsBlank(toneType)
    ensures PreviewEmail(villagerId, originalText, toneType, development) == PreviewContent(Trim(originalText))
  {
  }

  /** `x.originalText || x.content || ""`. */
  function OriginalTextOf(e: Email): JsValue {
    Or(Or(e.originalText, e.content), Str(""))
  }

  /** `x.transformedText || x.previewContent || ""`. */
  function TransformedTextOf(e: Email): JsValue {
    Or(Or(e.transformedText, e.previewContent), Str(""))
  }

  /** The backward-compatible form the mock gives a stored e-mail: both text pairs filled in and kept equal. */
  function WithTextFields(e: Email): (r: Email)
    ensures r.originalText == r.content == OriginalTextOf(e)
    ensures r.transformedText == r.previewContent == TransformedTextOf(e)
    ensures r.(originalText := e.originalText, content := e.content, transformedText := e.transformedText, previewContent := e.previewContent) == e
  {
    var o := OriginalTextOf(e);
    var t := TransformedTextOf(e);
    e.(originalText := o, transformedText := t, content := o, previewContent := t)
  }

  /** A stored draft is due when it has a truthy `scheduledAt` that is a valid date not after `now`. */
  predicate IsDue(e: Email, now: int, dateOf: JsValue -> Option<int>) {
    e.status == Str("draft") && Truthy(e.scheduledAt) && dateOf(e.scheduledAt).Some? && dateOf(e.scheduledAt).value <= now
  }

  /** One element of the mock history as `mockGetEmails` returns it: due drafts become sent. */
  function Promote(e: Email, now: int, dateOf: JsValue -> Option<int>, isoOf: int -> string): (r: Email)
    ensures IsDue(e, now, dateOf) ==>
      r.status == Str("sent") && r.sentAt == Or(e.sentAt, Str(isoOf(dateOf(e.scheduledAt).value)))
    ensures !IsDue(e, now, dateOf) ==> r == WithTextFields(e)
    ensures r.(status := e.status, sentAt := e.sentAt) == WithTextFields(e)
  {
    var base := WithTextFields(e);
    if IsDue(e, now, dateOf) then
      base.(status := Str("sent"), sentAt := Or(e.sentAt, Str(isoOf(dateOf(e.scheduledAt).value))))
    else base
  }

  /** What `mockGetEmails` returns, and the history it writes back when some draft fell due. */
  datatype MockGet = MockGet(emails: seq<Email>, rewritten: Option<seq<Email>>)

  /** `email.status === status`. */
  predicate HasStatus(e: Email, status: string) {
    e.status == Str(status)
  }

  /** `if (status)`: a status filter was given and is not empty. */
  predicate FilterGiven(status: Option<string>) {
    status.Some? && status.value != ""
  }

  /**
   * The stored history as the mock reads it (`None` when nothing is stored,
   * the text does not parse, it is not an array, or an element is `null` or
   * `undefined`: each of these makes the code throw or skip, and the mock then
   * answers with an empty list).
   */
  function DecodeHistory(parsed: Option<JsValue>): (r: Option<seq<Email>>)
    ensures r.Some? <==>
      (parsed.Some? && parsed.value.Arr? &&
       forall i | 0 <= i < |parsed.value.items| :: !parsed.value.items[i].Null? && !parsed.value.items[i].Undefined?)
    ensures r.Some? ==> |r.value| == |parsed.value.items| && forall i | 0 <= i < |r.value| :: r.value[i] == EmailOf(parsed.value.items[i])
  {
    if parsed.None? || !parsed.value.Arr? then None
    else
      var items := parsed.value.items;
      if exists i | 0 <= i < |items| :: items[i].Null? || items[i].Undefined? then None
      else Some(seq(|items|, i requires 0 <= i < |items| => EmailOf(items[i])))
  }

  /** The history after promotion, before the status filter. */
  function PromotedHistory(history: seq<Email>, now: int, dateOf: JsValue -> Option<int>, isoOf: int -> string): (r: seq<Email>)
    ensures |r| == |history|
    ensures forall i | 0 <= i < |history| :: r[i] == Promote(history[i], now, dateOf, isoOf)
  {
    seq(|history|, i requires 0 <= i < |history| => Promote(history[i], now, dateOf, isoOf))
  }

  /** `mockGetEmails(status)` against the decoded history `history` at instant `now`. */
  function MockGetEmails(status: Option<string>, history: Option<seq<Email>>, now: int,
                         dateOf: JsValue -> Option<int>, isoOf: int -> string): (r: MockGet)
    ensures history.None? ==> r == MockGet([], None)
    ensures history.Some? ==>
      var updated := PromotedHistory(history.value, now, dateOf, isoOf);
      && r.emails == (if FilterGiven(status) then Filter(updated, e => HasStatus(e, status.value)) else updated)
      && (r.rewritten.Some? <==> exists i | 0 <= i < |history.value| :: IsDue(history.value[i], now, dateOf))
      && (r.rewritten.Some? ==> r.rewritten.value == updated)
  {
    if history.None? then MockGet([], None)
    else
      var updated := PromotedHistory(history.value, now, dateOf, isoOf);
      var anyDue := exists i | 0 <= i < |history.value| :: IsDue(history.value[i], now, dateOf);
      var shown := if FilterGiven(status) then Filter(updated, e => HasStatus(e, status.value)) else updated;
      MockGet(shown, if anyDue then Some(updated) else None)
  }

  /**
   * A due draft is listed as sent, keeping its sending time or else taking its
   * scheduled time; every other e-mail keeps its status.
   */
  lemma MockPromotionStatus(history: seq<Email>, now: int, dateOf: JsValue -> Option<int>, isoOf: int -> string, i: nat)
    requires i < |history|
    ensures var e := MockGetEmails(None, Some(history), now, dateOf, isoOf).emails[i];
      && (IsDue(history[i], now, dateOf) ==> e.status == Str("sent") && e.sentAt == Or(history[i].sentAt, Str(isoOf(dateOf(history[i].scheduledAt).value))))
      && (!IsDue(history[i], now, dateOf) ==> e.status == history[i].status && e.sentAt == history[i].sentAt)
  {
    var e := MockGetEmails(None, Some(history), now, dateOf, isoOf).emails[i];
    assert e == Promote(history[i], now, dateOf, isoOf);
  }

  /** Filling in the text fields twice is the same as once. */
  lemma WithTextFieldsIdempotent(e: Email)
    ensures WithTextFields(WithTextFields(e)) == WithTextFields(e)
  {
  }

  /** Promoting an already promoted e-mail changes nothing: a sent e-mail is never due. */
  lemma PromoteIdempotent(e: Email, now: int, dateOf: JsValue -> Option<int>, isoOf: int -> string)
    ensures Promote(Promote(e, now, dateOf, isoOf), now, dateOf, isoOf) == Promote(e, now, dateOf, isoOf)
  {
  }

  /**
   * Reading the mock history twice at the same instant gives the same list,
   * and the second read has nothing left to write back.
   */
  lemma {:induction false} MockReadStable(status: Option<string>, history: seq<Email>, now: int, dateOf: JsValue -> Option<int>, isoOf: int -> string)
    ensures var first := MockGetEmails(None, Some(history), now, dateOf, isoOf);
      var second := MockGetEmails(status, Some(first.emails), now, dateOf, isoOf);
      second.rewritten.None? && second.emails == MockGetEmails(status, Some(history), now, dateOf, isoOf).emails
  {
    var updated := PromotedHistory(history, now, dateOf, isoOf);
    forall i | 0 <= i < |history|
      ensures Promote(updated[i], now, dateOf, isoOf) == updated[i]
      ensures !IsDue(updated[i], now, dateOf)
    {
      PromoteIdempotent(history[i], now, dateOf, isoOf);
    }
    assert PromotedHistory(updated, now, dateOf, isoOf) == updated;
  }

  /**
   * A scheduled e-mail the mock just stored is reported as sent by the first
   * read at or after its scheduled time, with the scheduled time as its
   * sending time, and the history is written back.
   */
  lemma ScheduledMockEmailIsSentWhenDue(p: JsObject, saved: Option<string>, parse: string -> Option<JsValue>, nowMs: int, nowIso: string,
                                        later: int, dateOf: JsValue -> Option<int>, isoOf: int -> string)
    requires Prop(p, "originalText").Str? && IsInteger(Prop(p, "villagerId"))
    requires Truthy(Prop(p, "scheduledAt"))
    requires dateOf(Prop(p, "scheduledAt")).Some? && dateOf(Prop(p, "scheduledAt")).value <= later
    requires PriorHistory(saved, parse).Ok?
    requires forall i | 0 <= i < |PriorHistory(saved, parse).value| ::
      !PriorHistory(saved, parse).value[i].Null? && !PriorHistory(saved, parse).value[i].Undefined?
    ensures MockSendEmail(p, saved, parse, nowMs, nowIso).Ok?
    ensures var stored := MockSendEmail(p, saved, parse, nowMs, nowIso).value.stored;
      var listed := MockGetEmails(None, DecodeHistory(Some(Arr(stored))), later, dateOf, isoOf);
      && DecodeHistory(Some(Arr(stored))).Some?
      && listed.rewritten.Some?
      && listed.emails[0].status == Str("sent")
      && listed.emails[0].sentAt == Str(isoOf(dateOf(Prop(p, "scheduledAt")).value))
  {
    var prior := PriorHistory(saved, parse).value;
    var stored := MockSendEmail(p, saved, parse, nowMs, nowIso).value.stored;
    forall i | 0 <= i < |stored|
      ensures !stored[i].Null? && !stored[i].Undefined?
    {
      if i > 0 {
        assert stored[i] == prior[i - 1];
      }
    }
    var history := DecodeHistory(Some(Arr(stored))).value;
    assert history[0] == EmailOf(stored[0]);
    assert IsDue(history[0], later, dateOf);
  }

  /**
   * One `null` element in the stored history is kept by the next mock send,
   * and from then on the mock lists no e-mail at all, the new one included.
   */
  lemma NullInHistoryHidesEveryEmail(p: JsObject, saved: Option<string>, parse: string -> Option<JsValue>, nowMs: int, nowIso: string,
                                     status: Option<string>, later: int, dateOf: JsValue -> Option<int>, isoOf: int -> string, k: nat)
    requires Prop(p, "originalText").Str? && IsInteger(Prop(p, "villagerId"))
    requires PriorHistory(saved, parse).Ok?
    requires k < |PriorHistory(saved, parse).value| && PriorHistory(saved, parse).value[k].Null?
    ensures MockSendEmail(p, saved, parse, nowMs, nowIso).Ok?
    ensures var stored := MockSendEmail(p, saved, parse, nowMs, nowIso).value.stored;
      MockGetEmails(status, DecodeHistory(Some(Arr(stored))), later, dateOf, isoOf) == MockGet([], None)
  {
    var stored := MockSendEmail(p, saved, parse, nowMs, nowIso).value.stored;
    assert stored[k + 1] == PriorHistory(saved, parse).value[k];
  }

  /**
   * The list in a `getEmails` response: the response itself when it is an
   * array, else `data`, else `data.data`, else `items`, else `results`. A
   * truthy `data` that holds no list ends the search with an empty list.
   */
  function UnwrapEmailList(raw: JsValue): (items: seq<JsValue>)
    ensures raw.Arr? ==> items == raw.items
    ensures !raw.Arr? && Get(raw, "data").Arr? ==> items == Get(raw, "data").items
    ensures !raw.Arr? && Truthy(Get(raw, "data")) && !Get(raw, "data").Arr? ==>
      items == (if Get(Get(raw, "data"), "data").Arr? then Get(Get(raw, "data"), "data").items else [])
    ensures !raw.Arr? && !Truthy(Get(raw, "data")) ==>
      items == (if Get(raw, "items").Arr? then Get(raw, "items").items
                else if Get(raw, "results").Arr? then Get(raw, "results").items
                else [])
  {
    if raw.Arr? then raw.items
    else if Truthy(raw) && Truthy(Get(raw, "data")) then
      var data := Get(raw, "data");
      if data.Arr? then data.items
      else if Get(data, "data").Arr? then Get(data, "data").items
      else []
    else if Truthy(raw) && Get(raw, "items").Arr? then Get(raw, "items").items
    else if Truthy(raw) && Get(raw, "results").Arr? then Get(raw, "results").items
    else []
  }

  /** The `Email` record `getEmails` builds from one received item. */
  function NormalizeEmail(item: Email): (e: Email)
    ensures e.status == (if Truthy(item.status) then item.status else Str("sent"))
    ensures e.id == Or(item.id, Str("")) && e.subject == Or(item.subject, Str(""))
    ensures e.createdAt == Or(item.createdAt, Str("")) && e.villagerId == Or(item.villagerId, Num(0.0))
    ensures e.originalText == e.content == OriginalTextOf(item)
    ensures e.transformedText == e.previewContent == TransformedTextOf(item)
    ensures e.villagerName == item.villagerName && e.sentAt == item.sentAt
    ensures e.deletedAt == item.deletedAt && e.scheduledAt == item.scheduledAt
  {
    var o := OriginalTextOf(item);
    var t := TransformedTextOf(item);
    Email(Or(item.id, Str("")), Or(item.villagerId, Num(0.0)), item.villagerName, Or(item.subject, Str("")),
          o, t, o, t, Or(item.status, Str("sent")), Or(item.createdAt, Str("")), item.sentAt, item.deletedAt, item.scheduledAt)
  }

  /** Normalising a normalised e-mail changes nothing, and the result always has a truthy status. */
  lemma NormalizeEmailIdempotent(item: Email)
    ensures NormalizeEmail(NormalizeEmail(item)) == NormalizeEmail(item)
    ensures Truthy(NormalizeEmail(item).status)
  {
  }

  /** Why `getEmails` can fail: `apiFetch` threw, or an item was `null` or `undefined` and reading its fields threw. */
  datatype GetEmailsFailure = FetchFailed(error: ApiClientError) | ItemNotObject(index: nat)

  /** The request path of `getEmails`. */
  function EmailsPath(status: Option<string>): (path: string)
    ensures FilterGiven(status) ==> path == "/emails?status=" + status.value
    ensures !FilterGiven(status) ==> path == "/emails"
  {
    if FilterGiven(status) then "/emails?status=" + status.value else "/emails"
  }

  /** The item list of a response, normalised; the first `null` or `undefined` item makes the call throw. */
  function NormalizeEmails(items: seq<JsValue>): (r: Result<seq<Email>, GetEmailsFailure>)
    ensures r.Ok? <==> forall i | 0 <= i < |items| :: !items[i].Null? && !items[i].Undefined?
    ensures r.Ok? ==> |r.value| == |items| && forall i | 0 <= i < |items| :: r.value[i] == NormalizeEmail(EmailOf(items[i]))
    ensures r.Err? ==>
      && r.error.ItemNotObject?
      && r.error.index < |items|
      && (items[r.error.index].Null? || items[r.error.index].Undefined?)
      && forall j | 0 <= j < r.error.index :: !items[j].Null? && !items[j].Undefined?
  {
    if items == [] then Ok([])
    else if items[0].Null? || items[0].Undefined? then Err(ItemNotObject(0))
    else
      assert forall i | 1 <= i < |items| :: items[i] == items[1..][i - 1];
      match NormalizeEmails(items[1..])
      case Ok(rest) => Ok([NormalizeEmail(EmailOf(items[0]))] + rest)
      case Err(ItemNotObject(i)) => Err(ItemNotObject(i + 1))
      case Err(other) => Err(other)
  }

  /** `getEmails(status)` in production, against the server reply `reply`. */
  function GetEmails(status: Option<string>, baseUrl: string, reply: FetchReply): (r: Result<seq<Email>, GetEmailsFailure>)
    ensures var run := ApiFetch(baseUrl, EmailsPath(status), RequestConfig(Some("GET"), NoBody, map[], None, false), reply, None);
      && (run.result.Err? ==> r == Err(FetchFailed(run.result.error)))
      && (run.result.Ok? ==> r == NormalizeEmails(UnwrapEmailList(run.result.value.data)))
  {
    var run := ApiFetch(baseUrl, EmailsPath(status), RequestConfig(Some("GET"), NoBody, map[], None, false), reply, None);
    match run.result
    case Err(e) => Err(FetchFailed(e))
    case Ok(response) => NormalizeEmails(UnwrapEmailList(response.data))
  }

  /**
   * Every envelope `getEmails` accepts gives the same list: a bare array,
   * `{data: [...]}`, `{data: {data: [...]}}` and `{items: [...]}` under a
   * 2xx status all yield the normalised e-mails of the same items, in order,
   * and fail only on a `null` or `undefined` item.
   */
  lemma {:induction false} GetEmailsEnvelopesAgree(status: Option<string>, baseUrl: string, code: int, text: string, items: seq<JsValue>)
    requires IsOk(code)
    ensures var bare := GetEmails(status, baseUrl, Responded(code, text, Ok(Arr(items))));
      && GetEmails(status, baseUrl, Responded(code, text, Ok(Obj(map["data" := Arr(items)])))) == bare
      && GetEmails(status, baseUrl, Responded(code, text, Ok(Obj(map["data" := Obj(map["data" := Arr(items)])])))) == bare
      && GetEmails(status, baseUrl, Responded(code, text, Ok(Obj(map["items" := Arr(items)])))) == bare
      && (bare.Ok? <==> forall i | 0 <= i < |items| :: !items[i].Null? && !items[i].Undefined?)
      && (bare.Ok? ==> |bare.value| == |items| && forall i | 0 <= i < |items| :: bare.value[i] == NormalizeEmail(EmailOf(items[i])))
  {
    assert UnwrapEmailList(Obj(map["data" := Arr(items)])) == items;
    assert UnwrapEmailList(Obj(map["data" := Obj(map["data" := Arr(items)])])) == items;
    assert UnwrapEmailList(Obj(map["items" := Arr(items)])) == items;
  }

  /** A reply with a non-2xx status fails `getEmails` with the client's error for it, whatever the body. */
  lemma GetEmailsRejectsErrorStatus(status: Option<string>, baseUrl: string, code: int, text: string, body: JsValue)
    requires !IsOk(code)
    ensures GetEmails(status, baseUrl, Responded(code, text, Ok(body))) ==
      Err(FetchFailed(ApiClientError("API request failed: " + text, code, text, body)))
  {
  }
}
