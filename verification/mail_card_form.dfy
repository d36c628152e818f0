/**
 * components/mail/MailCardForm.tsx: the compose form. Its own checks stop
 * at the first failure; a passing form is sent through `sendEmail` with
 * every string trimmed, but under the keys `content` and `toEmail`, which
 * `sendEmail` does not read, so `sendEmail` always rejects it.
 */
module MailCardForm {
  import opened Js
  import opened Text
  import opened Wrappers
  import opened Emails
  import opened MailCard
  import opened ApiClient

  const ContentMissingMessage := "내용을 입력해주세요."
  const ToEmailMissingMessage := "받는 사람 주소를 입력해주세요."
  const SubjectMissingMessage := "제목을 입력해주세요."
  const DateMissingMessage := "예약 날짜/시간을 선택해주세요."
  const FormSentMessage := "이메일이 성공적으로 전송되었습니다."

  /** The form's inputs and status. `scheduledDateTime` is the raw `datetime-local` value. */
  datatype FormState = FormState(
    content: string,
    fromEmail: string,
    toEmail: string,
    subject: string,
    scheduledDateTime: string,
    showScheduleForm: bool,
    isSending: bool,
    sendSuccess: Option<string>,
    sendError: Option<string>)

  /** The form as mounted, with the stored user e-mail (or "") as sender. */
  function InitialForm(storedEmail: Option<string>): FormState {
    FormState("", storedEmail.GetOr(""), "", "", "", false, false, None, None)
  }

  /** The form's own checks, each named by what it rejects. */
  datatype FormGate = DateMissing | ContentMissing | ToEmailMissing | SubjectMissing

  function GateMessage(g: FormGate): string {
    match g
    case DateMissing => DateMissingMessage
    case ContentMissing => ContentMissingMessage
    case ToEmailMissing => ToEmailMissingMessage
    case SubjectMissing => SubjectMissingMessage
  }

  /**
   * The first failing check: for a scheduled send an empty date first, then
   * blank content, blank receiver and blank subject.
   */
  function FirstFailure(s: FormState, scheduled: bool): (r: Option<FormGate>)
    ensures r == Some(DateMissing) <==> scheduled && s.scheduledDateTime == ""
    ensures r == Some(ContentMissing) <==> !(scheduled && s.scheduledDateTime == "") && IsBlank(s.content)
    ensures r == Some(ToEmailMissing) <==>
      !(scheduled && s.scheduledDateTime == "") && !IsBlank(s.content) && IsBlank(s.toEmail)
    ensures r == Some(SubjectMissing) <==>
      !(scheduled && s.scheduledDateTime == "") && !IsBlank(s.content) && !IsBlank(s.toEmail) && IsBlank(s.subject)
    ensures r.None? <==>
      (!scheduled || s.scheduledDateTime != "") && !IsBlank(s.content) && !IsBlank(s.toEmail) && !IsBlank(s.subject)
  {
    TrimEmptyIffBlank(s.content);
    TrimEmptyIffBlank(s.toEmail);
    TrimEmptyIffBlank(s.subject);
    if scheduled && s.scheduledDateTime == "" then Some(DateMissing)
    else if Trim(s.content) == [] then Some(ContentMissing)
    else if Trim(s.toEmail) == [] then Some(ToEmailMissing)
    else if Trim(s.subject) == [] then Some(SubjectMissing)
    else None
  }

  /** The form's request object built from already prepared field values. */
  function PayloadOf(villagerId: int, subject: string, content: string, fromEmail: string, toEmail: string,
                     scheduledAt: Option<string>): (p: JsObject)
    ensures p.Keys == {"villagerId", "subject", "content", "fromEmail", "toEmail"} + (if scheduledAt.Some? then {"scheduledAt"} else {})
    ensures p["villagerId"] == Num(villagerId as real) && "receiverEmail" !in p
    ensures p["subject"] == Str(subject) && p["content"] == Str(content)
    ensures p["fromEmail"] == Str(fromEmail) && p["toEmail"] == Str(toEmail)
  {
    var base := map["villagerId" := Num(villagerId as real), "subject" := Str(subject), "content" := Str(content),
                    "fromEmail" := Str(fromEmail), "toEmail" := Str(toEmail)];
    if scheduledAt.Some? then base["scheduledAt" := Str(scheduledAt.value)] else base
  }

  /** The property `key` is present and is a string with no surrounding whitespace. */
  predicate TrimmedField(p: JsObject, key: string) {
    key in p && p[key].Str? && Trim(p[key].s) == p[key].s
  }

  /**
   * The object the form hands to `sendEmail`: the villager id, the four
   * text inputs trimmed, and `scheduledAt` only for a scheduled send.
   */
  function FormPayload(s: FormState, villagerId: int, scheduledAt: Option<string>): (p: JsObject)
    ensures p.Keys == {"villagerId", "subject", "content", "fromEmail", "toEmail"} + (if scheduledAt.Some? then {"scheduledAt"} else {})
    ensures p["villagerId"] == Num(villagerId as real) && "receiverEmail" !in p
    ensures TrimmedField(p, "subject") && TrimmedField(p, "content") && TrimmedField(p, "fromEmail") && TrimmedField(p, "toEmail")
  {
    TrimIdempotent(s.subject);
    TrimIdempotent(s.content);
    TrimIdempotent(s.fromEmail);
    TrimIdempotent(s.toEmail);
    PayloadOf(villagerId, Trim(s.subject), Trim(s.content), Trim(s.fromEmail), Trim(s.toEmail), scheduledAt)
  }

  /**
   * Whatever the form holds, `sendEmail` rejects its payload for a missing
   * `receiverEmail`: the villager id passes, and the address travels under
   * `toEmail`.
   */
  lemma FormPayloadAlwaysRejected(s: FormState, villagerId: int, scheduledAt: Option<string>, parses: string -> bool)
    ensures CheckSendPayload(FormPayload(s, villagerId, scheduledAt), parses) == Err(ReceiverEmailMissing)
  {
    NoReceiverIsRejected(FormPayload(s, villagerId, scheduledAt), parses);
  }

  /** A payload with an integer villager id and no `receiverEmail` fails the second check of `sendEmail`. */
  lemma NoReceiverIsRejected(p: JsObject, parses: string -> bool)
    requires IsInteger(Prop(p, "villagerId")) && "receiverEmail" !in p
    ensures CheckSendPayload(p, parses) == Err(ReceiverEmailMissing)
  {
    assert !BadVillagerId(p) && EmailMissing(p);
  }

  /** What a press of a button leads to. */
  datatype FormPlan =
    | Ignored
    | ShowScheduleForm
    | Refused(gate: FormGate)
    | DateUnreadable
    | SendForm(payload: JsObject, at: Option<int>)

  /**
   * A press of "send now": ignored while sending; otherwise the first
   * failing check shows its message, and a passing form starts sending.
   */
  function PressSendNow(s: FormState, villagerId: int): (r: (FormState, FormPlan))
    ensures s.isSending ==> r == (s, Ignored)
    ensures !s.isSending && FirstFailure(s, false).Some? ==>
      r == (s.(sendError := Some(GateMessage(FirstFailure(s, false).value))), Refused(FirstFailure(s, false).value))
    ensures !s.isSending && FirstFailure(s, false).None? ==>
      r == (s.(isSending := true, sendSuccess := None, sendError := None), SendForm(FormPayload(s, villagerId, None), None))
  {
    if s.isSending then (s, Ignored)
    else
      match FirstFailure(s, false)
      case Some(g) => (s.(sendError := Some(GateMessage(g))), Refused(g))
      case None => (s.(isSending := true, sendSuccess := None, sendError := None), SendForm(FormPayload(s, villagerId, None), None))
  }

  /**
   * A press of the schedule button: the first press only reveals the date
   * field; a press while it is shown runs the checks and, for a passing
   * form, reads the date (`dateOf`, `None` when invalid, in which case
   * `toISOString` throws before any request) and starts sending.
   */
  function PressSchedule(s: FormState, villagerId: int, dateOf: string -> Option<int>, isoOf: int -> string): (r: (FormState, FormPlan))
    ensures s.isSending ==> r == (s, Ignored)
    ensures !s.isSending && !s.showScheduleForm ==> r == (s.(showScheduleForm := true), ShowScheduleForm)
    ensures !s.isSending && s.showScheduleForm && FirstFailure(s, true).Some? ==>
      r.1 == Refused(FirstFailure(s, true).value) && r.0 == s.(sendError := Some(GateMessage(r.1.gate)))
    ensures r.1.SendForm? ==>
      && s.showScheduleForm && FirstFailure(s, true).None?
      && dateOf(s.scheduledDateTime).Some? && r.1.at == dateOf(s.scheduledDateTime)
      && r.1.payload == FormPayload(s, villagerId, Some(isoOf(r.1.at.value)))
      && r.0.isSending
    ensures r.1.DateUnreadable? <==>
      !s.isSending && s.showScheduleForm && FirstFailure(s, true).None? && dateOf(s.scheduledDateTime).None?
  {
    if s.isSending then (s, Ignored)
    else if !s.showScheduleForm then (s.(showScheduleForm := true), ShowScheduleForm)
    else
      match FirstFailure(s, true)
      case Some(g) => (s.(sendError := Some(GateMessage(g))), Refused(g))
      case None =>
        var sending := s.(isSending := true, sendSuccess := None, sendError := None);
        match dateOf(s.scheduledDateTime)
        case None => (sending, DateUnreadable)
        case Some(at) => (sending, SendForm(FormPayload(s, villagerId, Some(isoOf(at))), Some(at)))
  }

  /**
   * Every send the form starts, now or scheduled, is rejected by `sendEmail`
   * before any request, in development and production alike.
   */
  lemma FormSendsAreRejected(s: FormState, villagerId: int, dateOf: string -> Option<int>, isoOf: int -> string,
                             parses: string -> bool, development: bool, saved: Option<string>, parse: string -> Option<JsValue>, nowMs: int, nowIso: string,
                             baseUrl: string, stringify: JsValue -> string, reply: FetchReply)
    ensures var plan := PressSendNow(s, villagerId).1;
      plan.SendForm? ==> SendEmail(plan.payload, parses, development, saved, parse, nowMs, nowIso, baseUrl, stringify, reply) == SendRejected(ReceiverEmailMissing)
    ensures var plan := PressSchedule(s, villagerId, dateOf, isoOf).1;
      plan.SendForm? ==> SendEmail(plan.payload, parses, development, saved, parse, nowMs, nowIso, baseUrl, stringify, reply) == SendRejected(ReceiverEmailMissing)
  {
    var now := PressSendNow(s, villagerId).1;
    if now.SendForm? {
      FormPayloadAlwaysRejected(s, villagerId, None, parses);
      RejectedPayloadIsNotSent(now.payload, parses, development, saved, parse, nowMs, nowIso, baseUrl, stringify, reply);
    }
    var later := PressSchedule(s, villagerId, dateOf, isoOf).1;
    if later.SendForm? {
      FormPayloadAlwaysRejected(s, villagerId, Some(isoOf(later.at.value)), parses);
      RejectedPayloadIsNotSent(later.payload, parses, development, saved, parse, nowMs, nowIso, baseUrl, stringify, reply);
    }
  }

  /** A payload that fails a check of `sendEmail` is neither stored nor posted. */
  lemma RejectedPayloadIsNotSent(p: JsObject, parses: string -> bool, development: bool, saved: Option<string>, parse: string -> Option<JsValue>, nowMs: int, nowIso: string,
                                 baseUrl: string, stringify: JsValue -> string, reply: FetchReply)
    requires CheckSendPayload(p, parses).Err?
    ensures SendEmail(p, parses, development, saved, parse, nowMs, nowIso, baseUrl, stringify, reply) == SendRejected(CheckSendPayload(p, parses).error)
  {
  }

  /**
   * The date field shows the default value while its state is still "", so
   * pressing "schedule" on a filled-in form whose date was never touched is
   * refused for a missing date.
   */
  lemma UntouchedDateIsRefused(s: FormState, villagerId: int, dateOf: string -> Option<int>, isoOf: int -> string)
    requires !s.isSending && s.showScheduleForm && s.scheduledDateTime == ""
    ensures PressSchedule(s, villagerId, dateOf, isoOf).1 == Refused(DateMissing)
  {
  }

  /**
   * The rest of a send once it settles. Success clears the message fields
   * (and, for a scheduled send, the date, and hides the date field) but
   * keeps the sender; a failure keeps every input and shows the error.
   * `dateLabel` is the locale form of the scheduled date.
   */
  function CompleteForm(s: FormState, scheduled: bool, reply: SendReply, dateLabel: string): (r: FormState)
    ensures !r.isSending && r.fromEmail == s.fromEmail
    ensures reply.Replied? ==>
      && r.content == "" && r.toEmail == "" && r.subject == ""
      && (scheduled ==> r.scheduledDateTime == "" && !r.showScheduleForm)
      && (!scheduled ==> r.scheduledDateTime == s.scheduledDateTime && r.showScheduleForm == s.showScheduleForm)
      && r.sendSuccess == Some(if scheduled then ScheduledMessage(dateLabel) else FormSentMessage)
      && r.sendError == s.sendError
    ensures reply.Threw? ==>
      && r == s.(isSending := false, sendError := Some(reply.message.GetOr(if scheduled then ScheduleFailedDefault else SendFailedDefault)))
  {
    match reply
    case Threw(message) =>
      s.(isSending := false, sendError := Some(message.GetOr(if scheduled then ScheduleFailedDefault else SendFailedDefault)))
    case Replied(_) =>
      var cleared := s.(content := "", toEmail := "", subject := "", isSending := false);
      if scheduled then cleared.(scheduledDateTime := "", showScheduleForm := false, sendSuccess := Some(ScheduledMessage(dateLabel)))
      else cleared.(sendSuccess := Some(FormSentMessage))
  }

  /** Checks that pass on a press keep passing once the send fails, since a failure changes no input. */
  lemma FailureKeepsInputs(s: FormState, scheduled: bool, message: Option<string>, dateLabel: string)
    ensures var r := CompleteForm(s, scheduled, Threw(message), dateLabel);
      FirstFailure(r, scheduled) == FirstFailure(s, scheduled)
  {
  }

  /** `getDefaultDate()`: the first 16 characters ("YYYY-MM-DDTHH:mm") of the ISO form of now plus one hour. */
  function DefaultDateTime(now: int, isoOf: int -> string): (r: string)
    ensures |r| <= 16 && StartsWith(isoOf(now + HourMs), r)
    ensures |isoOf(now + HourMs)| >= 16 ==> |r| == 16
  {
    Prefix(isoOf(now + HourMs), 16)
  }
}
