/**
 * components/mail/MailCard.tsx: the card that previews a letter locally
 * after a 500 ms pause in typing, and sends it now or in one hour through
 * `sendEmail`, showing the server's transformed text or, failing that, the
 * local rule fallback.
 *
 * Timers are events: an edit arms the pending preview, `OnTimerFire` is the
 * timer going off. The asynchronous send is split at its one `await` into
 * `BeginSend` and `CompleteSend`; between the two the card is sending.
 */
module MailCard {
  import opened Js
  import opened Text
  import opened Wrappers
  import opened RuleFallback
  import opened EmailFormat
  import opened Emails

  /** The pause after the last edit before the preview is shown, in milliseconds. */
  const DebounceMs := 500

  /** One hour in milliseconds: how far ahead a scheduled send is placed. */
  const HourMs := 3600000

  const ToneMissingMessage := "말투 정보를 찾을 수 없습니다. 다시 시도해주세요."
  const ReceiverMissingMessage := "받는 사람 이메일 정보를 찾을 수 없습니다. 이메일 작성 페이지에서 다시 시도해주세요."
  const SentWithServerText := "이메일이 성공적으로 전송되었습니다. (GPT 변환 적용)"
  const SentWithFallback := "이메일이 성공적으로 전송되었습니다. (Rule fallback 적용)"
  const SendFailedDefault := "이메일 전송에 실패했습니다."
  const ScheduleFailedDefault := "이메일 예약에 실패했습니다."
  const FallbackSuffix := " (Rule fallback 적용)"
  const ServerTextSuffix := " (GPT 변환 적용)"

  /** The confirmation of a scheduled send, quoting the locale form `when` of its time. */
  function ScheduledMessage(when: string): string {
    "이메일이 " + when + "에 전송 예약되었습니다."
  }

  /**
   * The card's state. `transformedText` and `imageUrl` hold whatever the
   * server sent back, so they are loosely typed; `pendingTimer` is the
   * trimmed text the armed preview timer will show.
   */
  datatype CardState = CardState(
    previewText: string,
    transformedText: JsValue,
    imageUrl: JsValue,
    isLoading: bool,
    previewError: Option<string>,
    pendingTimer: Option<string>,
    isSending: bool,
    sendSuccess: Option<string>,
    sendError: Option<string>)

  /** The state of a freshly mounted card. */
  const InitialCard := CardState("", Str(""), Null, false, None, None, false, None, None)

  /**
   * The preview effect, run whenever the text, the villager or the tone
   * changes: the pending timer is cancelled; blank text clears the preview at
   * once, other text shows "loading" and arms a new timer.
   */
  function OnTextChange(s: CardState, originalText: string): (r: CardState)
    ensures IsBlank(originalText) ==>
      r == s.(previewText := "", previewError := None, isLoading := false, pendingTimer := None)
    ensures !IsBlank(originalText) ==>
      r == s.(isLoading := true, previewError := None, pendingTimer := Some(Trim(originalText)))
  {
    var trimmed := Trim(originalText);
    TrimEmptyIffBlank(originalText);
    if trimmed == [] then s.(previewText := "", previewError := None, isLoading := false, pendingTimer := None)
    else s.(isLoading := true, previewError := None, pendingTimer := Some(trimmed))
  }

  /** The timer going off: the preview becomes the trimmed text, computed locally with no request. */
  function OnTimerFire(s: CardState): (r: CardState)
    ensures s.pendingTimer.None? ==> r == s
    ensures s.pendingTimer.Some? ==>
      r == s.(previewText := s.pendingTimer.value, previewError := None, isLoading := false, pendingTimer := None)
  {
    match s.pendingTimer
    case None => s
    case Some(text) => s.(previewText := text, previewError := None, isLoading := false, pendingTimer := None)
  }

  /** The preview bookkeeping is consistent: "loading" exactly while a timer is pending, for non-blank text. */
  predicate PreviewConsistent(s: CardState) {
    && (s.isLoading <==> s.pendingTimer.Some?)
    && (s.pendingTimer.Some? ==> !IsBlank(s.pendingTimer.value))
  }

  /** Both preview events keep the bookkeeping consistent. */
  lemma PreviewEventsKeepConsistency(s: CardState, originalText: string)
    requires PreviewConsistent(s)
    ensures PreviewConsistent(OnTextChange(s, originalText))
    ensures PreviewConsistent(OnTimerFire(s))
  {
    var t := Trim(originalText);
    if !IsBlank(originalText) {
      TrimEmptyIffBlank(originalText);
      TrimIdempotent(originalText);
      TrimEmptyIffBlank(t);
    }
  }

  /** Once the timer for non-blank text fires, the preview is that text trimmed and nothing is loading. */
  lemma PreviewSettlesToTrimmedText(s: CardState, originalText: string)
    requires !IsBlank(originalText)
    ensures var r := OnTimerFire(OnTextChange(s, originalText));
      r.previewText == Trim(originalText) && !r.isLoading && r.previewError.None? && r.pendingTimer.None?
  {
  }

  /** Only the last edit matters: an earlier edit's timer was cancelled before it could fire. */
  lemma LastEditDecides(s: CardState, first: string, second: string)
    ensures OnTimerFire(OnTextChange(OnTextChange(s, first), second)) == OnTimerFire(OnTextChange(s, second))
  {
  }

  /** `transformedText || previewText || speechBubbleText`. */
  function DisplayText(s: CardState, speechBubbleText: string): JsValue {
    Or(Or(s.transformedText, Str(s.previewText)), Str(speechBubbleText))
  }

  /** Both send buttons are disabled while a send is in flight. */
  predicate ButtonsDisabled(s: CardState) {
    s.isSending
  }

  /** `a || b` on two strings. */
  function StrOr(a: string, b: string): (r: string)
    ensures r == "" <==> a == "" && b == ""
    ensures r == a || r == b
  {
    if a != "" then a else b
  }

  /** What the card knows when a send button is pressed (`storedEmail` is `localStorage.userEmail`). */
  datatype SendInput = SendInput(
    villagerId: int,
    toneType: Option<string>,
    originalText: string,
    speechBubbleText: string,
    textSafeAreaContent: Option<string>,
    storedEmail: Option<string>)

  datatype SendMode = SendNow | SendLater

  /** What a press of a send button leads to: a missing tone, a missing receiver, or a request. */
  datatype SendPlan =
    | MissingTone
    | MissingReceiver
    | Dispatch(payload: JsObject, content: string, at: int)

  /** The letter's body: `previewText || originalText || speechBubbleText`. */
  function SendContent(s: CardState, input: SendInput): string {
    StrOr(StrOr(s.previewText, input.originalText), input.speechBubbleText)
  }

  /** `textSafeAreaContent?.trim() || ""`. */
  function SendSubject(input: SendInput): string {
    if input.textSafeAreaContent.Some? then Trim(input.textSafeAreaContent.value) else ""
  }

  /** The receiver: the stored user e-mail, or "" when there is none. */
  function StoredReceiver(input: SendInput): string {
    if input.storedEmail.Some? then input.storedEmail.value else ""
  }

  /** The instant the letter is to be sent: now, or an hour from now. */
  function DispatchTime(mode: SendMode, now: int): int {
    if mode.SendNow? then now else now + HourMs
  }

  /** The payload the card gives `sendEmail`. */
  function CardSendPayload(s: CardState, input: SendInput, tone: string, at: int, isoOf: int -> string): JsObject {
    map["villagerId" := Num(input.villagerId as real),
        "receiverEmail" := Str(StoredReceiver(input)),
        "originalText" := Str(SendContent(s, input)),
        "toneType" := Str(tone),
        "scheduledAt" := Str(isoOf(at)),
        "subject" := Str(SendSubject(input))]
  }

  /**
   * The checks a press makes before calling `sendEmail`: a blank or missing
   * tone type first, then an empty stored receiver; otherwise the payload,
   * with `scheduledAt` the ISO form (`isoOf`) of the dispatch time.
   */
  function PlanSend(s: CardState, input: SendInput, mode: SendMode, now: int, isoOf: int -> string): (r: SendPlan)
    ensures r.MissingTone? <==> input.toneType.None? || IsBlank(input.toneType.value)
    ensures r.MissingReceiver? <==> !r.MissingTone? && StoredReceiver(input) == ""
    ensures r.Dispatch? ==>
      && r.content == SendContent(s, input)
      && r.at == (if mode.SendNow? then now else now + HourMs)
      && r.payload == CardSendPayload(s, input, input.toneType.value, r.at, isoOf)
  {
    if input.toneType.None? || input.toneType.value == [] || IsBlank(input.toneType.value) then MissingTone
    else if StoredReceiver(input) == "" then MissingReceiver
    else
      var at := DispatchTime(mode, now);
      Dispatch(CardSendPayload(s, input, input.toneType.value, at, isoOf), SendContent(s, input), at)
  }

  /** A scheduled send differs from an immediate one only in its time, exactly one hour later. */
  lemma ScheduledSendIsOneHourLater(s: CardState, input: SendInput, now: int, isoOf: int -> string)
    requires PlanSend(s, input, SendNow, now, isoOf).Dispatch?
    ensures var a := PlanSend(s, input, SendNow, now, isoOf);
      var b := PlanSend(s, input, SendLater, now, isoOf);
      && b.Dispatch?
      && b.at == a.at + HourMs
      && b.content == a.content
      && b.payload == a.payload["scheduledAt" := Str(isoOf(a.at + HourMs))]
  {
  }

  /**
   * The card's payload passes every check of `sendEmail` exactly when the
   * stored address is well formed and short enough, the body is not blank,
   * the subject is short enough and the time string is a non-blank string
   * that parses.
   */
  lemma CardPayloadAcceptedIff(s: CardState, input: SendInput, mode: SendMode, now: int, isoOf: int -> string, parses: string -> bool)
    requires PlanSend(s, input, mode, now, isoOf).Dispatch?
    ensures var plan := PlanSend(s, input, mode, now, isoOf);
      var email := Trim(StoredReceiver(input));
      CheckSendPayload(plan.payload, parses).Ok? <==>
        && IsValidEmail(email) && |email| <= MaxFieldLength
        && !IsBlank(plan.content)
        && |SendSubject(input)| <= MaxFieldLength
        && !IsBlank(isoOf(plan.at)) && parses(isoOf(plan.at))
  {
    var plan := PlanSend(s, input, mode, now, isoOf);
    var p := plan.payload;
    var subject := SendSubject(input);
    assert Prop(p, "villagerId") == Num(input.villagerId as real);
    assert Prop(p, "receiverEmail") == Str(StoredReceiver(input));
    assert Prop(p, "originalText") == Str(plan.content);
    assert Prop(p, "subject") == Str(subject);
    assert Prop(p, "toneType") == Str(input.toneType.value);
    assert Prop(p, "scheduledAt") == Str(isoOf(plan.at));
    assert |Trim(subject)| == |subject| by {
      if input.textSafeAreaContent.Some? {
        TrimIdempotent(input.textSafeAreaContent.value);
      }
    }
    StringPayloadAcceptedIff(p, input.villagerId, StoredReceiver(input), plan.content, input.toneType.value, isoOf(plan.at), subject, parses);
  }

  /**
   * A payload of strings and an integer id with a non-blank tone passes
   * every check of `sendEmail` exactly when its trimmed address is valid and
   * short enough, its text is not blank, its trimmed subject is short enough
   * and its time is a non-blank string that parses.
   */
  lemma StringPayloadAcceptedIff(p: JsObject, villagerId: int, email: string, content: string, tone: string, iso: string, subject: string, parses: string -> bool)
    requires Prop(p, "villagerId") == Num(villagerId as real)
    requires Prop(p, "receiverEmail") == Str(email) && Prop(p, "originalText") == Str(content)
    requires Prop(p, "subject") == Str(subject) && Prop(p, "toneType") == Str(tone)
    requires Prop(p, "scheduledAt") == Str(iso)
    requires !IsBlank(tone)
    ensures CheckSendPayload(p, parses).Ok? <==>
      && IsValidEmail(Trim(email)) && |Trim(email)| <= MaxFieldLength
      && !IsBlank(content)
      && |Trim(subject)| <= MaxFieldLength
      && !IsBlank(iso) && parses(iso)
  {
    TrimEmptyIffBlank(email);
  }

  /**
   * A press of a send button. A press while sending does nothing (the
   * buttons are disabled). Otherwise the messages are cleared, and a failed
   * check shows its message and ends the send at once.
   */
  function BeginSend(s: CardState, input: SendInput, mode: SendMode, now: int, isoOf: int -> string): (r: (CardState, Option<SendPlan>))
    ensures ButtonsDisabled(s) ==> r == (s, None)
    ensures !ButtonsDisabled(s) ==> r.1 == Some(PlanSend(s, input, mode, now, isoOf))
    ensures !ButtonsDisabled(s) ==> (r.0.isSending <==> r.1.value.Dispatch?)
    ensures r.1 == Some(MissingTone) ==> r.0.sendError == Some(ToneMissingMessage)
    ensures r.1 == Some(MissingReceiver) ==> r.0.sendError == Some(ReceiverMissingMessage)
    ensures r.0.previewText == s.previewText && r.0.transformedText == s.transformedText && r.0.pendingTimer == s.pendingTimer
  {
    if s.isSending then (s, None)
    else
      var cleared := s.(isSending := true, sendSuccess := None, sendError := None);
      var plan := PlanSend(s, input, mode, now, isoOf);
      match plan
      case MissingTone => (cleared.(sendError := Some(ToneMissingMessage), isSending := false), Some(plan))
      case MissingReceiver => (cleared.(sendError := Some(ReceiverMissingMessage), isSending := false), Some(plan))
      case Dispatch(_, _, _) => (cleared, Some(plan))
  }

  /** How the awaited `sendEmail` call ended: a reply, or a throw (with the message of an `Error`). */
  datatype SendReply = Replied(response: JsValue) | Threw(message: Option<string>)

  /** A reply whose properties cannot be read: `response.imageUrl` throws a `TypeError` on it. */
  predicate Unreadable(response: JsValue) {
    response.Null? || response.Undefined?
  }

  /**
   * The rest of the press once `sendEmail` settles. A reply with a truthy
   * `transformedText` shows it; any other readable reply shows the rule
   * fallback of the letter's body. A throw, and a `null` reply (a 2xx reply
   * with a JSON `null` body), whose `imageUrl` read throws a `TypeError`
   * with the engine's message `typeErrorMessage`, show the rule fallback
   * and the error. `scheduledLabel` is the locale form of the dispatch time
   * the success message of a scheduled send quotes. The result also says
   * whether the parent's callback was called.
   */
  function CompleteSend(s: CardState, content: string, mode: SendMode, reply: SendReply, scheduledLabel: string, typeErrorMessage: string): (r: (CardState, bool))
    ensures !r.0.isSending
    ensures r.1 <==> reply.Replied? && !Unreadable(reply.response)
    ensures reply.Replied? && Truthy(Get(reply.response, "transformedText")) ==>
      r.0.transformedText == Get(reply.response, "transformedText") && r.0.sendError == s.sendError
    ensures !(reply.Replied? && Truthy(Get(reply.response, "transformedText"))) ==>
      r.0.transformedText == Str(ApplyRuleFallback(content))
    ensures reply.Threw? ==>
      var base := if reply.message.Some? then reply.message.value else if mode.SendNow? then SendFailedDefault else ScheduleFailedDefault;
      r.0.sendError == Some(base + FallbackSuffix) && r.0.sendSuccess == s.sendSuccess
    ensures reply.Replied? && Unreadable(reply.response) ==>
      r.0.sendError == Some(typeErrorMessage + FallbackSuffix) && r.0.sendSuccess == s.sendSuccess && r.0.imageUrl == s.imageUrl
    ensures r.1 ==> r.0.sendSuccess.Some? && r.0.sendError == s.sendError
    ensures r.1 && mode.SendNow? ==>
      r.0.sendSuccess == Some(if Truthy(Get(reply.response, "transformedText")) then SentWithServerText else SentWithFallback)
    ensures r.1 && !mode.SendNow? ==>
      r.0.sendSuccess == Some(ScheduledMessage(scheduledLabel) +
                              if Truthy(Get(reply.response, "transformedText")) then ServerTextSuffix else FallbackSuffix)
    ensures r.0.imageUrl == (if r.1 && Truthy(Get(reply.response, "imageUrl")) then Get(reply.response, "imageUrl") else s.imageUrl)
    ensures r.0.previewText == s.previewText && r.0.pendingTimer == s.pendingTimer && r.0.isLoading == s.isLoading
  {
    var failure: Option<string> :=
      match reply
      case Threw(message) => Some(if message.Some? then message.value else if mode.SendNow? then SendFailedDefault else ScheduleFailedDefault)
      case Replied(response) => if Unreadable(response) then Some(typeErrorMessage) else None;
    if failure.Some? then
      (s.(transformedText := Str(ApplyRuleFallback(content)), sendError := Some(failure.value + FallbackSuffix), isSending := false), false)
    else
      var response := reply.response;
      var image := Get(response, "imageUrl");
      var withImage := if Truthy(image) then s.(imageUrl := image) else s;
      var serverText := Get(response, "transformedText");
      var tail := if Truthy(serverText) then ServerTextSuffix else FallbackSuffix;
      var success :=
        if mode.SendNow? then (if Truthy(serverText) then SentWithServerText else SentWithFallback)
        else ScheduledMessage(scheduledLabel) + tail;
      var shown := if Truthy(serverText) then serverText else Str(ApplyRuleFallback(content));
      (withImage.(transformedText := shown, sendSuccess := Some(success), isSending := false), true)
  }

  /** A 2xx reply with a `null` body is reported as a failure, and the parent is not told of a send. */
  lemma NullReplyIsAFailure(s: CardState, content: string, mode: SendMode, scheduledLabel: string, typeErrorMessage: string)
    ensures var r := CompleteSend(s, content, mode, Replied(Null), scheduledLabel, typeErrorMessage);
      && !r.1
      && r.0.sendError == Some(typeErrorMessage + FallbackSuffix)
      && r.0.transformedText == Str(ApplyRuleFallback(content))
  {
  }

  /**
   * After a send of a non-empty body settles, whatever happened, the card
   * shows either the server's text or the rule fallback of the body, never
   * the preview or the speech bubble.
   */
  lemma SettledSendShowsTransformedText(s: CardState, content: string, mode: SendMode, reply: SendReply, scheduledLabel: string, typeErrorMessage: string, speechBubbleText: string)
    requires content != ""
    ensures var r := CompleteSend(s, content, mode, reply, scheduledLabel, typeErrorMessage).0;
      var serverText := if reply.Replied? then Get(reply.response, "transformedText") else Undefined;
      DisplayText(r, speechBubbleText) == if Truthy(serverText) then serverText else Str(ApplyRuleFallback(content))
  {
  }

  /** Sending never touches the preview bookkeeping, so it keeps it consistent. */
  lemma SendingKeepsPreviewConsistent(s: CardState, input: SendInput, mode: SendMode, now: int, isoOf: int -> string,
                                      content: string, reply: SendReply, scheduledLabel: string, typeErrorMessage: string)
    requires PreviewConsistent(s)
    ensures PreviewConsistent(BeginSend(s, input, mode, now, isoOf).0)
    ensures PreviewConsistent(CompleteSend(s, content, mode, reply, scheduledLabel, typeErrorMessage).0)
  {
  }
}
