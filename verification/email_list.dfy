/**
 * app/main/mypage/EmailList.tsx: a stand-alone list of all e-mails. Unlike
 * the my-page grid it takes the stored status at face value and prefers
 * the transformed text over what the user wrote.
 */
module EmailList {
  import opened Js
  import opened Wrappers
  import opened ApiClient
  import opened Emails
  import opened MyPage

  /** The villager name shown when the e-mail carries none. */
  const UnknownVillager := "알 수 없는 주민"

  /** The message of the error made up for a thrown value that is not an `Error`. */
  const LoadFailedMessage := "이메일 목록을 불러오는데 실패했습니다."

  /** The props of one card of this list (the sticker is always ""). */
  datatype ListCard = ListCard(
    villagerName: JsValue,
    speechBubbleText: JsValue,
    textSafeAreaContent: JsValue,
    status: CardStatus,
    scheduledDate: JsValue,
    sentDate: JsValue)

  /** The card status by the stored status alone: sent exactly when it reads "sent". */
  function ListStatus(e: Email): (s: CardStatus)
    ensures s == Sent <==> e.status == Str("sent")
  {
    if e.status == Str("sent") then Sent else Reserved
  }

  /**
   * One card: the text is the first truthy of the transformed text, the
   * original text, the preview and the content; the scheduled date of a
   * draft is its creation time; the sent date is passed through.
   */
  function ListCardOf(e: Email): (c: ListCard)
    ensures c.status == ListStatus(e)
    ensures c.speechBubbleText == FirstTruthy([e.transformedText, e.originalText, e.previewContent, e.content], Str(""))
    ensures c.villagerName == FirstTruthy([e.villagerName], Str(UnknownVillager))
    ensures c.textSafeAreaContent == e.subject
    ensures e.status == Str("draft") ==> c.scheduledDate == e.createdAt
    ensures e.status != Str("draft") ==> c.scheduledDate == Undefined
    ensures c.sentDate == e.sentAt
  {
    OrChainFirstTruthy(e.transformedText, e.originalText, e.previewContent, e.content, Str(""));
    ListCard(
      Or(e.villagerName, Str(UnknownVillager)),
      Or(Or(Or(Or(e.transformedText, e.originalText), e.previewContent), e.content), Str("")),
      e.subject,
      ListStatus(e),
      if e.status == Str("draft") then e.createdAt else Undefined,
      e.sentAt)
  }

  /**
   * For an e-mail as `getEmails` normalises it, the list shows the
   * transformed text and falls back to the original only when no
   * transformed text exists.
   */
  lemma NormalizedTextPrefersTransformed(item: Email)
    ensures var c := ListCardOf(NormalizeEmail(item));
      && (Truthy(TransformedTextOf(item)) ==> c.speechBubbleText == TransformedTextOf(item))
      && (!Truthy(TransformedTextOf(item)) ==> c.speechBubbleText == OriginalTextOf(item))
  {
  }

  /**
   * The two pages disagree on an overdue draft: the my-page grid shows it
   * as sent, this list as reserved. On e-mails the mock has already
   * promoted they agree.
   */
  lemma StatusRulesDisagreeOnOverdueDraft(e: Email, villagers: seq<Villagers.Villager>, now: int, dateOf: JsValue -> Option<int>, isoOf: int -> string)
    ensures IsDue(e, now, dateOf) ==>
      CardOf(e, villagers, now, dateOf).status == Sent && ListCardOf(e).status == Reserved
    ensures var p := Promote(e, now, dateOf, isoOf);
      CardOf(p, villagers, now, dateOf).status == ListCardOf(p).status
  {
    DerivedStatusSurvivesPromotion(e, now, dateOf, isoOf);
  }

  /** What the list renders once loading has finished. */
  datatype ListView = ListFailed(message: string) | ListEmpty | ListCards(cards: seq<ListCard>)

  /**
   * The view after `getEmails()` settles. Every failure `getEmails` can
   * raise is an `Error`, so its own message is shown: the client error's,
   * or `typeErrorMessage`, the engine's text for the `TypeError` of a
   * non-object list element.
   */
  function ListViewOf(result: Result<seq<Email>, GetEmailsFailure>, typeErrorMessage: string): (v: ListView)
    ensures result.Err? && result.error.FetchFailed? ==> v == ListFailed(result.error.error.message)
    ensures result.Err? && result.error.ItemNotObject? ==> v == ListFailed(typeErrorMessage)
    ensures result.Ok? ==> (v == ListEmpty <==> result.value == [])
    ensures v.ListCards? ==> result.Ok? && |v.cards| == |result.value| > 0
    ensures v.ListCards? ==> forall i | 0 <= i < |v.cards| :: v.cards[i] == ListCardOf(result.value[i])
  {
    match result
    case Err(FetchFailed(e)) => ListFailed(e.message)
    case Err(ItemNotObject(_)) => ListFailed(typeErrorMessage)
    case Ok(emails) =>
      if emails == [] then ListEmpty
      else ListCards(seq(|emails|, i requires 0 <= i < |emails| => ListCardOf(emails[i])))
  }

  /** A failed fetch always reaches the error view, never an empty list. */
  lemma FetchFailureIsShown(status: Option<string>, baseUrl: string, reply: FetchReply, typeErrorMessage: string)
    requires GetEmails(status, baseUrl, reply).Err?
    ensures ListViewOf(GetEmails(status, baseUrl, reply), typeErrorMessage).ListFailed?
  {
  }
}
