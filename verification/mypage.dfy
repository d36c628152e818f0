/**
 * app/main/mypage/page.tsx: the user's page. It shows the user's name from
 * local storage, saves profile edits back there, asks the e-mail API for a
 * list according to the selected tab, and turns every e-mail into the props
 * of a read-only card. Whether a card counts as reserved or sent is decided
 * again on the client, so an overdue draft is shown as sent.
 */
module MyPage {
  import opened Js
  import opened Text
  import opened Wrappers
  import opened Seqs
  import opened Session
  import opened Emails
  import opened Villagers

  const UserEmailKey := "userEmail"
  const NicknameKey := "userNickname"
  const ProfileImageKey := "userProfileImage"

  /** The name shown when neither a nickname nor an address gives one. */
  const DefaultNickname := "사용자"

  /** The three tabs of the e-mail list. */
  datatype Tab = ShowAll | ShowReserved | ShowSent

  /** The two states a card can show. */
  datatype CardStatus = Reserved | Sent

  // ---------------------------------------------------------------------
  // User information
  // ---------------------------------------------------------------------

  /** What `loadUserInfo` puts on the page. */
  datatype UserInfo = UserInfo(email: string, nickname: string, profileImage: Option<string>)

  /**
   * The nickname line: the stored nickname when it is non-empty, otherwise
   * the part of the stored address before its first '@' when that is
   * non-empty, otherwise the default name.
   */
  function DisplayNickname(storedNickname: Option<string>, email: string): (r: string)
    ensures r != ""
    ensures storedNickname.Some? && storedNickname.value != "" ==> r == storedNickname.value
    ensures !(storedNickname.Some? && storedNickname.value != "") ==>
      || r == DefaultNickname
      || (StartsWith(email, r) && '@' !in r && (|r| < |email| ==> email[|r|] == '@'))
    ensures !(storedNickname.Some? && storedNickname.value != "") && (email == "" || email[0] == '@') ==>
      r == DefaultNickname
  {
    if storedNickname.Some? && storedNickname.value != "" then storedNickname.value
    else
      var local := Split(email, "@")[0];
      FirstPieceEndsAtChar(email, '@');
      LeadingAtGivesNoLocalPart(email);
      if local != "" then local else DefaultNickname
  }

  /** An address that starts with '@' has an empty local part. */
  lemma LeadingAtGivesNoLocalPart(email: string)
    ensures email != "" && email[0] == '@' ==> Split(email, "@")[0] == ""
  {
    if email != "" && email[0] == '@' {
      assert OccursAt(email, "@", 0);
    }
  }

  /** `loadUserInfo`: the three items read from local storage. */
  function LoadUserInfo(storage: Storage): (u: UserInfo)
    ensures u.email == GetItem(storage, UserEmailKey).GetOr("")
    ensures u.nickname == DisplayNickname(GetItem(storage, NicknameKey), u.email)
    ensures u.profileImage == GetItem(storage, ProfileImageKey)
  {
    var email := GetItem(storage, UserEmailKey).GetOr("");
    UserInfo(email, DisplayNickname(GetItem(storage, NicknameKey), email), GetItem(storage, ProfileImageKey))
  }

  /** A user with no nickname is called by the local part of an ordinary address. */
  lemma NicknameFromAddress(local: string, domain: string)
    requires local != "" && '@' !in local
    ensures DisplayNickname(None, local + "@" + domain) == local
  {
    var email := local + "@" + domain;
    assert email[..|local|] == local;
    assert email[|local|] == '@';
    var r := DisplayNickname(None, email);
    if r == DefaultNickname {
      FirstPieceEndsAtChar(email, '@');
      var k := FindSep(email, "@");
      assert k < |email| ==> email[k] == '@';
      assert forall j | 0 <= j < |local| :: email[j] == local[j];
      assert k == |local|;
    }
  }

  /**
   * `handleSaveProfile`: the nickname is stored, and the image is stored
   * when it is a non-empty string and removed otherwise.
   */
  function SaveProfile(nickname: string, profileImage: Option<string>): (writes: seq<Write>)
    ensures |writes| == 2 && writes[0] == StoreItem(NicknameKey, nickname)
    ensures writes[1] == (if profileImage.Some? && profileImage.value != "" then StoreItem(ProfileImageKey, profileImage.value) else RemoveItem(ProfileImageKey))
  {
    [StoreItem(NicknameKey, nickname)] +
    (if profileImage.Some? && profileImage.value != "" then [StoreItem(ProfileImageKey, profileImage.value)] else [RemoveItem(ProfileImageKey)])
  }

  /**
   * Saving and then reloading shows what was saved: the new non-empty
   * nickname, the image only when it was non-empty, the address unchanged.
   */
  lemma SaveThenLoad(storage: Storage, nickname: string, profileImage: Option<string>)
    ensures var u := LoadUserInfo(ApplyWrites(storage, SaveProfile(nickname, profileImage)));
      && u.email == GetItem(storage, UserEmailKey).GetOr("")
      && (nickname != "" ==> u.nickname == nickname)
      && u.profileImage == (if profileImage.Some? && profileImage.value != "" then profileImage else None)
  {
    var writes := SaveProfile(nickname, profileImage);
    var s1 := ApplyWrite(storage, writes[0]);
    var s2 := ApplyWrite(s1, writes[1]);
    assert ApplyWrites(storage, writes) == s2 by {
      assert writes[1..][1..] == [];
      assert ApplyWrites(s1, writes[1..]) == ApplyWrites(s2, []);
    }
  }

  // ---------------------------------------------------------------------
  // The e-mail list
  // ---------------------------------------------------------------------

  /** The status the tab asks the server for: none for all, drafts for reserved, sent for sent. */
  function RequestedStatus(tab: Tab): (r: Option<string>)
    ensures r.None? <==> tab == ShowAll
    ensures r.Some? ==> FilterGiven(r)
  {
    match tab
    case ShowAll => None
    case ShowReserved => Some("draft")
    case ShowSent => Some("sent")
  }

  /** The tab a requested status belongs to. */
  function TabOfStatus(status: Option<string>): Tab {
    match status
    case None => ShowAll
    case Some(s) => if s == "draft" then ShowReserved else ShowSent
  }

  /** Different tabs ask for different lists, and the request names its tab. */
  lemma RequestNamesTab(tab: Tab)
    ensures TabOfStatus(RequestedStatus(tab)) == tab
    ensures EmailsPath(RequestedStatus(tab)) == match tab
      case ShowAll => "/emails"
      case ShowReserved => "/emails?status=draft"
      case ShowSent => "/emails?status=sent"
  {
  }

  /**
   * The status the card shows: sent when the e-mail is sent or is a draft
   * whose scheduled time (read by `dateOf`, which gives `None` for an
   * invalid date) is not after `now`; reserved in every other case,
   * including deleted e-mails and a missing status.
   */
  function DerivedStatus(e: Email, now: int, dateOf: JsValue -> Option<int>): (s: CardStatus)
    ensures s == Sent <==> e.status == Str("sent") || IsDue(e, now, dateOf)
  {
    var status := if e.status == Str("sent") then Sent else Reserved;
    if e.status == Str("draft") && Truthy(e.scheduledAt) then
      match dateOf(e.scheduledAt)
      case Some(t) => if t <= now then Sent else status
      case None => status
    else status
  }

  /**
   * The page and the mock agree: the status the page derives for a stored
   * e-mail is the one it derives after the mock promoted it, and after
   * promotion it is simply whether the status reads "sent".
   */
  lemma DerivedStatusSurvivesPromotion(e: Email, now: int, dateOf: JsValue -> Option<int>, isoOf: int -> string)
    ensures var p := Promote(e, now, dateOf, isoOf);
      && DerivedStatus(p, now, dateOf) == DerivedStatus(e, now, dateOf)
      && (DerivedStatus(p, now, dateOf) == Sent <==> p.status == Str("sent"))
  {
    var p := Promote(e, now, dateOf, isoOf);
    if !IsDue(e, now, dateOf) {
      assert p.status == e.status && p.scheduledAt == e.scheduledAt;
    }
  }

  /**
   * The card's sticker: the icon of the first villager whose id equals the
   * e-mail's `villagerId`, else that villager's image, else "".
   */
  function Sticker(villagers: seq<Villager>, villagerId: JsValue): (r: string)
    ensures (forall i | 0 <= i < |villagers| :: Num(villagers[i].id) != villagerId) ==> r == ""
    ensures forall i | 0 <= i < |villagers| && Num(villagers[i].id) == villagerId && (forall j | 0 <= j < i :: Num(villagers[j].id) != villagerId) ::
      r == if villagers[i].iconUrl != "" then villagers[i].iconUrl else villagers[i].imageUrl
  {
    match Find(villagers, (v: Villager) => Num(v.id) == villagerId)
    case None => ""
    case Some(v) => if v.iconUrl != "" then v.iconUrl else v.imageUrl
  }

  /** The props of one read-only card; an absent date is `undefined`. */
  datatype CardProps = CardProps(
    stickerUrl: string,
    villagerName: JsValue,
    speechBubbleText: JsValue,
    textSafeAreaContent: JsValue,
    status: CardStatus,
    scheduledDate: JsValue,
    sentDate: JsValue)

  /**
   * `mapEmailToCardProps`. The speech bubble shows what the user wrote
   * (`content`, else `previewContent`); a reserved card shows the scheduled
   * time; a sent card shows when it was sent, falling back to the scheduled
   * time.
   */
  function CardOf(e: Email, villagers: seq<Villager>, now: int, dateOf: JsValue -> Option<int>): (c: CardProps)
    ensures c.status == DerivedStatus(e, now, dateOf)
    ensures c.stickerUrl == Sticker(villagers, e.villagerId)
    ensures c.villagerName == e.villagerName && c.textSafeAreaContent == e.subject
    ensures c.speechBubbleText == FirstTruthy([e.content, e.previewContent], Str(""))
    ensures Truthy(c.scheduledDate) <==> c.status == Reserved && Truthy(e.scheduledAt)
    ensures Truthy(c.scheduledDate) ==> c.scheduledDate == e.scheduledAt
    ensures !Truthy(c.scheduledDate) ==> c.scheduledDate == Undefined
    ensures Truthy(e.sentAt) ==> c.sentDate == e.sentAt
    ensures !Truthy(e.sentAt) ==> c.sentDate == (if c.status == Sent && Truthy(e.scheduledAt) then e.scheduledAt else Undefined)
  {
    var status := DerivedStatus(e, now, dateOf);
    CardProps(
      Sticker(villagers, e.villagerId),
      e.villagerName,
      Or(Or(e.content, e.previewContent), Str("")),
      e.subject,
      status,
      if status == Reserved && Truthy(e.scheduledAt) then e.scheduledAt else Undefined,
      Or(e.sentAt, if status == Sent && Truthy(e.scheduledAt) then e.scheduledAt else Undefined))
  }

  /** A card never shows its scheduled time twice: a reserved card's sent date is only a stored one. */
  lemma ScheduledTimeShownOnce(e: Email, villagers: seq<Villager>, now: int, dateOf: JsValue -> Option<int>)
    ensures var c := CardOf(e, villagers, now, dateOf);
      Truthy(c.scheduledDate) ==> c.sentDate == (if Truthy(e.sentAt) then e.sentAt else Undefined)
  {
  }

  /** Whether the tab shows a card with the given status. */
  predicate Shows(tab: Tab, status: CardStatus) {
    match tab
    case ShowAll => true
    case ShowReserved => status == Reserved
    case ShowSent => status == Sent
  }

  /** Every e-mail paired with its card props, in list order. */
  function Cards(emails: seq<Email>, villagers: seq<Villager>, now: int, dateOf: JsValue -> Option<int>): (r: seq<(Email, CardProps)>)
    ensures |r| == |emails|
    ensures forall i | 0 <= i < |emails| :: r[i] == (emails[i], CardOf(emails[i], villagers, now, dateOf))
  {
    seq(|emails|, i requires 0 <= i < |emails| => (emails[i], CardOf(emails[i], villagers, now, dateOf)))
  }

  /** The tab's test on one card: whether it shows the card's status. */
  function ShowsCard(tab: Tab): ((Email, CardProps)) -> bool {
    (p: (Email, CardProps)) => Shows(tab, p.1.status)
  }

  /**
   * The grid: the cards whose derived status the tab shows, in list order.
   * The server already filtered by stored status; this second filter uses
   * the derived one. The grid is the list read at the kept positions, which
   * increase, so each shown e-mail appears once and in its place.
   */
  function Displayed(emails: seq<Email>, tab: Tab, villagers: seq<Villager>, now: int, dateOf: JsValue -> Option<int>): (r: seq<(Email, CardProps)>)
    ensures |r| <= |emails|
    ensures forall i | 0 <= i < |r| :: r[i] in Cards(emails, villagers, now, dateOf) && Shows(tab, r[i].1.status)
    ensures forall i | 0 <= i < |emails| && Shows(tab, DerivedStatus(emails[i], now, dateOf)) ::
      (emails[i], CardOf(emails[i], villagers, now, dateOf)) in r
    ensures var positions := KeptIndices(Cards(emails, villagers, now, dateOf), ShowsCard(tab), 0);
      && |r| == |positions|
      && forall k | 0 <= k < |r| :: r[k] == (emails[positions[k]], CardOf(emails[positions[k]], villagers, now, dateOf))
  {
    var cards := Cards(emails, villagers, now, dateOf);
    assert forall i | 0 <= i < |emails| :: cards[i] == (emails[i], CardOf(emails[i], villagers, now, dateOf));
    FilterAtKeptIndices(cards, ShowsCard(tab), 0);
    assert cards[0..] == cards;
    Filter(cards, ShowsCard(tab))
  }

  /** The "all" tab shows every e-mail, in list order. */
  lemma AllTabShowsEverything(emails: seq<Email>, villagers: seq<Villager>, now: int, dateOf: JsValue -> Option<int>)
    ensures Displayed(emails, ShowAll, villagers, now, dateOf) == Cards(emails, villagers, now, dateOf)
  {
    FilterKeepsAll(Cards(emails, villagers, now, dateOf), ShowsCard(ShowAll));
  }

  /** Over the same list, the reserved and the sent tab between them show every e-mail exactly once. */
  lemma TabsPartitionList(emails: seq<Email>, villagers: seq<Villager>, now: int, dateOf: JsValue -> Option<int>)
    ensures |Displayed(emails, ShowReserved, villagers, now, dateOf)| + |Displayed(emails, ShowSent, villagers, now, dateOf)| == |emails|
  {
    FilterComplement(Cards(emails, villagers, now, dateOf), ShowsCard(ShowReserved), ShowsCard(ShowSent));
  }

  /**
   * An overdue draft that the server returns for the reserved tab is
   * dropped by the page's own filter: the reserved grid is empty although
   * the list is not.
   */
  lemma OverdueDraftLeavesReservedTab(e: Email, villagers: seq<Villager>, now: int, dateOf: JsValue -> Option<int>)
    requires IsDue(e, now, dateOf)
    ensures Displayed([e], ShowReserved, villagers, now, dateOf) == []
    ensures |Displayed([e], ShowAll, villagers, now, dateOf)| == 1
  {
    AllTabShowsEverything([e], villagers, now, dateOf);
  }

  /**
   * `response.isValid && response.villagers`: the villager list the page
   * keeps for stickers; an invalid answer leaves the previous list.
   */
  function KeptVillagers(previous: seq<Villager>, list: VillagerList): (r: seq<Villager>)
    ensures list.isValid ==> r == list.villagers
    ensures !list.isValid ==> r == previous
  {
    if list.isValid then list.villagers else previous
  }

  /** Whatever `getVillagers` answers, a page that had stickers keeps some. */
  lemma StickersNeverCleared(previous: seq<Villager>, sort: Option<string>, limit: Option<int>, baseUrl: string, reply: ApiClient.FetchReply)
    requires previous != []
    ensures KeptVillagers(previous, GetVillagers(sort, limit, baseUrl, reply).1) != []
  {
  }

  /** What the list area shows. */
  datatype Panel = LoadingPanel | ErrorToast | EmptyPanel(message: string) | Grid

  /** The message of the empty panel for each tab. */
  function EmptyMessage(tab: Tab): string {
    match tab
    case ShowAll => "아직 작성한 이메일이 없습니다."
    case ShowReserved => "예약된 이메일이 없습니다."
    case ShowSent => "전송된 이메일이 없습니다."
  }

  /**
   * The list area: loading first, then the error toast, then the empty
   * panel for an empty list, else the grid. The grid is chosen on the
   * fetched list, before the page's own status filter.
   */
  function ListPanel(isLoading: bool, hasError: bool, emails: seq<Email>, tab: Tab): (p: Panel)
    ensures p == LoadingPanel <==> isLoading
    ensures p == ErrorToast <==> !isLoading && hasError
    ensures p.EmptyPanel? <==> !isLoading && !hasError && emails == []
    ensures p == Grid <==> !isLoading && !hasError && emails != []
    ensures p.EmptyPanel? ==> p.message == EmptyMessage(tab)
  {
    if isLoading then LoadingPanel
    else if hasError then ErrorToast
    else if emails == [] then EmptyPanel(EmptyMessage(tab))
    else Grid
  }

  /** The reserved tab can show a grid with no cards in it: the empty panel only looks at the fetched list. */
  lemma BlankGridForOverdueDraft(e: Email, villagers: seq<Villager>, now: int, dateOf: JsValue -> Option<int>)
    requires IsDue(e, now, dateOf)
    ensures ListPanel(false, false, [e], ShowReserved) == Grid
    ensures Displayed([e], ShowReserved, villagers, now, dateOf) == []
  {
    OverdueDraftLeavesReservedTab(e, villagers, now, dateOf);
  }
}
