/**
 * app/main/page.tsx: the main page lists the villagers returned by
 * `getVillagers`, falls back to an explanatory panel when the answer is not
 * usable, and opens the mail-card form in a modal for the villager the
 * user picks.
 */
module MainPage {
  import opened Wrappers
  import opened ApiClient
  import opened Villagers

  /** The message shown for a thrown value that is not an `Error`. */
  const LoadFailedMessage := "주민 목록을 불러오는데 실패했습니다."

  /**
   * How the `getVillagers()` call ended: it returned (`villagers` is `None`
   * when the field is not an array), or it threw (with the message of an
   * `Error`, or `None` for any other value).
   */
  datatype VillagersCall = Returned(villagers: Option<seq<Villager>>, isValid: bool) | Threw(message: Option<string>)

  /** The page's state; `error` is `None` when there is none. */
  datatype PageState = PageState(
    villagers: seq<Villager>,
    isLoading: bool,
    error: Option<string>,
    isValidResponse: bool,
    selected: Option<Villager>,
    isModalOpen: bool)

  /** The state on first render. */
  const InitialPage := PageState([], true, None, true, None, false)

  /**
   * `fetchVillagers` as it starts: loading, with the previous error cleared.
   * The list, its validity and the modal are left as they were.
   */
  function BeginFetch(s: PageState): (r: PageState)
    ensures r.isLoading && r.error.None?
    ensures r.(isLoading := s.isLoading, error := s.error) == s
  {
    s.(isLoading := true, error := None)
  }

  /**
   * `fetchVillagers` once the call has settled. A returned array and its
   * validity are taken over; a non-array empties the list and marks it
   * invalid; a throw records the message and marks the response invalid but
   * keeps the previous list. The modal state is not touched.
   */
  function AfterFetch(s: PageState, call: VillagersCall): (r: PageState)
    ensures !r.isLoading
    ensures r.selected == s.selected && r.isModalOpen == s.isModalOpen
    ensures r.error.None? <==> call.Returned?
    ensures call.Returned? && call.villagers.Some? ==> r.villagers == call.villagers.value && r.isValidResponse == call.isValid
    ensures call.Returned? && call.villagers.None? ==> r.villagers == [] && !r.isValidResponse
    ensures call.Threw? ==> r.villagers == s.villagers && !r.isValidResponse && r.error == Some(call.message.GetOr(LoadFailedMessage))
  {
    match call
    case Returned(villagers, isValid) =>
      if villagers.Some? then s.(villagers := villagers.value, isLoading := false, error := None, isValidResponse := isValid)
      else s.(villagers := [], isLoading := false, error := None, isValidResponse := false)
    case Threw(message) =>
      s.(isLoading := false, error := Some(message.GetOr(LoadFailedMessage)), isValidResponse := false)
  }

  /** The call as `getVillagers` makes it: it never throws and always returns an array. */
  function CallOf(list: VillagerList): (c: VillagersCall)
    ensures c.Returned? && c.villagers == Some(list.villagers) && c.isValid == list.isValid
  {
    Returned(Some(list.villagers), list.isValid)
  }

  /** What the villager area shows. */
  datatype Panel = Loading | ErrorPanel(message: string) | InvalidPanel | VillagerGrid(villagers: seq<Villager>) | NoVillagers

  /**
   * Whether the page has an error to show. The page tests `error` for
   * truthiness, so an empty message counts as no error.
   */
  predicate ShowsError(s: PageState) {
    s.error.Some? && s.error.value != ""
  }

  /**
   * The villager area. Once loading is over and there is no error, exactly
   * one of the invalid, grid and empty panels is chosen, by validity and
   * list length.
   */
  function PanelOf(s: PageState): (p: Panel)
    ensures p == Loading <==> s.isLoading
    ensures p.ErrorPanel? <==> !s.isLoading && s.error.Some? && s.error.value != ""
    ensures p.ErrorPanel? ==> Some(p.message) == s.error && p.message != ""
    ensures p == InvalidPanel <==> !s.isLoading && !ShowsError(s) && !s.isValidResponse
    ensures p.VillagerGrid? <==> !s.isLoading && !ShowsError(s) && s.isValidResponse && |s.villagers| > 0
    ensures p.VillagerGrid? ==> p.villagers == s.villagers
    ensures p == NoVillagers <==> !s.isLoading && !ShowsError(s) && s.isValidResponse && s.villagers == []
  {
    if s.isLoading then Loading
    else if ShowsError(s) then ErrorPanel(s.error.value)
    else if !s.isValidResponse then InvalidPanel
    else if |s.villagers| > 0 then VillagerGrid(s.villagers)
    else NoVillagers
  }

  /**
   * An `Error` thrown with an empty message is recorded but not shown: the
   * page falls through to the "no data" panel, since the throw marked the
   * response invalid. A non-empty message is shown as it is.
   */
  lemma EmptyThrownMessageShowsInvalidPanel(s: PageState, message: string)
    ensures PanelOf(AfterFetch(s, Threw(Some("")))) == InvalidPanel
    ensures message != "" ==> PanelOf(AfterFetch(s, Threw(Some(message)))) == ErrorPanel(message)
    ensures PanelOf(AfterFetch(s, Threw(None))) == ErrorPanel(LoadFailedMessage)
  {
  }

  /**
   * The "valid but empty" panel cannot follow a fetch through
   * `getVillagers`, whatever the server answers: validity there means a
   * non-empty list.
   */
  lemma NoVillagersPanelUnreachable(s: PageState, sort: Option<string>, limit: Option<int>, baseUrl: string, reply: FetchReply)
    ensures var list := GetVillagers(sort, limit, baseUrl, reply).1;
      && PanelOf(AfterFetch(s, CallOf(list))) != NoVillagers
      && (PanelOf(AfterFetch(s, CallOf(list))) == InvalidPanel <==> list.villagers == [])
  {
  }

  /**
   * A fetch that starts shows the loading panel, and once it settles the
   * panel depends on its outcome alone, not on an error left from before.
   */
  lemma FetchOutcomeDecidesPanel(s: PageState, t: PageState, call: VillagersCall)
    requires s.villagers == t.villagers && s.isValidResponse == t.isValidResponse
    ensures PanelOf(BeginFetch(s)) == Loading
    ensures PanelOf(AfterFetch(BeginFetch(s), call)) == PanelOf(AfterFetch(BeginFetch(t), call))
  {
  }

  /** `handleVillagerClick`: remember the villager and open the modal. */
  function SelectVillager(s: PageState, v: Villager): (r: PageState)
    ensures r.selected == Some(v) && r.isModalOpen
    ensures r.(selected := s.selected, isModalOpen := s.isModalOpen) == s
  {
    s.(selected := Some(v), isModalOpen := true)
  }

  /** `handleCloseModal`: close the modal and forget the villager. */
  function CloseModal(s: PageState): (r: PageState)
    ensures r.selected.None? && !r.isModalOpen
    ensures r.(selected := s.selected, isModalOpen := s.isModalOpen) == s
  {
    s.(selected := None, isModalOpen := false)
  }

  /** The villager whose form the modal shows: one only while it is open and a villager is selected. */
  function ModalVillager(s: PageState): (r: Option<Villager>)
    ensures r.Some? <==> s.isModalOpen && s.selected.Some?
    ensures r.Some? ==> r == s.selected
  {
    if s.isModalOpen && s.selected.Some? then s.selected else None
  }

  /** Picking a villager shows its form; closing hides it and returns to the state before the pick. */
  lemma SelectThenClose(s: PageState, v: Villager)
    requires s.selected.None? && !s.isModalOpen
    ensures ModalVillager(SelectVillager(s, v)) == Some(v)
    ensures ModalVillager(CloseModal(SelectVillager(s, v))).None?
    ensures CloseModal(SelectVillager(s, v)) == s
  {
  }
}
