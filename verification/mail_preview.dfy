/**
 * hooks/useMailPreview.ts: the debounced preview hook as a state machine.
 * An edit (any change of the text, the villager or the delay) cancels the
 * armed timer and, for non-blank text, arms a new one; a timer going off
 * starts a `previewEmail` call; each call settles on its own. The hook keeps
 * no request counter, so calls may settle in any order and the last one to
 * settle decides the preview.
 */
module MailPreview {
  import opened Text
  import opened Wrappers
  import opened Emails

  /** The delay used when the caller gives none, in milliseconds. */
  const DefaultDebounceMs := 500

  /** The message of the error a rejection records when the thrown value is not an `Error`. */
  const PreviewFailedMessage := "Preview failed"

  /** The arguments of one `previewEmail(villagerId, originalText)` call. */
  datatype PreviewCall = PreviewCall(villagerId: int, text: string)

  /** An armed timer: the call it will start and after how long. */
  datatype Timer = Timer(call: PreviewCall, delayMs: int)

  /**
   * The hook's state: what it returns (`previewText`, `isLoading`, `error`),
   * the timers armed and not cleared, and the calls started and not settled.
   */
  datatype HookState = HookState(
    previewText: string,
    isLoading: bool,
    error: Option<string>,
    timers: seq<Timer>,
    inFlight: seq<PreviewCall>)

  const InitialHook := HookState("", false, None, [], [])

  /** How a started call settles: resolved, or rejected with the thrown error's message (if it was an `Error`). */
  datatype Settlement = Resolved | Rejected(message: Option<string>)

  /** The events the hook reacts to. */
  datatype HookEvent =
    | Edit(villagerId: int, text: string, debounceMs: Option<int>)
    | TimerFire
    | Settle(index: nat, outcome: Settlement)

  /**
   * The effect: clear the armed timer; for blank text empty the preview at
   * once; otherwise show "loading" and arm a timer for the new arguments.
   */
  function OnEdit(s: HookState, villagerId: int, text: string, debounceMs: Option<int>): (r: HookState)
    ensures r.inFlight == s.inFlight
    ensures IsBlank(text) ==> r == s.(previewText := "", error := None, isLoading := false, timers := [])
    ensures !IsBlank(text) ==>
      r == s.(isLoading := true, error := None, timers := [Timer(PreviewCall(villagerId, text), debounceMs.GetOr(DefaultDebounceMs))])
  {
    TrimEmptyIffBlank(text);
    if Trim(text) == [] then s.(previewText := "", error := None, isLoading := false, timers := [])
    else s.(isLoading := true, error := None, timers := [Timer(PreviewCall(villagerId, text), debounceMs.GetOr(DefaultDebounceMs))])
  }

  /** The armed timer goes off and starts its call; with no timer armed nothing happens. */
  function OnTimerFire(s: HookState): (r: HookState)
    ensures s.timers == [] ==> r == s
    ensures s.timers != [] ==> r == s.(timers := s.timers[1..], inFlight := s.inFlight + [s.timers[0].call])
  {
    if s.timers == [] then s
    else s.(timers := s.timers[1..], inFlight := s.inFlight + [s.timers[0].call])
  }

  /**
   * The preview a call resolves with: `previewEmail` is called without a
   * tone type, so (in production and in development alike) it answers with
   * the trimmed text.
   */
  function ResolvedPreview(call: PreviewCall, development: bool): (text: string)
    ensures text == Trim(call.text)
  {
    PreviewIsTrimmedText(call.villagerId, call.text, "", development);
    PreviewEmail(call.villagerId, call.text, "", development).text
  }

  /** A started call settles: its result or its error replaces the preview, and loading ends either way. */
  function OnSettle(s: HookState, index: nat, outcome: Settlement, development: bool): (r: HookState)
    requires index < |s.inFlight|
    ensures r.timers == s.timers && !r.isLoading
    ensures r.inFlight == s.inFlight[..index] + s.inFlight[index + 1..]
    ensures outcome.Resolved? ==> r.previewText == Trim(s.inFlight[index].text) && r.error.None?
    ensures outcome.Rejected? ==> r.previewText == "" && r.error == Some(outcome.message.GetOr(PreviewFailedMessage))
  {
    var call := s.inFlight[index];
    var rest := s.inFlight[..index] + s.inFlight[index + 1..];
    match outcome
    case Resolved => s.(previewText := ResolvedPreview(call, development), error := None, isLoading := false, inFlight := rest)
    case Rejected(message) => s.(previewText := "", error := Some(message.GetOr(PreviewFailedMessage)), isLoading := false, inFlight := rest)
  }

  /** Whether an event can happen in a state: only a started call can settle. */
  predicate Enabled(s: HookState, e: HookEvent) {
    e.Settle? ==> e.index < |s.inFlight|
  }

  /** One step of the hook. */
  function Step(s: HookState, e: HookEvent, development: bool): HookState
    requires Enabled(s, e)
  {
    match e
    case Edit(villagerId, text, debounceMs) => OnEdit(s, villagerId, text, debounceMs)
    case TimerFire => OnTimerFire(s)
    case Settle(index, outcome) => OnSettle(s, index, outcome, development)
  }

  /** At most one timer is armed, and it is armed only for non-blank text. */
  predicate TimersWellFormed(s: HookState) {
    && |s.timers| <= 1
    && (forall i | 0 <= i < |s.timers| :: !IsBlank(s.timers[i].call.text))
  }

  /** Every step keeps at most one timer armed, since every edit clears the previous one. */
  lemma StepKeepsOneTimer(s: HookState, e: HookEvent, development: bool)
    requires Enabled(s, e) && TimersWellFormed(s)
    ensures TimersWellFormed(Step(s, e, development))
  {
  }

  /** Runs a sequence of events, as long as each is enabled; the result says whether all were. */
  function Run(s: HookState, events: seq<HookEvent>, development: bool): (r: (HookState, bool))
    decreases |events|
  {
    if events == [] then (s, true)
    else if !Enabled(s, events[0]) then (s, false)
    else Run(Step(s, events[0], development), events[1..], development)
  }

  /** From the initial state, no run ever arms two timers at once. */
  lemma {:induction false} RunKeepsOneTimer(s: HookState, events: seq<HookEvent>, development: bool)
    requires TimersWellFormed(s)
    ensures TimersWellFormed(Run(s, events, development).0)
    decreases |events|
  {
    if events != [] && Enabled(s, events[0]) {
      StepKeepsOneTimer(s, events[0], development);
      RunKeepsOneTimer(Step(s, events[0], development), events[1..], development);
    }
  }

  /** Editing, letting the timer fire and the call resolve shows the trimmed text. */
  lemma EditFireResolveShowsTrimmedText(s: HookState, villagerId: int, text: string, debounceMs: Option<int>, development: bool)
    requires !IsBlank(text)
    ensures var fired := OnTimerFire(OnEdit(s, villagerId, text, debounceMs));
      && |fired.inFlight| == |s.inFlight| + 1
      && var r := OnSettle(fired, |s.inFlight|, Resolved, development);
      && r.previewText == Trim(text) && r.error.None? && !r.isLoading && r.timers == []
  {
  }

  /**
   * Nothing rejects a stale answer: when the call for the newer text settles
   * first and the call for the older text after it, the older text is what
   * the hook shows.
   */
  lemma StaleAnswerOverwritesNewer(older: PreviewCall, newer: PreviewCall, development: bool)
    ensures var s := InitialHook.(inFlight := [older, newer]);
      var afterNewer := OnSettle(s, 1, Resolved, development);
      |afterNewer.inFlight| == 1 &&
      OnSettle(afterNewer, 0, Resolved, development).previewText == Trim(older.text)
  {
    var s := InitialHook.(inFlight := [older, newer]);
    assert s.inFlight[..1] + s.inFlight[2..] == [older];
  }

  /**
   * A call settling after a newer edit switches loading off while the newer
   * timer is still armed: "not loading" does not mean the preview is current.
   */
  lemma SettleEndsLoadingUnderArmedTimer(s: HookState, villagerId: int, text: string, debounceMs: Option<int>, development: bool)
    requires |s.inFlight| > 0 && !IsBlank(text)
    ensures var edited := OnEdit(s, villagerId, text, debounceMs);
      var r := OnSettle(edited, 0, Resolved, development);
      edited.isLoading && !r.isLoading && |r.timers| == 1
  {
  }
}
