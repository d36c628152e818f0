# leafpost front end, modelled in Dafny

leafpost is a web app for writing short letters to game villagers. The
server rewrites each letter in the chosen villager's tone before it is
delivered, now or at a scheduled time. This project models the browser
side of that app as pure Dafny functions, and proves what each step
promises. The modelled parts are:

- the API layer (`lib/api`):
  - the fetch wrapper and its error type (`ApiClient`);
  - the error classifier `handleApiError` (`ApiErrors`);
  - the e-mail calls, including their development mocks and validation gates (`Emails`);
  - the villager calls (`Villagers`) and the popularity call (`Cards`);
- the letter card `MailCard` and the form `MailCardForm`, with the local rule fallback (`RuleFallback`);
- the debounced preview hook `useMailPreview` (`MailPreview`);
- the pages:
  - both sign-up pages (`Signup`) and the login page with its session probe (`Login`);
  - the main layout's cookie sync (`MainLayout`) and the main page (`MainPage`);
  - the my-page (`MyPage`) with its e-mail list (`EmailList`) and the profile editor (`ProfileEdit`).

Loosely typed JavaScript data is one datatype, `Js.JsValue`: undefined,
null, booleans, numbers, strings, arrays and objects. JavaScript's `||`,
`??`, truthiness and property reads are written out over it. Helpers that
the browser or the engine provides are modelled on their own, in terms
of what the source relies on:

- `trim`, `split`, `indexOf` and `slice` (`Text`);
- `filter` and `find` (`Seqs`);
- local storage and cookie writes (`Session`);
- the two regular expressions (`EmailFormat`).

Clocks, date parsing and formatting, `JSON.stringify`, the server's
reply and the session probe are function parameters. A network exchange
is one `FetchReply` value: the server answered with a status and a
parsed body, or `fetch` threw. Timers are explicit events. The preview
timer fires as a separate step, and each asynchronous handler is split
at its `await` into a "begin" and a "complete" function.

Some behaviour of the code is surprising, and the model keeps it:
- The preview hook keeps no request counter, so an older answer that
  settles last overwrites a newer one
  (`MailPreview.StaleAnswerOverwritesNewer`).
- The code validates in several places, each with its own field names,
  and they do not agree:
  - the form's payload is always refused by `sendEmail`'s gate
    (`MailCardForm.FormPayloadAlwaysRejected`);
  - the sign-up page's e-mail pattern, with its doubled backslashes,
    refuses every ordinary address
    (`Signup.AddressWithoutBackslashRefused`).

Quirks like these are modelled as written, with a lemma that exhibits
each.

## Model

| member | source | states |
|---|---|---|
| ApiClient.RequestUrl | lib/api/client.ts:59-60 | the URL ends with the path; it is the path itself exactly when the path starts with "http" or the base URL is empty, and otherwise starts with the base URL |
| ApiClient.RequestHeaders | lib/api/client.ts:45-56 | the caller's headers survive except Content-Type, which is forced to JSON unless the body is form data, and Authorization, which becomes "Bearer <token>" when a non-empty token is given; no other header is added |
| ApiClient.WrapThrown | lib/api/client.ts:86-90 | a thrown client error is rethrown unchanged; any other `Error` becomes a status-0 "Network Error" with its message, and a non-`Error` a status-0 "Unknown error" |
| ApiClient.ApiFetch | lib/api/client.ts:37-91 | the request is built from the base URL, path and config; `onUnauthorized` is awaited exactly on a 401 when a handler is given; the call succeeds exactly for a 2xx reply with a readable body and no throwing handler, and then returns body, status and status text; a non-2xx readable reply fails with "API request failed: <statusText>" carrying status and body; a thrown fetch fails through the catch |
| ApiClient.ErrorStatusZeroOnlyWithoutReply | lib/api/client.ts:76-90 | when the server never throws a client error itself, a failure has status 0 exactly when no usable reply arrived (fetch threw, the body could not be read, or the 401 handler threw) |
| ApiClient.HelperConfig | lib/api/client.ts:94-100 | each `api.<verb>` helper sets the method to the verb and keeps headers, token and handler; GET and DELETE keep the caller's body; POST, PUT and PATCH send the JSON text of the data exactly when the data is truthy and no body otherwise |
| ApiErrors.HandleApiError | lib/api/handleApiError.ts:21-117 | the four error kinds partition the statuses (401 auth, 0 network, other 4xx input, 5xx and the rest server); only network and 5xx errors may be retried, and only they keep the retry callback; input errors are shown inline, all others as toasts; each kind carries its documented message, the 4xx ones overridden for 400/403/404/422, and an unknown status shows the error's own message or a default |
| ApiErrors.ServerMessageShownForInputErrors | lib/api/handleApiError.ts:72-100 | for a 4xx status without a message of its own, a non-empty string `message` from the server reaches the user unless the body also has object-typed field errors |
| ApiErrors.WrappedFailuresAreRetryable | lib/api/handleApiError.ts:37-49 | every failure that `apiFetch` makes up itself (status 0) is classified as a network error that may be retried with the caller's callback |
| Cards.UnwrapPopularity | lib/api/cards.ts:31-41 | an object with its own `data` key is unwrapped to that value; anything else is taken as the payload itself |
| Cards.FixRankings | lib/api/cards.ts:43-59 | the payload survives exactly when it is an object or array and none of the first three rankings is null or undefined; the survivor always has an array `rankings`; an object keeps every other property, is returned unchanged when its rankings were already an array, and otherwise gets `rankings: []` |
| Cards.OnlyLoggedRankingsMustBeReadable | lib/api/cards.ts:49-57 | a null first ranking makes the call fail, while a null fourth ranking behind three object rankings is passed on untouched |
| Cards.FixRankingsIdempotent | lib/api/cards.ts:43-47 | repairing an already repaired payload changes nothing |
| Cards.GetPopularityRankings | lib/api/cards.ts:19-68 | the answer always is an object with an array `rankings`; a failed request or a payload that throws gives `{rankings: [], success: false}`, anything else the repaired payload |
| Cards.PopularityEnvelopeIsTransparent | lib/api/cards.ts:31-41 | a payload without its own `data` key gets the same answer whether it arrives bare or inside a `{data: ...}` envelope |
| Cards.PopularityFailureIsEmpty | lib/api/cards.ts:60-67 | a non-2xx status or an unreadable body yields the failure answer, whose rankings are empty and whose `success` is false |
| Cards.WrappedPayloadPassesThrough | lib/api/cards.ts:33-36 | a wrapped payload whose rankings are an array with readable logged entries reaches the caller unchanged |
| Cards.NullEnvelopeFails | lib/api/cards.ts:36-44 | an envelope whose `data` is null fails, rather than giving empty rankings |
| EmailFormat.ValidEmailFromParts | lib/api/emails.ts:456-459 | every string of the pattern's shape `local@host.tld`, each part a non-empty run without whitespace or '@', passes the e-mail test |
| EmailFormat.EmailParts | lib/api/emails.ts:456-459 | conversely, every string that passes the e-mail test is such a `local@host.tld` concatenation, so the test accepts exactly the language of the regular expression |
| EmailFormat.SignupMatchFromParts | app/auth/signup/page.tsx:26 | every string shaped `local@host\c tail`, with runs free of backslash, 's' and '@' and `c` not a line terminator, matches the sign-up page's pattern as written |
| EmailFormat.SignupParts | app/auth/signup/page.tsx:26 | conversely, every string the pattern matches splits into exactly that shape |
| EmailFormat.SignupNeedsBackslash | app/auth/signup/page.tsx:26 | no string without a backslash matches the sign-up pattern |
| EmailFormat.OrdinaryAddressPassesValidEmail | lib/api/emails.ts:456-459 | "user@example.com" passes the API's e-mail test |
| EmailFormat.OrdinaryAddressFailsSignupPattern | app/auth/signup/page.tsx:26 | the same ordinary address is refused by the sign-up page's pattern |
| EmailList.ListStatus | app/main/mypage/EmailList.tsx:75 | a card reads as sent exactly when the stored status is the string "sent"; every other status, "draft" included, reads as reserved |
| EmailList.ListCardOf | app/main/mypage/EmailList.tsx:74-90 | the bubble text is the first truthy of transformed text, original text, preview and content, else ""; the villager name falls back to "알 수 없는 주민"; only a draft shows a scheduled date, and that date is its creation time; subject and sent date pass through |
| EmailList.NormalizedTextPrefersTransformed | app/main/mypage/EmailList.tsx:76-77 | for an e-mail normalised by `getEmails`, the list shows the transformed text when there is one and otherwise the original text |
| EmailList.StatusRulesDisagreeOnOverdueDraft | app/main/mypage/EmailList.tsx:75 | an overdue draft is sent on the my-page grid but reserved in this list, while e-mails already promoted by the mock read the same on both |
| EmailList.ListViewOf | app/main/mypage/EmailList.tsx:12-95 | a failed `getEmails` shows the thrown error's own message (the client error's, or the engine's `TypeError` text for an unreadable item); an empty list shows the empty view; otherwise one card per e-mail, in order, each the e-mail's list card |
| EmailList.FetchFailureIsShown | app/main/mypage/EmailList.tsx:19-23 | every failure of `getEmails` ends in the error view, never in an empty list |
| Emails.TrimmedPayload | lib/api/emails.ts:327-331 | the validated payload has exactly the original keys plus `receiverEmail` and `subject`, those two set to the given strings and every other field unchanged |
| Emails.CheckSendPayload | lib/api/emails.ts:245-331 | the first failing check, in the source's order, rejects the payload: the reported check does fail and every earlier one passes; a payload is accepted exactly when all ten pass, and then it carries the trimmed address and the trimmed (or empty) subject |
| Emails.MockSendEmail | lib/api/emails.ts:185-231 | a stored history that does not parse, or parses to a non-array, makes the mock throw with that fault; otherwise the new e-mail goes in front of the stored history, whose elements are kept as they are; it holds the original text twice and the rule-fallback text twice, the payload's villager id, subject (or "") and schedule, and it is a draft without sending time exactly when the schedule is truthy, else sent now |
| Emails.EmailValue | lib/api/emails.ts:207-223 | an e-mail record stored as a plain object reads back field by field unchanged |
| Emails.PriorHistory | lib/api/emails.ts:192-195 | nothing stored, or the empty string, gives the empty list; a stored text that does not parse is one fault, a parsed non-array (which has no `unshift`) the other, and a parsed array is kept element by element |
| Emails.SendEmail | lib/api/emails.ts:234-362 | a payload is rejected exactly when a check fails, with that check; a passing payload goes to the mock in development (failing when the mock throws on a corrupt history) and is otherwise posted as the JSON of the trimmed payload to `/emails`, succeeding exactly on a 2xx reply with a readable body, whose data is returned |
| Emails.MockStoresOnlyDrafts | lib/api/emails.ts:217-312 | since every accepted payload has a non-blank schedule, everything the development mock stores is a draft without a sending time, keeping the untrimmed subject |
| Emails.PassingPayloadFields | lib/api/emails.ts:245-324 | a payload that passes all checks has an integer villager id and non-blank original text and schedule |
| Emails.ScheduledPayloadIsDraft | lib/api/emails.ts:217-219 | a payload with a non-blank schedule is stored by the mock as a draft without a sending time |
| Emails.CheckCardRequest | lib/api/emails.ts:471-519 | the five checks of the card preview run in order and the first failure is reported, with every earlier check passed; a passing call posts the villager id and the trimmed text, tone and address |
| Emails.PreviewEmailCard | lib/api/emails.ts:465-549 | a call is refused exactly when a check fails; development answers from the mock with the trimmed text; production posts the checked payload to `/emails/preview`, succeeds exactly on a 2xx readable reply with the reply's body, and otherwise fails with the client error's message |
| Emails.CardRequestAcceptedIff | lib/api/emails.ts:471-519 | a card preview is refused exactly when the text or the tone is blank, or the trimmed receiver is not a valid address or is longer than 255 characters |
| Emails.PreviewEmail | lib/api/emails.ts:364-416 | a blank text previews as "", a blank tone as the trimmed text, and only development with both present uses the mock; no branch contacts the server |
| Emails.PreviewIsTrimmedText | lib/api/emails.ts:396-415 | in production, or without a tone type, the preview is exactly the trimmed input |
| Emails.WithTextFields | lib/api/emails.ts:53-63 | the mock's backward-compatible record has both text pairs filled in by the fallback chains and kept equal, and no other field changes |
| Emails.Promote | lib/api/emails.ts:65-76 | a due draft becomes sent, keeping a truthy sending time or else taking the ISO form of its schedule; any other e-mail only gets its text fields filled in; nothing else changes |
| Emails.DecodeHistory | lib/api/emails.ts:42-91 | the stored history is read exactly when it parses as an array without null or undefined elements, and then element by element, in order |
| Emails.PromotedHistory | lib/api/emails.ts:51-77 | the promoted history has the same length and each entry is the promotion of the stored one |
| Emails.MockGetEmails | lib/api/emails.ts:39-101 | without a readable history the mock answers [] and writes nothing; otherwise it answers the promoted history, filtered by status when a non-empty one is given, and writes the promoted history back exactly when some draft was due |
| Emails.MockPromotionStatus | lib/api/emails.ts:65-76 | in the unfiltered answer, a due draft is listed as sent with its sending time or else its scheduled time, and every other e-mail keeps status and sending time |
| Emails.WithTextFieldsIdempotent | lib/api/emails.ts:53-63 | filling in the text fields a second time changes nothing |
| Emails.PromoteIdempotent | lib/api/emails.ts:65-76 | promoting a promoted e-mail changes nothing |
| Emails.MockReadStable | lib/api/emails.ts:39-101 | reading the written-back history again at the same instant gives the same list and has nothing more to write |
| Emails.ScheduledMockEmailIsSentWhenDue | lib/api/emails.ts:65-231 | on a readable history without `null` or `undefined` elements, the mock send succeeds and the scheduled e-mail it just stored is reported as sent by the first read at or after its scheduled time, with that time as its sending time, and the history is rewritten |
| Emails.NullInHistoryHidesEveryEmail | lib/api/emails.ts:42-223 | a `null` element already in the stored history survives the next mock send, after which the mock lists no e-mail at all, the new one included |
| Emails.UnwrapEmailList | lib/api/emails.ts:119-136 | the item list is the response itself if an array, else `data`, else `data.data`, else `items`, else `results`; a truthy non-list `data` without an inner list ends the search with [] |
| Emails.NormalizeEmail | lib/api/emails.ts:139-159 | the record takes id, subject and creation time or "", villager id or 0, status or "sent", the fallback chains for both text pairs, and passes name, sending, deletion and schedule times through |
| Emails.NormalizeEmailIdempotent | lib/api/emails.ts:139-159 | normalising a normalised record changes nothing, and its status is always truthy |
| Emails.EmailsPath | lib/api/emails.ts:112 | the path carries `?status=` exactly when a non-empty status is given |
| Emails.NormalizeEmails | lib/api/emails.ts:139-160 | the list is normalised item by item, in order, exactly when no item is null or undefined; otherwise the call fails at the first such item |
| Emails.GetEmails | lib/api/emails.ts:111-164 | a failed request fails `getEmails` with the client error itself; a successful one gives the list found in the body, normalised item by item |
| Emails.GetEmailsEnvelopesAgree | lib/api/emails.ts:104-164 | under a 2xx status, a bare array and the `{data: [...]}`, `{data: {data: [...]}}` and `{items: [...]}` envelopes of the same items give the same answer, which succeeds exactly when no item is null or undefined and then is the normalised items in order |
| Emails.GetEmailsRejectsErrorStatus | lib/api/client.ts:76-83 | a non-2xx reply fails `getEmails` with "API request failed: <statusText>", carrying status and body |
| Js.FirstTruthy | app/main/mypage/EmailList.tsx:77 | an `a || b || ... || fallback` chain yields the first truthy operand, or the fallback when none is truthy |
| Js.OrChainFirstTruthy | app/main/mypage/EmailList.tsx:77 | the left-nested chain of four `||` as written equals the first-truthy choice among its operands |
| Js.OrAssociative | lib/api/emails.ts:53-54 | regrouping a chain of `||` does not change its value |
| Js.FirstTruthyCons | lib/api/emails.ts:141-142 | one `||` step yields the head when it is truthy and otherwise the rest of the chain |
| Login.ProbeLoop | app/auth/login/page.tsx:62-94 | the loop makes between one and `maxRetries` (3 on iOS, 1 elsewhere) probes and succeeds exactly when one of them was authenticated, stopping at the first such probe; a throw counts as a failed attempt; after every failed attempt but the last it waits (k+1) seconds on iOS and 1 second elsewhere |
| Login.IosWaitsGrow | app/auth/login/page.tsx:89-93 | the iOS waits between probes strictly grow, 2000 ms then 3000 ms |
| Login.SubmitLogin | app/auth/login/page.tsx:14-132 | a throwing `login` shows its message or the default and stores and probes nothing; otherwise `userEmail` is stored, iOS waits 3 s, and the page goes to `/main` exactly when some probe was authenticated, and otherwise shows the retry message after all attempts |
| Login.AlwaysThrowingProbeFails | app/auth/login/page.tsx:79-125 | a session probe that always throws never lets the user in and uses up every attempt |
| MailPreview.OnEdit | hooks/useMailPreview.ts:20-46 | every edit cancels the armed timer; blank text empties the preview, the error and the loading flag at once; other text shows loading, clears the error and arms one timer for the new arguments, with a 500 ms default delay; calls already started are untouched |
| MailPreview.OnTimerFire | hooks/useMailPreview.ts:34-36 | a firing timer starts its call and is disarmed; with no timer armed nothing happens |
| MailPreview.ResolvedPreview | hooks/useMailPreview.ts:36-37 | the hook calls `previewEmail` without a tone type, so every call resolves with the trimmed text |
| MailPreview.OnSettle | hooks/useMailPreview.ts:35-45 | a settling call leaves the started-call list without it, keeps the timers, and ends loading; a resolved call shows the trimmed text and clears the error, a rejected one empties the preview and records the error's message or "Preview failed" |
| MailPreview.StepKeepsOneTimer | hooks/useMailPreview.ts:21-34 | every step keeps at most one timer armed, and only for non-blank text |
| MailPreview.RunKeepsOneTimer | hooks/useMailPreview.ts:20-53 | however the events of a run interleave, at most one timer is ever armed |
| MailPreview.EditFireResolveShowsTrimmedText | hooks/useMailPreview.ts:20-46 | an edit whose timer fires and whose call resolves leaves the trimmed text shown, no error, no loading and no timer |
| MailPreview.StaleAnswerOverwritesNewer | hooks/useMailPreview.ts:34-45 | the hook keeps no request counter, so an older call settling after a newer one decides the preview |
| MailPreview.SettleEndsLoadingUnderArmedTimer | hooks/useMailPreview.ts:32-44 | an older call settling after a newer edit switches loading off while the newer timer is still armed |
| MailCard.OnTextChange | components/mail/MailCard.tsx:45-64 | the preview effect cancels the pending timer; blank text clears the preview, the error and the loading flag at once; other text shows loading, clears the error and arms a timer for its trimmed form; nothing else changes |
| MailCard.OnTimerFire | components/mail/MailCard.tsx:65-84 | a firing timer shows its trimmed text locally, with no request, and ends loading; with no timer pending nothing changes |
| MailCard.PreviewEventsKeepConsistency | components/mail/MailCard.tsx:45-91 | both preview events keep "loading" true exactly while a timer for non-blank text is pending |
| MailCard.PreviewSettlesToTrimmedText | components/mail/MailCard.tsx:50-84 | after an edit to non-blank text and its timer, the preview is the trimmed text with nothing loading, no error and no timer |
| MailCard.LastEditDecides | components/mail/MailCard.tsx:46-90 | only the last edit before the timer fires decides the preview, since each edit cancels the earlier timer |
| MailCard.StrOr | components/mail/MailCard.tsx:128 | `a || b` on strings is one of its operands and is empty exactly when both are |
| MailCard.PlanSend | components/mail/MailCard.tsx:116-246 | a missing or blank tone is refused first, then an empty stored receiver; otherwise the payload carries the villager id, the stored address, the body `previewText || originalText || speechBubbleText`, the tone, the ISO form of now (or an hour later for a scheduled send) and the trimmed subject or "" |
| MailCard.ScheduledSendIsOneHourLater | components/mail/MailCard.tsx:145-244 | a scheduled send has the same body and payload as an immediate one except for its time, which is exactly one hour later |
| MailCard.CardPayloadAcceptedIff | lib/api/emails.ts:245-324 | the card's payload passes every check of `sendEmail` exactly when the stored address, trimmed, is valid and at most 255 characters, the body is not blank, the subject is at most 255 characters and the time string is non-blank and parses |
| MailCard.StringPayloadAcceptedIff | lib/api/emails.ts:245-324 | a payload of strings with an integer villager id and a non-blank tone passes `sendEmail`'s checks exactly under those same conditions |
| MailCard.BeginSend | components/mail/MailCard.tsx:110-354 | a press while sending does nothing; otherwise the messages are cleared, a failed check shows its message and ends the send at once, and only a dispatched request leaves the card sending; the preview is untouched |
| MailCard.CompleteSend | components/mail/MailCard.tsx:158-291 | sending ends either way; the parent's callback runs exactly for a readable reply, which shows the server's truthy text (else the rule fallback of the body) and takes the reply's truthy `imageUrl` as the card image (the image is otherwise kept); its success message is the "sent" text with the GPT or rule-fallback mark for a send now, and the scheduling confirmation quoting the time with the same mark for a scheduled send; a throw, or a null reply whose `imageUrl` read throws, shows the rule fallback and the error message with " (Rule fallback 적용)" appended, leaving the success message as it was; the preview is untouched |
| MailCard.NullReplyIsAFailure | components/mail/MailCard.tsx:158-192 | a 2xx reply with a null body is reported as a failure with the engine's error message, the fallback text is shown and the parent is not told |
| MailCard.SettledSendShowsTransformedText | components/mail/MailCard.tsx:101-189 | after a send of a non-empty body settles, the card shows the server's text or the rule fallback of the body, never the preview or the speech bubble |
| MailCard.SendingKeepsPreviewConsistent | components/mail/MailCard.tsx:110-199 | neither half of a send disturbs the preview bookkeeping |
| MailCardForm.FirstFailure | components/mail/MailCardForm.tsx:46-120 | the checks fire in order: an empty date (scheduled sends only), then blank content, blank receiver and blank subject; each is reported exactly when it fails and all earlier ones pass, and the form passes exactly when none fails |
| MailCardForm.PayloadOf | components/mail/MailCardForm.tsx:68-137 | the request object has exactly the keys villagerId, subject, content, fromEmail and toEmail, plus scheduledAt for a scheduled send, and no `receiverEmail` |
| MailCardForm.FormPayload | components/mail/MailCardForm.tsx:68-137 | the form's payload has those keys, the villager id, and every text field present as a string with no surrounding whitespace |
| MailCardForm.FormPayloadAlwaysRejected | components/mail/MailCardForm.tsx:68-74 | whatever the form holds, `sendEmail` rejects its payload for a missing `receiverEmail` |
| MailCardForm.NoReceiverIsRejected | lib/api/emails.ts:245-257 | a payload with an integer villager id and no `receiverEmail` fails the second check of `sendEmail` |
| MailCardForm.PressSendNow | components/mail/MailCardForm.tsx:44-318 | while sending the press is ignored; a failing check shows its message and changes nothing else; a passing form clears both messages and starts sending the trimmed payload without a date |
| MailCardForm.PressSchedule | components/mail/MailCardForm.tsx:98-333 | the first press only reveals the date field; later presses run the checks, and a passing form starts sending, either with the ISO form of the chosen date or, for an invalid date, failing before any request |
| MailCardForm.FormSendsAreRejected | components/mail/MailCardForm.tsx:66-137 | every send the form starts, now or scheduled, is refused by `sendEmail` before any request, in development and production alike |
| MailCardForm.RejectedPayloadIsNotSent | lib/api/emails.ts:245-337 | a payload that fails a check of `sendEmail` is neither stored by the mock nor posted |
| MailCardForm.UntouchedDateIsRefused | components/mail/MailCardForm.tsx:99-302 | the date field displays the default while its state is still "", so scheduling with an untouched date is refused for a missing date |
| MailCardForm.CompleteForm | components/mail/MailCardForm.tsx:76-160 | sending ends and the sender is kept; success clears content, receiver and subject, for a scheduled send also the date, hiding the date field, and shows the "sent" message, or for a scheduled send the confirmation quoting the date, leaving the error as it was; a failure keeps every input and shows the error's message or the default |
| MailCardForm.FailureKeepsInputs | components/mail/MailCardForm.tsx:87-157 | after a failed send the same checks give the same verdict, since no input changed |
| MailCardForm.DefaultDateTime | components/mail/MailCardForm.tsx:164-170 | the default date is at most the first 16 characters of the ISO form of now plus one hour, and exactly 16 when that form is long enough |
| MainLayout.NoSepWithoutFirstChar | app/main/layout.tsx:16-17 | a cookie string without the separator's first character has no separator at all, so it splits into one row |
| MainLayout.TokenRowSplit | app/main/layout.tsx:19 | a row starting with `accessToken=` splits on '=' into `accessToken` followed by the pieces of the text after the prefix |
| MainLayout.RowValue | app/main/layout.tsx:19 | the value read from a token row is the text after `accessToken=` up to the next '=' or the end of the row, and contains no '=' |
| MainLayout.CookieToken | app/main/layout.tsx:16-19 | the token is absent exactly when no row starts with `accessToken=`; otherwise it is the value of the first such row |
| MainLayout.TokenReadsBack | app/main/layout.tsx:16-19 | a lone token cookie whose value has no '=' and no ';' reads back as that value |
| MainLayout.TokenTruncatedAtEquals | app/main/layout.tsx:19 | a token value holding '=' reads back only up to its first '=' |
| MainLayout.SyncCookie | app/main/layout.tsx:11-26 | a cookie is written exactly when local storage holds a non-empty token and the cookie lookup finds no token or an empty one, and then it is the token cookie with path / and SameSite=Strict |
| MainLayout.SyncSettles | app/main/layout.tsx:11-26 | once the browser holds the written token (free of '=' and ';'), the next mount writes nothing |
| MainLayout.EmptyTokenRowIsRewritten | app/main/layout.tsx:21-23 | a present token row with an empty value still triggers a rewrite |
| MainPage.BeginFetch | app/main/page.tsx:20-23 | a fetch starts loading with the error cleared, and changes nothing else |
| MainPage.AfterFetch | app/main/page.tsx:24-42 | after the call settles loading is over and the modal is untouched; a returned array and its validity are taken over, a non-array empties the list and marks it invalid, and a throw records the `Error`'s message (or the fixed failure text), keeps the old list and marks it invalid; an error is recorded exactly when the call threw |
| MainPage.CallOf | lib/api/villagers.ts:164-235 | `getVillagers` never throws and always returns an array, so the page sees its list and validity unchanged |
| MainPage.PanelOf | app/main/page.tsx:93-154 | the loading panel exactly while loading; the error panel exactly when an error with a non-empty (truthy) message is set; otherwise the invalid panel, the villager grid or the empty panel, chosen by validity and list length, each exactly in its own case |
| MainPage.EmptyThrownMessageShowsInvalidPanel | app/main/page.tsx:36-39 | an `Error` with an empty message is recorded but falls through to the "cannot load" panel; a non-empty message, or the fixed text for a non-`Error`, is shown in the error panel |
| MainPage.NoVillagersPanelUnreachable | app/main/page.tsx:147-154 | fed by `getVillagers`, the page never shows the "no villagers yet" panel, and shows the "cannot load" panel exactly when the list is empty |
| MainPage.FetchOutcomeDecidesPanel | app/main/page.tsx:19-42 | a starting fetch shows the loading panel, and the panel after it depends only on the outcome and the previous list, not on an error left from before |
| MainPage.SelectVillager | app/main/page.tsx:69-72 | a click remembers the villager and opens the modal, and changes nothing else |
| MainPage.CloseModal | app/main/page.tsx:74-77 | closing hides the modal and forgets the villager, and changes nothing else |
| MainPage.ModalVillager | app/main/page.tsx:157 | the form is shown exactly when the modal is open and a villager is selected, and it is for that villager |
| MainPage.SelectThenClose | app/main/page.tsx:69-77 | picking a villager shows its form; closing hides it and restores the state before the pick |
| Villagers.FirstNonBlank | lib/api/villagers.ts:66-95 | no result exactly when none of the candidates is a non-blank string; a result is never blank |
| Villagers.OwnToneType | lib/api/villagers.ts:66-74 | a tone type read from a holder's own fields is never blank |
| Villagers.ToneTypeOf | lib/api/villagers.ts:65-95 | a record's tone type, when it has one, is never blank |
| Villagers.FirstNonBlankAppend | lib/api/villagers.ts:65-95 | searching candidates in two groups finds the first group's hit, or else the second's |
| Villagers.OwnToneTypeIsFirstField | lib/api/villagers.ts:66-74 | a holder's own tone type is the first non-blank of `toneType` and `tone_type`, in that order |
| Villagers.ToneTypeIsFirstCandidate | lib/api/villagers.ts:65-95 | the tone type is the first non-blank string among the record's fields, then the first `tones` element's, then the `tone` object's, with `tone` consulted only when `tones` is not a non-empty array |
| Villagers.TonesBlockTone | lib/api/villagers.ts:76-95 | a non-empty `tones` array whose first element has no tone type hides a good `tone.toneType`: the record gets no tone type |
| Villagers.UsageCount | lib/api/villagers.ts:112-116 | no usage count exactly when none of `usageCount`, `usage_count`, `count` is a number |
| Villagers.UsageCountIsFirstNumber | lib/api/villagers.ts:112-116 | the usage count is the first of the three fields, in order, that holds a number |
| Villagers.NormalizeVillager | lib/api/villagers.ts:33-137 | a record is kept exactly when it is an object with a numeric id, a string name, a non-empty string image URL and some tone type; the kept villager carries those fields, the image URL again as icon, `previewText ?? ""` as tone example, and the usage count |
| Villagers.NormalizeVillagers | lib/api/villagers.ts:142-146 | the result holds every record that normalises and nothing else, is no longer than the input, is empty exactly when no record normalises, and every tone type in it is non-blank |
| Villagers.NormalizeVillagersSingleton | lib/api/villagers.ts:142-146 | one record gives itself normalised, or nothing |
| Villagers.NormalizeVillagersAppend | lib/api/villagers.ts:142-146 | normalising works record by record: normalising a concatenation concatenates the normalised parts, so order is kept |
| Villagers.VillagerParamsMeaning | lib/api/villagers.ts:167-173 | `sort` is present exactly when "popular" was asked for, and only as "popular"; `limit` is present exactly when a positive limit was asked for, as a decimal numeral between 1 and 100 equal to the request unless that exceeds 100 |
| Villagers.VillagersPath | lib/api/villagers.ts:175-176 | the path is plain "/villagers" exactly when no parameter is sent |
| Villagers.ClassifyVillagers | lib/api/villagers.ts:193-225 | a bare array and an object whose `data` is an array are normalised; every other shape is the invalid empty list; a list is valid exactly when non-empty |
| Villagers.GetVillagers | lib/api/villagers.ts:164-235 | the request is a GET of the villagers path; a failed request gives the invalid empty list instead of throwing; a successful one is classified by its body; validity always means a non-empty list |
| Villagers.GetVillagersEnvelopesAgree | lib/api/villagers.ts:193-210 | a bare array and the same array under `data` give the same list, the normalised records, valid exactly when one record normalises |
| Villagers.GetVillagersFailureIsInvalid | lib/api/villagers.ts:226-234 | a request that throws gives the invalid empty list |
| Villagers.GetVillagerById | lib/api/villagers.ts:237-258 | a failed request propagates the client error; otherwise the result is a villager exactly when the body is a non-array object whose record (its object `data`, else itself) normalises, and the fixed "bad detail" error otherwise |
| Villagers.WrappedDetailReadsAsBare | lib/api/villagers.ts:248-249 | a record wrapped as `{data: record}` reads as the bare record |
| MyPage.DisplayNickname | app/main/mypage/page.tsx:26 | the shown name is never empty: the stored nickname when non-empty, else the address up to its first '@' when that is non-empty, else the default name, which is what an empty address or one starting with '@' gets |
| MyPage.LeadingAtGivesNoLocalPart | app/main/mypage/page.tsx:26 | an address starting with '@' splits into an empty first piece |
| MyPage.LoadUserInfo | app/main/mypage/page.tsx:23-35 | the page shows the stored address (or ""), the nickname derived from the stored nickname and that address, and the stored image or none |
| MyPage.NicknameFromAddress | app/main/mypage/page.tsx:26 | with no stored nickname, an ordinary address `local@domain` gives the name `local` |
| MyPage.SaveProfile | app/main/mypage/page.tsx:64-71 | saving stores the nickname, then stores the image when it is a non-empty string and removes it otherwise |
| MyPage.SaveThenLoad | app/main/mypage/page.tsx:64-72 | after a save the reloaded info has the address unchanged, the saved nickname when non-empty, and the image exactly when a non-empty one was saved |
| MyPage.RequestedStatus | app/main/mypage/page.tsx:116-118 | the "all" tab sends no status filter; the other tabs send one the e-mail API accepts |
| MyPage.RequestNamesTab | app/main/mypage/page.tsx:116-119 | the tab can be read back from the status it requests, and the three tabs request "/emails", "/emails?status=draft" and "/emails?status=sent" |
| MyPage.DerivedStatus | app/main/mypage/page.tsx:149-156 | a card is sent exactly when the e-mail is stored as sent or is a draft whose valid scheduled time is not after now |
| MyPage.DerivedStatusSurvivesPromotion | app/main/mypage/page.tsx:149-156 | the derived status of a stored e-mail is unchanged by the mock's promotion of overdue drafts, and after promotion it is just whether the status reads "sent" |
| MyPage.Sticker | app/main/mypage/page.tsx:162-163 | the sticker is "" when no villager has the e-mail's id; otherwise it is the icon (else the image) of the first villager with that id |
| MyPage.CardOf | app/main/mypage/page.tsx:147-175 | the card's status is the derived one; its sticker, name and subject come from the e-mail; its text is the first truthy of content and preview; it shows a scheduled date exactly when reserved with a scheduled time; its sent date is the stored one, else the scheduled time of a sent card, else undefined |
| MyPage.ScheduledTimeShownOnce | app/main/mypage/page.tsx:171-172 | a card showing a scheduled date shows as sent date only a stored one, never the scheduled time again |
| MyPage.Cards | app/main/mypage/page.tsx:327-331 | every e-mail is paired with its card props, position by position |
| MyPage.Displayed | app/main/mypage/page.tsx:327-341 | the grid holds exactly the cards whose derived status the tab shows: every one of them, nothing else, and in list order at increasing positions, so each appears once |
| MyPage.AllTabShowsEverything | app/main/mypage/page.tsx:334 | the "all" tab shows every e-mail's card, in order |
| MyPage.TabsPartitionList | app/main/mypage/page.tsx:335-336 | over one list, the reserved and the sent tab together show as many cards as there are e-mails |
| MyPage.OverdueDraftLeavesReservedTab | app/main/mypage/page.tsx:149-156 | an overdue draft is dropped from the reserved grid but shown on the "all" tab |
| MyPage.KeptVillagers | app/main/mypage/page.tsx:81-84 | the sticker villagers are replaced only by a valid answer; an invalid one keeps the previous list |
| MyPage.StickersNeverCleared | app/main/mypage/page.tsx:79-88 | whatever `getVillagers` answers, a page that had sticker villagers still has some |
| MyPage.ListPanel | app/main/mypage/page.tsx:277-325 | loading first, then the error toast, then the tab's empty message for an empty fetched list, else the grid, each exactly in its own case |
| MyPage.BlankGridForOverdueDraft | app/main/mypage/page.tsx:307-341 | the reserved tab can show a grid with no cards: a fetched overdue draft picks the grid panel but is filtered out of it |
| ProfileEdit.FileRefusal | components/user/ProfileEdit.tsx:27-36 | a file is accepted exactly when its type starts with "image/" and it is at most 5 MiB; a non-image gets the "images only" alert, an oversized image the "5MB" alert |
| ProfileEdit.ChangeImage | components/user/ProfileEdit.tsx:23-46 | no file changes nothing; a refused file raises its alert and changes nothing; an accepted file's data URL becomes both the image to save and the preview; the nickname is never touched |
| ProfileEdit.SizeLimitInclusive | components/user/ProfileEdit.tsx:33 | an image of exactly 5 MiB is accepted and one byte more is refused as too large |
| ProfileEdit.TypeCheckedBeforeSize | components/user/ProfileEdit.tsx:27-36 | an oversized non-image file is refused as not an image |
| ProfileEdit.Save | components/user/ProfileEdit.tsx:48-54 | saving alerts exactly when the nickname is blank; otherwise `onSave` gets the trimmed, non-empty nickname and the current image |
| ProfileEdit.RemoveImage | components/user/ProfileEdit.tsx:56-62 | removing clears both the image to save and the preview and keeps the nickname |
| ProfileEdit.SaveIsStable | components/user/ProfileEdit.tsx:48-54 | an editor opened on what was saved saves the same thing again |
| ProfileEdit.SavedProfileIsShown | components/user/ProfileEdit.tsx:53 | through the my-page's save handler, the page next shows the trimmed nickname, and no image when none was set |
| ProfileEdit.RemoveThenSaveClearsImage | components/user/ProfileEdit.tsx:56-62 | with a non-blank nickname, removing the image and saving leaves no stored image |
| RuleFallback.ApplyRuleFallback | components/mail/MailCard.tsx:103-108 | the text keeps its length and every character except '.', which becomes '~' |
| RuleFallback.FallbackRemovesDots | components/mail/MailCard.tsx:103-108 | no full stop survives, and every other character stays where it was |
| RuleFallback.FallbackIdempotent | lib/api/emails.ts:187-190 | applying the replacement twice is the same as applying it once |
| RuleFallback.FallbackAppend | components/mail/MailCard.tsx:103-108 | the replacement works character by character, so it distributes over concatenation |
| RuleFallback.FallbackFixesDotFree | lib/api/emails.ts:187-190 | a text with no full stop comes back unchanged |
| Seqs.Filter | lib/api/emails.ts:86 | a filter's result is no longer than its input, holds only elements of the input that pass the test, and holds every element that passes |
| Seqs.FilterAppend | app/main/mypage/page.tsx:332-338 | filtering a concatenation concatenates the filtered parts, so survivors keep their relative order |
| Seqs.FilterSingleton | lib/api/villagers.ts:145 | a one-element list keeps its element exactly when it passes |
| Seqs.FilterKeepsAll | app/main/mypage/page.tsx:334 | a test that every element passes changes nothing |
| Seqs.FilterComplement | app/main/mypage/page.tsx:335-336 | two complementary tests split a list: their results' lengths add up to the list's |
| Seqs.KeptIndices | app/main/mypage/page.tsx:332-338 | the positions of the passing elements, strictly increasing, each passing, and every passing position included |
| Seqs.FilterAtKeptIndices | app/main/mypage/page.tsx:332-338 | a filter's result is the list read at the passing positions, in order |
| Seqs.Find | app/main/layout.tsx:18 | `find` gives the first element that passes, and nothing exactly when none passes |
| Seqs.FindStep | app/main/mypage/page.tsx:162 | `find` checks the head first and searches the tail only when the head fails |
| Session.ApplyWrite | app/main/mypage/page.tsx:66-70 | `setItem` makes its key read back as the stored value, `removeItem` makes it read back as absent, and no other key (and nothing at all for a cookie write) changes |
| Session.TokenCookie | app/auth/signup/page.tsx:74-76 | the cookie text starts with `name=` and continues with the value followed by `; path=/; SameSite=Strict` |
| Session.SaveTokens | app/auth/signup/page.tsx:69-81 | with a truthy access token the page stores the access token, then the refresh token when that is truthy, then writes the access cookie, then the refresh cookie when the refresh token is truthy, and goes to /main; otherwise it writes nothing and goes to /login |
| Session.SaveTokensReadBack | app/auth/signup/page.tsx:69-77 | after a successful sign-up, local storage reads back the access token, and the refresh token exactly when it was truthy (otherwise an earlier value under that key survives); every other key is untouched, and without an access token nothing changes |
| Signup.FieldErrors | app/auth/signup/page.tsx:24-40 | every check is made: each field has an error exactly when its own check fails (email empty or not matching the pattern, password empty or under 8, nickname blank, confirmation empty or different), with that field's message, and no other key appears |
| Signup.AddError | app/auth/signup/page.tsx:26-40 | a failed check sets its key to its message, a passed one changes nothing, and every other entry stays |
| Signup.AddressWithoutBackslashRefused | app/auth/signup/page.tsx:26 | the pattern as written (doubled backslashes) needs a literal backslash, so every address without one gets the email error |
| Signup.ErrorsObject | app/auth/signup/page.tsx:42-43 | the stored error object has exactly the failing keys, each with its message |
| Signup.Submit | app/auth/signup/page.tsx:19-47 | nothing is sent exactly when a field check fails, and then the error object is shown; otherwise errors are cleared, loading starts, and a FormData POST to /users/signup carrying email, password, the untrimmed nickname and the image (no Content-Type header) is made |
| Signup.SentFormPassedEveryCheck | app/auth/signup/page.tsx:42-47 | a form that is sent has a matching email, a password of at least 8 characters, an equal confirmation and a non-blank nickname |
| Signup.Edit | app/auth/signup/page.tsx:204-311 | typing changes only the edited field and clears only its error, leaving every other error, loading, the form error and the image alone |
| Signup.EditClearingIdempotent | app/auth/signup/page.tsx:204-311 | editing a field twice leaves the same errors as editing it once |
| Signup.ClientErrorReaction | app/auth/signup/page.tsx:127-163 | 401 goes to /login exactly and shows nothing; a 4xx whose body carries non-empty field errors shows only those; any other failure shows the `handleApiError` message, with the retry suffix exactly for status 0 and 5xx, and without it for other non-4xx statuses |
| Signup.FailureReaction | app/auth/signup/page.tsx:126-168 | a client error reacts as above; another `Error` shows its own message; any other thrown value shows the fixed failure text |
| Signup.UnauthorizedRedirectsSilently | app/signup/page.tsx:94-99 | a 401 sends the user to /login with no message and no field errors |
| Signup.SuffixMarksRetryable | app/auth/signup/page.tsx:155-163 | outside 4xx, the suffix is added exactly when `handleApiError` says the failure can be retried |
| Signup.RetryFailure | app/auth/signup/page.tsx:82-87 | a failed retry shows a message exactly when it threw a client error, and then the plain `handleApiError` message |
| Signup.RetryShowsSessionExpired | app/signup/page.tsx:54-59 | a 401 during a retry shows the session-expired message instead of redirecting |
| Signup.Finish | app/auth/signup/page.tsx:103-171 | loading always ends; a reply stores the tokens and navigates exactly as the token rule says; a failure writes nothing, navigates only where its reaction redirects, and shows its reaction's message and field errors |
| Signup.BasicSubmit | app/signup/page.tsx:17-70 | the short page refuses exactly when the two passwords differ, with the mismatch message; otherwise it POSTs the JSON `{email, password}` to /auth/signup with a JSON content type |
| Signup.BasicHandlerAcceptsWhatFullHandlerRefuses | app/signup/page.tsx:22-27 | the short page's submit handler builds the sign-up request for an empty email and password, which the full page's handler refuses on both fields |
| Text.SpacesFrom | components/mail/MailCard.tsx:50 | the whitespace run starting at a position ends at the first non-whitespace character or at the end |
| Text.SpacesBefore | components/mail/MailCard.tsx:50 | the whitespace run ending at a position starts just after a non-whitespace character or at the start |
| Text.LeadingSpaces | components/mail/MailCard.tsx:50 | `trim` removes at most the whole string from the front |
| Text.Trim | components/mail/MailCard.tsx:50 | `trim` gives a contiguous middle piece of the string that neither starts nor ends with whitespace, with only whitespace cut on both sides |
| Text.TrimEmptyIffBlank | components/user/ProfileEdit.tsx:49 | `!s.trim()` holds exactly when the string is empty or all whitespace |
| Text.TrimIdempotent | components/user/ProfileEdit.tsx:53 | trimming a trimmed string changes nothing |
| Text.Prefix | components/mail/MailCardForm.tsx:167 | `slice(0, n)` gives the first `n` characters, or the whole string when it is shorter |
| Text.IndexOfChar | lib/api/emails.ts:456-459 | the first position holding the character, or the length when there is none |
| Text.FindSepFrom | app/main/layout.tsx:17 | the first occurrence of the separator at or after a position, or the length when there is none |
| Text.FindSep | app/main/layout.tsx:17 | `indexOf(sep)`: the first occurrence of the separator, or the length when there is none |
| Text.OccursInPrefix | app/main/layout.tsx:17 | an occurrence that fits inside a prefix is an occurrence in the whole string, and conversely |
| Text.Split | app/main/layout.tsx:17 | `split` always gives at least one piece |
| Text.SplitJoin | app/main/layout.tsx:17 | joining the pieces of a split with the same separator gives back the string |
| Text.SplitPiecesFree | app/main/layout.tsx:17-19 | no piece of a split contains the separator |
| Text.NoCharBeforeFirst | app/main/mypage/page.tsx:26 | the text before the first occurrence of a character does not contain it |
| Text.FirstPieceEndsAtChar | app/main/mypage/page.tsx:26 | the first piece of a split on a character is the text up to its first occurrence, which holds that character, or the whole string |
| Text.NatToDecimal | lib/api/villagers.ts:172 | the numeral of a non-negative integer is a non-empty run of digits without a leading zero |
| Text.DecimalRoundTrip | lib/api/villagers.ts:172 | reading the numeral back gives the number |
| Text.IntToDecimal | lib/api/villagers.ts:238 | `String(i)` of an integer is a non-empty numeral that reads back as the integer, after a leading minus sign for a negative one |

## Left out

- Network, storage and navigation I/O are not performed. The reply of
  `fetch`, the body parse, the clock, the probe and the browser's
  storage are parameters or plain values, and navigation is a returned
  path. Console logging is dropped everywhere; no modelled branch
  depends on it except where a log line throws, and those throws are
  modelled.
- Concurrency is not modelled: overlapping refetches on focus or
  visibility events, and listeners registered by effects. Each handler
  is a function of the state it starts from.
- NaN and the infinities are not JavaScript numbers here. `Num` holds a
  real, so arithmetic and comparisons on them are not modelled.
- Emails.CheckSendPayload: string lengths are counted in code points,
  not UTF-16 units. A string with characters outside the Basic
  Multilingual Plane is shorter here than `.length` says. The 255-unit
  limits on the receiver and the subject therefore admit more text than
  the source does.
- Emails.CheckCardRequest: the same code-point count applies to the
  preview card's length checks.
- Emails.SendEmail: inherits the code-point count of
  Emails.CheckSendPayload.
- MailCard.CardPayloadAcceptedIff: inherits the code-point count of
  Emails.CheckSendPayload.
- Signup.PasswordRejected: the 8-character minimum counts code points.
  A password of four astral characters is 8 UTF-16 units. The source
  accepts it; the model refuses it.
- Signup.FieldErrors: inherits the code-point count of
  Signup.PasswordRejected.
- MailCard.ScheduledSendIsOneHourLater: one hour later is `now + 3600000`
  ms. The source uses local-time `setHours(getHours() + 1)`, which
  differs across a daylight-saving change.
- MailCard.PlanSend: adds the same 3600000 ms for a scheduled send.
- MailCardForm.DefaultDateTime: adds the same 3600000 ms before
  formatting.
- MailCard.BeginSend: the 3000 ms and 5000 ms timers that later clear
  the success or error message are not modelled. A shown message stays
  until the next press.
- MailCard.CompleteSend: the same message timers are left out.
- MailCardForm.CompleteForm: the same 3000 ms and 5000 ms message
  timers are left out.
- MailCardForm.PressSendNow: the 3000 ms timer that clears a validation
  message is left out.
- MailCardForm.PressSchedule: the same validation-message timer is left
  out.
- Cards.FixRankings: for an array payload the source adds a `rankings`
  property to the array itself and returns the array. The model returns
  an object holding only `rankings: []`. Both give the same answer to a
  read of `rankings`. The array's elements and length are not carried
  over.
- Villagers.VillagerParamsMeaning: `limit` is an integer. A fractional
  JavaScript number would be sent as a decimal fraction, which the model
  does not produce.
- Villagers.NormalizeVillager: `id` is any number, so the model keeps a
  fractional id just as the source does. The ids compared against it
  elsewhere (`villagerId` in MyPage.Sticker, the path of
  Villagers.GetVillagerById) are integers.
- Emails.MockSendEmail: one clock reading gives the id, `createdAt` and
  `sentAt`. The source calls `Date.now()` and `new Date()` separately,
  so they can differ by a millisecond.
- Emails.MockSendEmail: runs as in a browser. The branch where
  `window` is undefined, which stores nothing, is left out. The stored
  record keeps `sentAt` as undefined where `JSON.stringify` drops the
  key; both read back as undefined.
- Mock preview strings are not modelled. `mockPreviewEmail` and
  `mockPreviewEmailCard` build placeholder text and URLs, and the
  previews are modelled through their validation and their server
  reply.
- `MailCard.handleDelete` is not modelled: it only shows a message and
  closes a modal.
- Message texts that interpolate a value keep their fixed part only,
  where a lemma states the prefix. The locale date in the scheduled
  success message is a parameter.
- Emails.DecodeHistory: a history element that is not an object reads
  as an empty record.
- MailCard.OnTimerFire: the catch branch of the local preview is left
  out. The local preview is a trim, which cannot throw.
- Login.ProbeLoop: the session probe `checkAuth` is a parameter.
  lib/api/auth.ts exports `signup`, `login`, `logout` and `refresh`,
  but no `checkAuth`. The dynamic import at app/auth/login/page.tsx:62
  therefore gives `undefined`, and the call at line 71 throws a
  `TypeError` inside the `try` on every attempt. As written, every login
  ends with the retry message; Login.AlwaysThrowingProbeFails states
  that run.
- The login page's user-agent tests are a parameter. `isIOS` is kept
  where it changes the run: the wait before probing, the retry count
  and the retry waits (Login.IosWaitsGrow). `isMobile` and `isAndroid`
  only select log lines and are left out.
- Audio, presentation-only components, `Header`, the hooks other than
  `useMailPreview`, and `middleware.ts` are not part of this model.
  They hold no decision logic of the core.
- The profile-image field's own error clearing on the full sign-up page
  is not modelled. `Signup.Edit` covers the four text fields.
- MailCard.StringPayloadAcceptedIff: inherits the code-point count of
  Emails.CheckSendPayload, so its 255 limits on the receiver and the
  subject admit astral text the source refuses.
- Emails.GetEmails: models the production path only. The development
  dispatch to `mockGetEmails` (lib/api/emails.ts:106-109) is not part
  of this member; Emails.MockGetEmails models the mock itself.
- MailCard.CompleteSend: the parent's `onSendNow` callback is assumed
  to return. A throw from it happens inside the `try`
  (components/mail/MailCard.tsx:180) and would reach the catch branch
  after the success message was set; that path is not modelled.
- Signup.Submit: models the submit handler only. The browser's
  constraint validation of the `required` inputs and of
  `type="email"` runs before the handler and can block a submit; it is
  not modelled. The browser's e-mail syntax has no backslash, while the
  full page's address check demands one, so through a browser the full
  page can never reach its request.
- Signup.BasicSubmit: the same handler-level view; the short page's
  `required` inputs block an empty submit before the handler runs.
- Signup.SentFormPassedEveryCheck: states what the handler checks, not
  the browser's constraint validation before it.
- Emails.CardRequestAcceptedIff: inherits the code-point count of
  Emails.CheckCardRequest, so its 255 limit admits astral text the
  source refuses.
