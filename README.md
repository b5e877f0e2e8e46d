# ZapMessage Pro dashboard — a Dafny model of its logic

ZapMessage Pro is a React dashboard for mass WhatsApp messaging. Through n8n webhooks it lists the
user's WhatsApp instances and pairs them by QR code. It sends messages in paced batches to
contact lists, schedules messages and suggests rewrites of a message. It also shows notifications, a campaign
history and the uploaded contact lists.

This project models the logic behind those screens:

- the notification store and its unread count;
- the QR pairing dialog, as a state machine over discrete events;
- the instance registry, with its last-selected id kept in local storage;
- the history filter, the listing search, and the notification formatter and action rules;
- the media-kind classification of the composer;
- the three send and schedule forms, each with its guards, its payload and its reset rule;
- the photo dialog's checks;
- the suggestion generator and its dialog.

Pure code in the source is modelled as functions with lemmas. That covers the list updaters, the filters, the formatters and the validators.
Components whose handlers write state cells one after another are modelled as classes. Here the state cells
are fields and each handler or callback is a method. Its `ensures` state the new value of every cell it may write.
Every remote call is replaced by its outcome, which the method receives as a parameter. This covers the n8n webhooks, `response.ok` and a
thrown error. Timers become events: the one-second countdown tick, the three-second status
poll and the 120-second polling ceiling. The browser's local storage is a `map` field.

Generic building blocks live in `Seqs` (an order-preserving filter and subsequences) and `Text`.
`Text` holds the JavaScript string operations the code relies on:

- `trim`, over JavaScript's whitespace set;
- `toLowerCase`, `includes` and `startsWith`;
- `split` and `join` on one character, and `slice`;
- the decimal rendering of integers, and `padStart(2, '0')`.

JavaScript truthiness is written out wherever the source relies on it. An empty string counts as absent in
`if (data.qrCode)`, `lastUsedId ? …`, `listing.lastUsed && …`, `notification.instanceId && …` and
`result.improved_text || message`.

Where the code and its design description differ, the model follows the code:

- retrying a pairing does not clear the previous QR code;
- the reconnect action needs a non-empty `instanceId`, not just a present one;
- the polling ceiling reports an error even after a poll has connected, because its
  `status !== 'connected'` test reads the status captured when polling started;
- a new pairing stops no timer of an earlier one: each ceiling clears only its own poll interval, so an earlier ceiling can report an error while a later pairing is still polling.

## Model

| member | source | states |
|---|---|---|
| Notifications.UnreadCountIsNumberOfUnreadPositions | src/hooks/useNotifications.ts:39 | the unread count is the number of positions holding a notification with `isRead` false |
| Notifications.UnreadCountZeroIffAllRead | src/hooks/useNotifications.ts:39 | the count is zero exactly when every notification is read |
| Notifications.MarkAsRead | src/hooks/useNotifications.ts:41-49 | same length and order; an entry is read afterwards iff it was read or carries the id; no other field of any entry changes |
| Notifications.MarkAsReadUnreadCount | src/hooks/useNotifications.ts:39-49 | the count drops by exactly the number of unread entries with that id, so it never increases |
| Notifications.MarkAsReadIdempotent | src/hooks/useNotifications.ts:41-49 | marking the same id twice equals marking it once |
| Notifications.MarkAllAsRead | src/hooks/useNotifications.ts:51-55 | same length; every entry is read and no other field changes |
| Notifications.MarkAllAsReadClearsUnread | src/hooks/useNotifications.ts:51-55 | afterwards the unread count is 0, and doing it twice equals doing it once |
| Notifications.DismissRemovesExactlyMatches | src/hooks/useNotifications.ts:57-61 | the result is an order-preserving subsequence; an entry survives iff its id differs; the length drops by the number of matches |
| Notifications.DismissAbsentIsNoop | src/hooks/useNotifications.ts:57-61 | dismissing an id no entry carries changes nothing |
| Notifications.DismissAfterMarkAsRead | src/hooks/useNotifications.ts:41-61 | marking an entry read before dismissing it makes no difference to the result |
| QRConnection.FormatTimeReadsBack | src/components/Connection/QRConnectionModal.tsx:95-99 | the label is digits, a colon, and two digits; read back, minutes times 60 plus seconds is the input, with seconds below 60 |
| QRConnection.FormatTimeExamples | src/components/Connection/QRConnectionModal.tsx:95-99 | 120 renders "2:00" and 59 renders "0:59" |
| QRConnection.QRConnectionModal.constructor | src/components/Connection/QRConnectionModal.tsx:18-20 | starts in `loading` with countdown 120, no code, and no timer pending |
| QRConnection.QRConnectionModal.OpenChanged | src/components/Connection/QRConnectionModal.tsx:22-26 | opening with a non-empty instance id starts a pairing; otherwise nothing changes |
| QRConnection.QRConnectionModal.StartReconnection | src/components/Connection/QRConnectionModal.tsx:46-53 | status `loading` and countdown 120 before the request; the previous code is kept, and every poll interval and ceiling of an earlier pairing stays pending; the invariant holds |
| QRConnection.QRConnectionModal.Retry | src/components/Connection/QRConnectionModal.tsx:154-161 | from `error`, the button restarts the pairing from a full countdown |
| QRConnection.QRConnectionModal.OnPairingResponse | src/components/Connection/QRConnectionModal.tsx:55-65 | a non-empty code gives `qr-ready`, stores it, and starts the poll and the ceiling; no code or a failed request gives `error` and starts nothing |
| QRConnection.QRConnectionModal.StartPolling | src/components/Connection/QRConnectionModal.tsx:68-93 | adds one new poll interval and one new ceiling for it, after those already pending; the ceiling keeps the status seen by the render that sent the request; every running interval still has its ceiling pending |
| QRConnection.QRConnectionModal.Tick | src/components/Connection/QRConnectionModal.tsx:28-44 | only in `qr-ready` with countdown > 0: from c > 1 gives c-1, from c <= 1 gives 0 and `error`; otherwise nothing changes; the countdown stays within 0..120 |
| QRConnection.QRConnectionModal.Poll | src/components/Connection/QRConnectionModal.tsx:69-84 | a run of a still-running interval that answers "connected" sets `connected`, clears that interval only and schedules the close; any other answer, a failed poll or a cleared interval changes nothing |
| QRConnection.QRConnectionModal.Ceiling | src/components/Connection/QRConnectionModal.tsx:86-92 | the earliest pending ceiling fires: it clears its own interval only and gives `error` unless its own captured status was `connected`, regardless of the current status; with no ceiling left no interval runs |
| QRConnection.ExpiryScenario | src/components/Connection/QRConnectionModal.tsx:28-92 | a code nobody scans: the ceiling, scheduled with the code and due before the 120th tick, fires after at most 119 ticks (exactly 119, with one second left, when the browser does not throttle its timers; this run is that case), gives `error`, and the countdown stops; no event ever yields `connecting` (class invariant) |
| QRConnection.CountdownRunsOutScenario | src/components/Connection/QRConnectionModal.tsx:28-44 | if the ticks ran out before the ceiling, the countdown alone would give `error` after exactly 120 ticks |
| QRConnection.OverlappingPairingsScenario | src/components/Connection/QRConnectionModal.tsx:22-93 | a second pairing started while the first one's ceiling is pending: that ceiling gives `error` but leaves the second interval running, whose "connected" answer then connects, and the second ceiling keeps `connected` |
| QRConnection.ConnectThenCeilingScenario | src/components/Connection/QRConnectionModal.tsx:74-92 | a poll reporting "connected" connects, and a ceiling that fires afterwards still reports `error` |
| Instances.WithStatus | src/hooks/useInstances.ts:49-53 | same length and order; the status is replaced exactly on instances with that id; every other field is kept |
| Instances.WithStatusLastWins | src/hooks/useInstances.ts:49-53 | a second status update for the same id overrides the first |
| Instances.FindById | src/hooks/useInstances.ts:29 | `find`: nothing iff no instance has the id, otherwise the first instance that has it |
| Instances.ListedInstances | src/hooks/useInstances.ts:24 | a body without `instances` yields the empty list |
| Instances.InitialSelection | src/hooks/useInstances.ts:27-30 | nothing iff the list is empty; otherwise an element of it: the first instance carrying the stored last-selected id (`FindById`, as `find` returns) when that id is non-empty and present, else the first |
| Instances.InitialSelectionAsWritten | src/hooks/useInstances.ts:23-30 | the expression as written throws exactly when the body lacks `instances`, and otherwise agrees with the corrected selection |
| Instances.MissingInstancesField | src/hooks/useInstances.ts:23-37 | a body without `instances` makes the code as written fail; the corrected rule selects nothing |
| Instances.InstanceRegistry.constructor | src/hooks/useInstances.ts:8-11 | empty list, nothing selected, loading, no error, the given store |
| Instances.InstanceRegistry.CheckInstanceStatus | src/hooks/useInstances.ts:44-61 | a failed request changes nothing; otherwise the list takes the status by id, and the selection is updated when the caller's captured selection has that id |
| Instances.InstanceRegistry.FetchInstances | src/hooks/useInstances.ts:13-42 | a failed or non-ok request sets the load error and keeps list and selection; a body replaces the list, selects the initial instance and checks its status; an empty list selects and checks nothing; loading ends |
| Instances.InstanceRegistry.SelectInstance | src/hooks/useInstances.ts:63-67 | the instance becomes selected, its id is stored under "lastSelectedInstance", and its status is checked |
| Instances.SelectionSurvivesReload | src/hooks/useInstances.ts:27-66 | after selecting an instance, a reload whose list still has it selects it again |
| History.FilteredHistoryKeepsExactlyMatches | src/pages/History.tsx:60-68 | the result is an order-preserving subsequence, an item is in it iff it passes the search, status, type and instance tests, and its length is the number of positions that pass, so repeated items are all kept |
| History.DefaultFiltersKeepEverything | src/pages/History.tsx:61-65 | empty search, both selects at "all" and no instance keep every item |
| History.InstanceMatchIsContainment | src/pages/History.tsx:65 | selecting "Instância 1" keeps an item of "Instância 10": the test is containment, not equality |
| Text.IncludesIffOccurs | src/pages/History.tsx:65 | `includes` holds exactly when the searched name occurs at some position of the instance name |
| History.NarrowingFiltersNeverAdds | src/pages/History.tsx:63-64 | moving the status or type select from "all" to a value yields a subsequence of the previous result, and so never a longer one |
| History.EmptyStateHint | src/pages/History.tsx:223-226 | the "ajustar os filtros" hint iff a search is typed or a select is off "all"; otherwise the "no campaigns yet" hint |
| History.NoCampaignsHintMeansNoHistory | src/pages/History.tsx:223-226 | with no instance selected, the "no campaigns yet" hint over an empty result means there are no items |
| Listings.FilteredListingsKeepsNameMatches | src/pages/MyListings.tsx:54-56 | the result is an order-preserving subsequence, a listing is in it iff the lowercased search occurs in its lowercased name, and its length is the number of positions that match |
| Listings.EmptySearchKeepsAll | src/pages/MyListings.tsx:55 | an empty search keeps every listing |
| Listings.ContactCountIsNotSearched | src/pages/MyListings.tsx:55-91 | searching "150" does not find a list named "Leads" with 150 contacts, although the placeholder invites it |
| Listings.Card | src/pages/MyListings.tsx:122-134 | the label is "Ativa" iff the status is "active", else "Arquivada"; the last-used line appears iff `lastUsed` is a non-empty string |
| Listings.EmptyStateText | src/pages/MyListings.tsx:176-179 | the "adjust your search" text iff the search is non-empty, else the "first upload" text |
| Listings.EmptyStateTextDependsOnlyOnSearchPresence | src/pages/MyListings.tsx:176-179 | two searches that are both empty or both non-empty give the same text |
| Listings.FirstUploadTextMeansNoListings | src/pages/MyListings.tsx:176-179 | the "first upload" text over an empty result means there are no listings |
| NotificationsPage.FormatTimeAgo | src/pages/Notifications.tsx:45-56 | under an hour, floored minutes and "min atrás"; from one hour on, a positive number of floored hours and "h atrás" |
| NotificationsPage.MinutesLabelReadsBack | src/pages/Notifications.tsx:48-52 | under an hour the number shown reads back as m with m minutes <= diff < m+1 minutes and m < 60 |
| NotificationsPage.HourBoundary | src/pages/Notifications.tsx:51-54 | 3,599,999 ms gives "59 min atrás" and 3,600,000 ms gives "1h atrás" |
| NotificationsPage.CardActions | src/pages/Notifications.tsx:119-143 | reconnect iff the type is reconnection-expired and `instanceId` is non-empty; mark-read iff unread; dismiss always, last |
| NotificationsPage.MarkAllDisabled | src/pages/Notifications.tsx:76 | "mark all" is disabled iff every notification is read (the unread count is 0) |
| NotificationsPage.MarkAsReadHidesMarkRead | src/pages/Notifications.tsx:130-134 | after marking an entry read its card no longer offers mark-read |
| NotificationsPage.MarkAllAsReadDisablesButton | src/pages/Notifications.tsx:75-76 | after "mark all" the button is disabled |
| MessageComposer.Classify | src/components/MassDispatch/MessageComposer.tsx:30-33 | exactly one kind: image iff the type starts with "image/"; otherwise pdf iff exactly "application/pdf"; otherwise document |
| MessageComposer.AttachFile | src/components/MassDispatch/MessageComposer.tsx:28-36 | the record keeps the file's name and object URL, and its kind is `Classify` of the file's MIME type |
| MessageComposer.Drop | src/components/MassDispatch/MessageComposer.tsx:38-46 | nothing iff no file was dropped; otherwise the record of the first file only |
| MessageComposer.AIButtonDisabled | src/components/MassDispatch/MessageComposer.tsx:137 | disabled iff the message is whitespace only |
| ZapMessagePro.GuardsInOrder | src/components/ZapMessagePro.tsx:63-79 | the message error iff the message is whitespace only; the list error iff the message has text and no list is chosen; no error otherwise |
| ZapMessagePro.SentMessageIsTrimmedAndNonEmpty | src/components/ZapMessagePro.tsx:63-86 | a message that passes the guards is sent non-empty and without surrounding whitespace |
| ZapMessagePro.ZapMessageForm.constructor | src/components/ZapMessagePro.tsx:16-25 | every field at its default ('', null, '', 50, 5, 15, true), both dialogs closed, not sending |
| ZapMessagePro.ZapMessageForm.HandlePhotoUpload | src/components/ZapMessagePro.tsx:36-43 | the photo is attached and the photo dialog closes |
| ZapMessagePro.ZapMessageForm.HandleRemovePhoto | src/components/ZapMessagePro.tsx:45-51 | the photo becomes null |
| ZapMessagePro.ZapMessageForm.HandleAISuggestion | src/components/ZapMessagePro.tsx:53-60 | the message is replaced by the suggestion and the AI dialog closes |
| ZapMessagePro.ZapMessageForm.HandleSendMessage | src/components/ZapMessagePro.tsx:62-129 | a failed guard returns its error and changes nothing; otherwise the payload is the trimmed message with every other field verbatim; a dispatch resets every field to its default; a network error leaves the form as it was; sending ends false |
| Dispatch.GuardsInOrder | src/pages/Index.tsx:62-87 | guards in order: the instance error iff none is selected; the message error iff there is one and the message is blank; the list error iff both pass and no list is chosen |
| Dispatch.Enhanced | src/pages/Index.tsx:37-59 | a present non-empty `improved_text` replaces the message; a missing or empty one, or a failed request, keeps it |
| Dispatch.EnhancedKeepsText | src/pages/Index.tsx:46 | the enhancement never empties a message that had text |
| Dispatch.EnabledButtonPassesInstanceGuard | src/pages/Index.tsx:62-69 | with the send button enabled, the instance guard cannot fire, and the request goes out iff the message has text and a list is chosen |
| Dispatch.PayloadCarriesAttachment | src/pages/Index.tsx:92-102 | `mediaUrl` and `mediaType` are present iff media is attached, and then carry its URL and kind; `instanceId` is the selected instance's id |
| Dispatch.DispatchForm.constructor | src/pages/Index.tsx:19-26 | empty form with the pacing defaults 50, 5, 15, true |
| Dispatch.DispatchForm.AttachMedia | src/pages/Index.tsx:158-159 | the media becomes the attachment |
| Dispatch.DispatchForm.RemoveMedia | src/pages/Index.tsx:160 | the attachment becomes null |
| Dispatch.DispatchForm.HandleAIEnhance | src/pages/Index.tsx:37-59 | the message becomes the enhanced text |
| Dispatch.DispatchForm.HandleSend | src/pages/Index.tsx:61-132 | a failed guard returns its error and changes nothing; an ok reply sends the payload and clears message, media and list; a non-ok reply or network error keeps them; pacing is never reset; sending ends false |
| Schedule.GuardsInOrder | src/pages/Schedule.tsx:52-68 | the instance error first, iff none is selected; then one error iff the message is blank or the list, date or time is empty |
| Schedule.ScheduledFor | src/pages/Schedule.tsx:73 | the date, "T", the time and ":00", each in its place |
| Schedule.ScheduledForSplitsBack | src/pages/Schedule.tsx:73 | for a date without "T", the text before the first "T" is the date again |
| Schedule.ScheduledForSplitsIntoDateAndTime | src/pages/Schedule.tsx:73 | for a date and a time without "T", splitting at "T" gives exactly the date and the time followed by ":00" |
| Schedule.EnabledButtonPassesInstanceGuard | src/pages/Schedule.tsx:52-59 | with the schedule button enabled, the instance guard cannot fire |
| Schedule.ScheduleForm.constructor | src/pages/Schedule.tsx:18-22 | four empty fields, not scheduling |
| Schedule.ScheduleForm.HandleSchedule | src/pages/Schedule.tsx:51-111 | a failed guard returns its error and changes nothing; otherwise the payload carries the instance id, the list, the trimmed message and the date-time; an ok reply clears the four fields, anything else keeps them; scheduling ends false |
| PhotoUpload.CheckFile | src/components/PhotoUploadModal.tsx:30-50 | no file; else not an image iff the type lacks the "image/" prefix, whatever the size; else too large iff above 5 MiB; else accepted |
| PhotoUpload.SizeLimitIsInclusive | src/components/PhotoUploadModal.tsx:43 | an image of exactly 5 MiB passes and one byte more is rejected |
| PhotoUpload.CheckUrl | src/components/PhotoUploadModal.tsx:74-95 | blank iff whitespace only; else invalid iff the untrimmed text does not parse; else accepted |
| PhotoUpload.PhotoUploadDialog.constructor | src/components/PhotoUploadModal.tsx:25-27 | the file tab, an empty URL, not uploading, no pending read, no callback made |
| PhotoUpload.PhotoUploadDialog.SelectMethod | src/components/PhotoUploadModal.tsx:136-150 | the chosen tab becomes current |
| PhotoUpload.PhotoUploadDialog.EditUrl | src/components/PhotoUploadModal.tsx:189 | the input holds the typed text |
| PhotoUpload.PhotoUploadDialog.HandleFileUpload | src/components/PhotoUploadModal.tsx:30-72 | the outcome is the file check; a rejected or missing file changes nothing; an accepted one starts one read and leaves `isUploading` false |
| PhotoUpload.PhotoUploadDialog.OnFileRead | src/components/PhotoUploadModal.tsx:58-61 | a finished read hands its data URL to `onUpload` |
| PhotoUpload.PhotoUploadDialog.HandleUrlUpload | src/components/PhotoUploadModal.tsx:74-95 | an accepted URL goes to `onUpload` exactly as typed and the input is cleared; a blank or invalid one calls nothing and keeps the input |
| PhotoUpload.PhotoUploadDialog.HandleRemove | src/components/PhotoUploadModal.tsx:97-100 | calls `onRemovePhoto` and then `onClose` |
| AISuggestions.ImprovementOf | src/components/AISuggestionModal.tsx:83-127 | the default branch is taken exactly for an id outside the six option ids |
| AISuggestions.Candidates | src/components/AISuggestionModal.tsx:83-128 | three candidates for each of the six options, each option's list exactly as its branch pushes it, and the text alone for any other |
| AISuggestions.GenerateMockSuggestions | src/components/AISuggestionModal.tsx:80-131 | at most three suggestions, a subsequence of the pushed candidates; a candidate is returned iff it is non-empty and its trimmed form differs from the text; the length is the number of positions holding such a candidate, so one pushed twice is returned twice |
| AISuggestions.UnknownOptionOffersTextOnlyIfUntrimmed | src/components/AISuggestionModal.tsx:126-130 | an unknown option returns the text iff it is non-empty and has surrounding whitespace, so an already trimmed text gives [] |
| AISuggestions.FramedDiffersFromText | src/components/AISuggestionModal.tsx:91-130 | any text framed by phrases with visible outer characters never trims back to the text |
| AISuggestions.FriendlyAllUseful | src/components/AISuggestionModal.tsx:91-97 | each friendly phrase around any text passes the filter |
| AISuggestions.PersuasiveAllUseful | src/components/AISuggestionModal.tsx:105-111 | each persuasive phrase with any text passes the filter |
| AISuggestions.ExpandAllUseful | src/components/AISuggestionModal.tsx:119-125 | each expand phrase after any text passes the filter |
| AISuggestions.KeepsAllThree | src/components/AISuggestionModal.tsx:130 | the filter keeps three candidates that all pass |
| AISuggestions.FramingOptionsKeepAllThree | src/components/AISuggestionModal.tsx:91-130 | for any text, untrimmed as the dialog passes it, friendly, persuasive and expand return exactly their three fixed phrases around the text |
| AISuggestions.FirstWordsArePrefix | src/components/AISuggestionModal.tsx:102 | cutting a text to its first k space-separated words gives at most k space-free words whose join with single spaces is a prefix of the text |
| AISuggestions.ShortenFirstIsWordPrefix | src/components/AISuggestionModal.tsx:114 | the first shorten candidate joins at most eight space-free words of the text with single spaces and is a prefix of it |
| AISuggestions.ShortenThirdIsFirstSentence | src/components/AISuggestionModal.tsx:116 | the third shorten candidate is a prefix of the text with no full stop in it |
| AISuggestions.SimplifyFirstIsFirstSentence | src/components/AISuggestionModal.tsx:100 | the first simplify candidate is a prefix of the text without any full stop, followed by "." |
| AISuggestions.SimplifyThirdIsWordPrefix | src/components/AISuggestionModal.tsx:102 | the third simplify candidate is at most ten space-free words of the text, a prefix of it, followed by "..." |
| AISuggestions.SuggestionDialog.constructor | src/components/AISuggestionModal.tsx:21-23 | no option, no suggestions, not loading, no callback made, so the option buttons show |
| AISuggestions.SuggestionsAfterRequest | src/components/AISuggestionModal.tsx:67-75 | after the request and in the fallback after a thrown error, the result is the same generated suggestions |
| AISuggestions.SuggestionDialog.HandleGetSuggestions | src/components/AISuggestionModal.tsx:35-78 | a message that trims to empty sends nothing and changes nothing; otherwise the request carries the untrimmed message and option; the suggestions are the generated ones whatever the outcome; loading ends |
| AISuggestions.SuggestionDialog.HandleApply | src/components/AISuggestionModal.tsx:133-137 | hands the suggestion to the parent and clears the suggestions and the option |
| AISuggestions.SuggestionDialog.HandleClose | src/components/AISuggestionModal.tsx:139-144 | tells the parent, and clears the suggestions, the option and loading, so the option buttons show again |
| AISuggestions.SuggestionDialog.BackToOptions | src/components/AISuggestionModal.tsx:207-210 | clears the suggestions and the option without a callback; with nothing loading the option buttons show |

## Left out

- Remote calls: every `fetch` to the webhooks is replaced by its outcome, passed as a parameter (a body, `ok` or not, or a thrown error). The Supabase query and the listing upload are not part of this model.
- Timers: `setInterval` and `setTimeout` become separate events (tick, poll, ceiling), and each pairing gets its own numbered poll interval and its own ceiling. The events arrive in whatever order the caller chooses, so the model does not capture their real-time spacing: it also admits orders the browser's clocks rule out, such as all 120 ticks before the ceiling. The 2-second `onClose` delay is not modelled; it appears only as a `closeScheduled` flag.
- Clock and locale: `new Date().toISOString()` is a `now` parameter; `formatTimeAgo` takes the difference in milliseconds; `toLocaleDateString` is not modelled.
- Browser APIs: `URL.createObjectURL` is a function parameter, `new URL(s)` is a `parsesAsUrl` predicate parameter, and the `FileReader` result is the argument of a separate load event.
- Text.Lower: covers ASCII and Latin-1 capitals only, because full Unicode case mapping lies beyond a character-by-character model; the search and formal-suggestion properties do not depend on it.
- AISuggestions.Rewrites: the three regular-expression replacements of the formal, simplify and shorten branches are abstract functions, so nothing is proved about their output beyond the filter.
- Toasts, console output, JSX rendering, routing and styling are not modelled; the effect of a toast (a message) carries no state the handlers read.
- Concurrency between overlapping handler invocations (a second click while a request is pending) is not modelled: each handler runs to completion with the outcome given.
- The float arithmetic of the history delivery rate and the upload size display is not part of this model.

## Findings

| source | as written | input that shows it | evidently intended | confidence | as-written member | corrected member |
|---|---|---|---|---|---|---|
| src/hooks/useInstances.ts:24-30 | `setInstances(data.instances \|\| [])` guards a missing field, but the selection then reads `data.instances.find(...)` / `data.instances[0]` directly | a 200 response with body `{}` | a missing `instances` field is an empty list: nothing selected and no load error | not executed; the TypeError is standard JavaScript | Instances.InitialSelectionAsWritten | Instances.InitialSelection |
