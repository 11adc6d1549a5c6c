# D-CODE web: a Dafny model of the guided tour's screens and stores

D-CODE is a browser app for a guided tour of Daejeon. On the main screen a first-time
visitor picks a nickname and sees where they are. They then plan an itinerary of three
destinations. After that they chat with the character 꿈돌이: scripted options, free text
sent to a chat-completion service, and a photo scan that unlocks the ending screen. The
browser's `localStorage` holds the nickname, the settings, the user info and the
notification list.

This project models that core in Dafny:

- `wrappers.dfy`: `Option` and JavaScript truthiness of an optional string.
- `js_strings.dfy`: the JavaScript string operations the app relies on.
  - `trim` and the `\s` class.
  - `includes`, `split` and `join`.
  - `slice` clamping.
  - `length` in UTF-16 code units.
  - The decimal rendering of a status code.
- `lists.dfy`: `filter(x => !ys.includes(x))` and its laws.
- `gpt_service.dfy`: the chat-service adapter (`src/services/gptService.ts`).
  - The system prompt and the history window.
  - The request's message list.
  - The error classifier and what `chat` returns or throws.
- `notification_storage.dfy`: `src/utils/notificationStorage.ts`, a class over the parsed
  stored list.
- `user_storage.dfy`: `src/utils/userStorage.ts`, a class over the key/value store, with
  the settings merge.
- `nickname_modal.dfy`: `src/components/NicknameModal.tsx`.
  - Validation, in its order of checks.
  - Live error text, submit, Enter, and the delayed completion.
- `places.dfy`: the destination catalogue shared by both destination dialogs, and the
  "" guard of their distance labels.
- `destination_alert_modal.dfy`: the "set all destinations" dialog
  (`src/components/DestinationAlertModal.tsx`).
- `destination_modal.dfy`: the single-pick dialog (`src/components/DestinationModal.tsx`).
- `journey_planning_screen.dfy`: the itinerary screen
  (`src/components/JourneyPlanningScreen.tsx`). It has three slots, "" marks an empty
  slot, and it hands off to the chat.
- `chat_screen.dfy`: `src/components/ChatScreen.tsx`.
  - The scenario table and the seeded greeting.
  - Option clicks and free-text sends.
  - The photo capture and the hand-off to the ending screen.
- `main_screen.dfy`: `src/components/MainScreen.tsx`.
  - The mount effect and the nickname dialog's completion.
  - The address text produced by reverse geocoding.

React state that a handler updates becomes a field of a Dafny class, and `modifies` names
it. For each handler the `ensures` give the new value of every field the handler changes.
The two scenario methods `JourneyPlanningScreen.PlanWithAlertModal` and
`MainScreen.ReturningVisitSkipsDialog` are exceptions: they state only the outcome they
are about. The pure parts of each handler become
functions with lemmas about them.

Some inputs come from outside the program and become parameters:

- the clock, as `now` / `nowId`;
- the geolocation and `fetch` outcomes, as `GeoOutcome`, `Reverse` and `FetchOutcome`;
- the captured image data URL, as `captured`;
- the environment's API key, as `GptService.FromEnvironment(env)`.

Timers are handled as follows:

- A reply delay is taken as immediate.
- The nickname dialog's 500 ms completion is a queue of scheduled names, `timers`.
- The free-text send is split at its `await` into `BeginSend` and `FinishSend`.

## Model

| member | source | states |
|---|---|---|
| JsStrings.Trim | src/components/NicknameModal.tsx:38 | the result is a contiguous piece of the input; everything cut from either end is whitespace; the result has no whitespace at either end |
| JsStrings.IsWhitespace | src/components/NicknameModal.tsx:27 | the ECMAScript white space and line terminators that `\s` matches and `trim` strips; its laws are those of Trim, TrimFixedIffTrimmed and TrimEmptyIffBlank |
| JsStrings.TrimFixedIffTrimmed | src/components/NicknameModal.tsx:38 | trimming leaves a string unchanged exactly when it has no whitespace at either end |
| JsStrings.TrimEmptyIffBlank | src/components/ChatScreen.tsx:716 | `s.trim()` is falsy exactly when every character of `s` is whitespace (both directions) |
| JsStrings.TrimIdempotent | src/components/NicknameModal.tsx:57-58 | trimming a trimmed string changes nothing |
| JsStrings.Includes | src/services/gptService.ts:129-139 | `includes`: the piece occurs at some index; what it decides for status texts is stated by IncludesAfterDigitFreePrefix and StatusIncludes |
| JsStrings.Join | src/components/MainScreen.tsx:136-137 | `join`: the pieces with the separator between neighbours; its meaning is fixed by JoinEmptyIff, JoinSplit and SplitJoin |
| JsStrings.JoinEmptyIff | src/components/MainScreen.tsx:137 | joining non-empty parts gives "" exactly when there are no parts |
| JsStrings.Split | src/components/MainScreen.tsx:149-150 | `split` always yields at least one piece |
| JsStrings.JoinSplit | src/components/MainScreen.tsx:149-152 | joining the pieces of a split with the same separator gives back the original string |
| JsStrings.SplitJoin | src/components/MainScreen.tsx:149-152 | splitting a join of pieces that do not contain the separator's first character gives back exactly those pieces |
| JsStrings.SplitWithoutSeparator | src/components/MainScreen.tsx:149-150 | a string without the separator's first character splits into itself alone |
| JsStrings.SplitAfterPiece | src/components/MainScreen.tsx:149-150 | a piece free of the separator, then the separator, then a rest splits into that piece followed by the split of the rest |
| JsStrings.SliceClamped | src/components/MainScreen.tsx:151 | `slice(lo, hi)` is the plain sub-sequence when the bounds fit; otherwise its length is clamped to the sequence, and each entry i of the result is entry lo + i of the input |
| JsStrings.Utf16Length | src/components/NicknameModal.tsx:19-26 | `length` counts between one and two units per character, and exactly one each when no character is outside the basic plane |
| JsStrings.Decimal | src/services/gptService.ts:95 | the status rendered in decimal is non-empty and all digits |
| JsStrings.DecimalThreeDigits | src/services/gptService.ts:95 | a three-digit status is rendered as its hundreds, tens and units digits |
| JsStrings.DecimalInjectiveThreeDigits | src/services/gptService.ts:95 | two three-digit statuses render the same exactly when they are equal |
| JsStrings.IncludesAfterDigitFreePrefix | src/services/gptService.ts:130-134 | after a prefix without digits, a code of the same length as the rendered status occurs exactly when it is that status |
| Lists.Exclude | src/components/DestinationModal.tsx:138-142 | the filter is never longer than its input; what it keeps is stated by ExcludeMembers, ExcludeAppend, ExcludeNone and ExcludeNoDuplicates |
| Lists.ExcludeMembers | src/components/DestinationModal.tsx:138-139 | `xs.filter(x => !ys.includes(x))` holds x exactly when x is in xs and not in ys |
| Lists.ExcludeAppend | src/components/DestinationAlertModal.tsx:101 | filtering distributes over concatenation, so the survivors keep their order |
| Lists.ExcludeNone | src/components/DestinationModal.tsx:138-139 | filtering out names none of which occur changes nothing |
| Lists.ExcludeNoDuplicates | src/components/DestinationModal.tsx:138-139 | filtering a list without duplicates leaves a list without duplicates |
| Lists.RemoveOnce | src/components/DestinationAlertModal.tsx:101 | removing a name that occurs once removes that occurrence and keeps the rest in order |
| Lists.AppendThenRemove | src/components/DestinationAlertModal.tsx:100-107 | appending an absent name and then filtering it out restores the list |
| Lists.OccursOnlyAt | src/components/DestinationAlertModal.tsx:100-101 | in a list without duplicates, the entry at k occurs neither before nor after k |
| GptService.RoleOf | src/services/gptService.ts:118 | `isUser ? "user" : "assistant"`; CreateConversationHistory states the roles it gives |
| GptService.SystemPrompt | src/services/gptService.ts:29-59 | the persona text has the destination inserted verbatim at a fixed position |
| GptService.CreateConversationHistory | src/services/gptService.ts:112-121 | the last min(8, n) turns, oldest first; user turns become user messages and all others assistant messages; text verbatim; never a system message |
| GptService.HistoryAppend | src/services/gptService.ts:115-116 | one more turn slides the window: the turn enters at the end, and once eight are kept the oldest leaves |
| GptService.BuildMessages | src/services/gptService.ts:72-76 | the system prompt comes first, then the history unchanged, then the user's message |
| GptService.ErrorMessage | src/services/gptService.ts:129-139 | the first of "401", "429", "500" in the message picks the reply (key, rate limit, server); none of them picks the generic reply; each an if-and-only-if |
| GptService.IsOk | src/services/gptService.ts:94 | `response.ok`, a status from 200 to 299; OkReply and StatusErrorClassification state both sides of it |
| GptService.ReplyFor | src/services/gptService.ts:94-101 | the reply `chat` returns once the request has been sent; ReplyNonEmpty, OkReply and StatusErrorClassification state it for every outcome |
| GptService.ReplyNonEmpty | src/services/gptService.ts:94-108 | whatever the request produced, `chat` returns a non-empty text |
| GptService.OkReply | src/services/gptService.ts:99-102 | an OK response returns its content verbatim when non-empty, and the apology when the content is missing or empty |
| GptService.StatusIncludes | src/services/gptService.ts:95 | the thrown status text contains a three-digit code exactly when the status is that code |
| GptService.StatusErrorClassification | src/services/gptService.ts:94-96 | for a non-OK status, 401, 429 and 500 get their own messages and every other status the generic one (both directions) |
| GptService.GptService.FromEnvironment | src/services/gptService.ts:19-26 | the key is the environment value, or "" when there is none |
| GptService.GptService.IsApiKeyValid | src/services/gptService.ts:124-126 | true exactly when the key is non-empty |
| GptService.GptService.Chat | src/services/gptService.ts:62-109 | it throws, with the missing-key message, exactly when there is no key; otherwise it sends the built message list and returns the non-empty reply for what the request produced |
| NotificationStorage.UnreadCount | src/utils/notificationStorage.ts:71-74 | the number of unread entries never exceeds the list's length |
| NotificationStorage.MarkRead | src/utils/notificationStorage.ts:79-81 | same length, and entry by entry: an entry with the given id becomes read, every other entry is kept |
| NotificationStorage.MarkAllRead | src/utils/notificationStorage.ts:88-91 | same length, and every entry becomes read with its other fields kept |
| NotificationStorage.Remove | src/utils/notificationStorage.ts:96-102 | the survivors are exactly the entries with another id, and the length drops by the number of entries with that id |
| NotificationStorage.MarkReadUnread | src/utils/notificationStorage.ts:77-83 | marking an id read lowers the unread count by exactly the unread entries with that id |
| NotificationStorage.MarkReadIdempotent | src/utils/notificationStorage.ts:77-83 | marking the same id read twice equals marking it once |
| NotificationStorage.MarkReadEffect | src/utils/notificationStorage.ts:79-81 | only `isRead` changes, and it becomes true exactly for the given id; order, ids and the other fields stay |
| NotificationStorage.MarkAllReadUnread | src/utils/notificationStorage.ts:86-93 | after marking everything read the unread count is zero |
| NotificationStorage.RemoveAppend | src/utils/notificationStorage.ts:98-100 | deleting distributes over concatenation, so the survivors keep their relative order |
| NotificationStorage.RemoveAbsent | src/utils/notificationStorage.ts:96-102 | deleting an id nobody has changes nothing |
| NotificationStorage.RemoveUnread | src/utils/notificationStorage.ts:96-102 | deleting lowers the unread count by exactly the unread entries with that id |
| NotificationStorage.DefaultsUnread | src/utils/notificationStorage.ts:15-48 | two of the four default notifications are unread |
| NotificationStorage.NotificationStore.GetNotifications | src/utils/notificationStorage.ts:51-59 | the stored list, or the defaults when nothing is stored |
| NotificationStorage.NotificationStore.GetUnreadCount | src/utils/notificationStorage.ts:71-74 | the unread count of what `getNotifications` returns, which is 2 when nothing is stored |
| NotificationStorage.NotificationStore.MarkNotificationAsRead | src/utils/notificationStorage.ts:77-83 | the stored list becomes the marked list, and the unread count does not rise |
| NotificationStorage.NotificationStore.MarkAllNotificationsAsRead | src/utils/notificationStorage.ts:86-93 | the stored list becomes the all-read list, and the unread count is zero |
| NotificationStorage.NotificationStore.DeleteNotification | src/utils/notificationStorage.ts:96-102 | the stored list becomes the filtered list, and the unread count does not rise |
| NotificationStorage.NotificationStore.AddNotification | src/utils/notificationStorage.ts:105-115 | the new entry, with the given id, goes in front, and the old list follows unchanged |
| NotificationStorage.NotificationStore.InitializeNotifications | src/utils/notificationStorage.ts:118-123 | writes the defaults only when nothing is stored; what is read afterwards equals what was read before |
| UserStorage.Merge | src/utils/userStorage.ts:101-126 | `{...base, ...over}`: each field the stored object has wins, and each field it lacks keeps its base value |
| UserStorage.MergeFull | src/utils/userStorage.ts:101-113 | a complete stored object overrides every default |
| UserStorage.MergeEmpty | src/utils/userStorage.ts:116-126 | an empty stored object leaves the defaults |
| UserStorage.UserStore.GetNickname | src/utils/userStorage.ts:69-76 | the stored nickname, and `null` exactly when the key is absent |
| UserStorage.UserStore.IsFirstVisit | src/utils/userStorage.ts:79-87 | true exactly when the flag is absent or is exactly "true" |
| UserStorage.UserStore.GetUserInfo | src/utils/userStorage.ts:90-98 | the stored user info, and `null` exactly when the key is absent |
| UserStorage.UserStore.GetEmail | src/utils/userStorage.ts:151-158 | the stored email, and `null` exactly when the key is absent |
| UserStorage.UserStore.GetUserSettings | src/utils/userStorage.ts:116-126 | the defaults when nothing is stored, and otherwise the defaults overridden by what is stored |
| UserStorage.StoredInfo | src/utils/userStorage.ts:90-98 | the parsed user info, and `null` exactly when the key is absent |
| UserStorage.AfterSaveNickname | src/utils/userStorage.ts:34-66 | the nickname is stored and the first visit is marked done; the user info is created with the default email and `now` as both times, or keeps its email and creation time and gets the new nickname and last login; every other key is untouched |
| UserStorage.UserStore.SaveNickname | src/utils/userStorage.ts:34-66 | the new store is `AfterSaveNickname` of the old one, so the nickname reads back and the first visit is over, and the user info is created or updated as there |
| UserStorage.UserStore.SaveUserSettings | src/utils/userStorage.ts:101-113 | the settings read afterwards are the old ones with exactly the given fields replaced |
| UserStorage.UserStore.SaveEmail | src/utils/userStorage.ts:129-148 | always stores the email; updates the email and last login of the user info only when there is user info |
| UserStorage.UserStore.ClearUserData | src/utils/userStorage.ts:161-171 | removes the four keys in turn and then the user info; every other key stays; afterwards every getter reports nothing stored |
| UserStorage.UserStore.UpdateLastLogin | src/utils/userStorage.ts:191-204 | only the last-login time of existing user info changes, and nothing changes without user info |
| NicknameModal.Message | src/components/NicknameModal.tsx:19-29 | every rejection reason has a non-empty message |
| NicknameModal.AllowedChar | src/components/NicknameModal.tsx:27 | one character of `[가-힣a-zA-Z0-9\s]`; AcceptedShape and AstralCharacterCountsTwice state what it admits |
| NicknameModal.MatchesCharset | src/components/NicknameModal.tsx:27 | `/^[가-힣a-zA-Z0-9\s]+$/.test(name)`: non-empty and every character allowed; Validate's acceptance iff is stated with it |
| NicknameModal.Validate | src/components/NicknameModal.tsx:18-33 | length in UTF-16 units is checked against 2, then against 10, then the character class; a name is accepted exactly when it passes all three |
| NicknameModal.ErrorText | src/components/NicknameModal.tsx:18-33 | the error is cleared exactly when the name is accepted |
| NicknameModal.AcceptedShape | src/components/NicknameModal.tsx:18-33 | an accepted name has 2 to 10 characters, all Hangul syllables, Latin letters, digits or whitespace |
| NicknameModal.TooShortBeforeCharset | src/components/NicknameModal.tsx:19-22 | any single one-unit character is too short, even one outside the class |
| NicknameModal.AstralCharacterCountsTwice | src/components/NicknameModal.tsx:19-29 | one emoji counts as two units, passes the length checks and fails the character class |
| NicknameModal.TooLongBeforeCharset | src/components/NicknameModal.tsx:23-26 | a name that is both too long and outside the class is reported as too long |
| NicknameModal.HangulAccepted | src/components/NicknameModal.tsx:18-33 | a three-syllable Hangul name is accepted |
| NicknameModal.NicknameModal.constructor | src/components/NicknameModal.tsx:14-16 | empty name and error, not submitting, nothing scheduled |
| NicknameModal.NicknameModal.HandleInputChange | src/components/NicknameModal.tsx:52-62 | stores the raw value; the error is cleared for blank input and otherwise is the verdict on the trimmed value |
| NicknameModal.NicknameModal.HandleSubmit | src/components/NicknameModal.tsx:35-50 | the error is the verdict on the trimmed name; only an accepted name starts submitting and schedules its completion |
| NicknameModal.NicknameModal.HandleKeyPress | src/components/NicknameModal.tsx:64-68 | Enter submits unless a submission is in progress; any other key, or Enter while submitting, changes nothing |
| NicknameModal.NicknameModal.CompleteSubmit | src/components/NicknameModal.tsx:46-49 | the completion hands on the oldest scheduled name, which is trimmed and accepted, and submitting ends |
| Places.CatalogueWellFormed | src/components/DestinationModal.tsx:14-29 | every listed destination has coordinates, is non-empty and is listed once; every name with coordinates is listed |
| Places.DistanceLabel | src/components/DestinationAlertModal.tsx:50-61 | the label is "" exactly when there is no position or the name has no coordinates, and otherwise it is the measured figure |
| DestinationAlertModal.AlertModal.constructor | src/components/DestinationAlertModal.tsx:85-87 | nothing is selected |
| DestinationAlertModal.AlertModal.VisibleChanged | src/components/DestinationAlertModal.tsx:90-94 | opening the dialog clears the selection; closing it keeps it |
| DestinationAlertModal.AlertModal.Toggle | src/components/DestinationAlertModal.tsx:98-110 | a selected name is filtered out; a new name is appended unless three are selected; the selection stays at most three distinct, non-empty names |
| DestinationAlertModal.AlertModal.SetAll | src/components/DestinationAlertModal.tsx:112-119 | hands on a list exactly when three are selected; the list is the first three in pick order, distinct and non-empty |
| DestinationAlertModal.AlertModal.HandleClose | src/components/DestinationAlertModal.tsx:121-124 | the selection is cleared |
| DestinationAlertModal.UntoggleDeletesOne | src/components/DestinationAlertModal.tsx:100-101 | un-toggling the name at position k deletes exactly that position |
| DestinationAlertModal.ToggleTwiceRestores | src/components/DestinationAlertModal.tsx:98-110 | on a dialog with fewer than three picks, toggling a new name twice leaves the selection as it was |
| DestinationAlertModal.PickThree | src/components/DestinationAlertModal.tsx:90-119 | in a freshly opened dialog, toggling three distinct names and then "set all" hands on exactly those three in toggle order |
| DestinationModal.Available | src/components/DestinationModal.tsx:138-145 | the offered list is never longer than the catalogue |
| DestinationModal.ListingFor | src/components/DestinationModal.tsx:137-169 | the offered names when any remain, and otherwise the "all selected" message |
| DestinationModal.AvailableMembers | src/components/DestinationModal.tsx:138-145 | a destination is offered exactly when it is in the catalogue and not yet selected |
| DestinationModal.AvailableShape | src/components/DestinationModal.tsx:138-145 | the offered list has no duplicates, and with nothing selected it is the whole catalogue in order |
| DestinationModal.AllSelectedIff | src/components/DestinationModal.tsx:165-168 | the "all selected" message shows exactly when every destination is selected |
| DestinationModal.ThreeSlotsLeaveChoices | src/components/JourneyPlanningScreen.tsx:355-361 | with the planning screen's three slots as the selection, some destination is always offered |
| DestinationModal.PickModal.constructor | src/components/DestinationModal.tsx:88 | nothing is picked |
| DestinationModal.PickModal.VisibleChanged | src/components/DestinationModal.tsx:91-95 | hiding the dialog clears the pick; showing it keeps it |
| DestinationModal.PickModal.Select | src/components/DestinationModal.tsx:99-101 | the new pick replaces the old one |
| DestinationModal.PickModal.Confirm | src/components/DestinationModal.tsx:103-109 | with a pick, hands it on and clears it; without one, does nothing |
| DestinationModal.PickModal.HandleClose | src/components/DestinationModal.tsx:111-114 | the pick is cleared |
| JourneyPlanningScreen.EmptyCount | src/components/JourneyPlanningScreen.tsx:161-163 | the number of empty slots is zero exactly when no slot is empty, and the whole length exactly when every slot is empty |
| JourneyPlanningScreen.FirstEmpty | src/components/JourneyPlanningScreen.tsx:147 | `findIndex`: -1 exactly when no slot is empty; otherwise an empty slot with no empty slot before it |
| JourneyPlanningScreen.Fill | src/components/JourneyPlanningScreen.tsx:147-151 | the slots after a pick keep their number; FillEffect states which slot is written |
| JourneyPlanningScreen.FillEffect | src/components/JourneyPlanningScreen.tsx:145-153 | filling writes the first empty slot and no other, changes nothing when none is empty, and with a name leaves one empty slot fewer |
| JourneyPlanningScreen.ClearEffect | src/components/JourneyPlanningScreen.tsx:174-178 | emptying a filled slot leaves one empty slot more |
| JourneyPlanningScreen.CountAfterWrite | src/components/JourneyPlanningScreen.tsx:174-178 | how overwriting one slot changes the number of empty slots |
| JourneyPlanningScreen.ThreePicksFillInOrder | src/components/JourneyPlanningScreen.tsx:36-40 | three picks on the initial itinerary fill the slots in pick order, after which none is empty |
| JourneyPlanningScreen.ObservatoryOnlyHere | src/components/JourneyPlanningScreen.tsx:50-57 | with a known position this screen labels the observatory, whose name the dialogs' table lacks, and labels every other name as the dialogs do |
| JourneyPlanningScreen.JourneyPlanningScreen.constructor | src/components/JourneyPlanningScreen.tsx:33-40 | three empty slots, no dialog, no chat |
| JourneyPlanningScreen.JourneyPlanningScreen.OpenModal | src/components/JourneyPlanningScreen.tsx:129-139 | opens the "set all" dialog when all three slots are empty, and the single-pick dialog otherwise |
| JourneyPlanningScreen.JourneyPlanningScreen.CloseModal | src/components/JourneyPlanningScreen.tsx:141-143 | the single-pick dialog is hidden |
| JourneyPlanningScreen.JourneyPlanningScreen.CloseAlertModal | src/components/JourneyPlanningScreen.tsx:366 | the "set all" dialog is hidden |
| JourneyPlanningScreen.JourneyPlanningScreen.SelectDestination | src/components/JourneyPlanningScreen.tsx:145-153 | the slots become the filled slots (see FillEffect) |
| JourneyPlanningScreen.JourneyPlanningScreen.SetAllDestinations | src/components/JourneyPlanningScreen.tsx:155-157 | the slots are replaced by the dialog's list |
| JourneyPlanningScreen.JourneyPlanningScreen.RemoveDestination | src/components/JourneyPlanningScreen.tsx:174-178 | only the given slot becomes empty |
| JourneyPlanningScreen.JourneyPlanningScreen.Proceed | src/components/JourneyPlanningScreen.tsx:159-172 | raises the alert text exactly when a slot is empty and stays; otherwise switches to the chat |
| JourneyPlanningScreen.JourneyPlanningScreen.OpenChat | src/components/JourneyPlanningScreen.tsx:181-189 | the chat always starts at "대전역" with this screen's nickname and the seeded greeting, whatever the slots hold |
| JourneyPlanningScreen.PlanWithAlertModal | src/components/JourneyPlanningScreen.tsx:129-172 | on an empty itinerary, the "set all" path with three distinct names fills every slot, and proceeding opens the chat without an alert |
| ChatScreen.ScenarioEntriesHaveThreeOptions | src/components/ChatScreen.tsx:31-185 | every scenario entry offers exactly three follow-up options |
| ChatScreen.FollowUpsOutsideTable | src/components/ChatScreen.tsx:31-185 | every follow-up option other than three named ones is itself a key of the table |
| ChatScreen.UnkeyedFollowUpsAreOffered | src/components/ChatScreen.tsx:31-185 | each of those three is offered by some entry and has no entry of its own, so it gets the default reply |
| ChatScreen.TerminalOptionNotScripted | src/components/ChatScreen.tsx:31-185 | neither the table nor the starter options offer the terminal option; only the capture reply does |
| ChatScreen.OrUndefined | src/components/ChatScreen.tsx:665-669 | the `... or undefined` idiom keeps a truthy value and drops a falsy one as `undefined` |
| ChatScreen.InitialTurn | src/components/ChatScreen.tsx:213-226 | the seeded bot turn has id 1 and the starter options, and prefixes the greeting with "<nickname>님, " exactly when a nickname is given |
| ChatScreen.UserTurn | src/components/ChatScreen.tsx:654-659 | a user turn with the given id and text and no options, as the option click, the scan and the free-text send build it (HandleOptionClick, CapturePhoto, BeginSend) |
| ChatScreen.OptionReply | src/components/ChatScreen.tsx:675-700 | the table entry for a keyed option, and otherwise the default reply with the starter options; always three options to go on with |
| ChatScreen.ServiceReplyTurn | src/components/ChatScreen.tsx:736-760 | a returned text becomes a bot turn without options; a throw becomes the hard-coded reply with the starter options |
| ChatScreen.FallbackOnlyWithoutKey | src/components/ChatScreen.tsx:727-760 | the reply to a free-text send has options exactly when the service has no API key, and its text is never empty |
| ChatScreen.AsHistory | src/components/ChatScreen.tsx:727-728 | each transcript turn is passed to the history builder with its text and author |
| ChatScreen.ChatScreen.constructor | src/components/ChatScreen.tsx:196-227 | the transcript is the seeded greeting; the input is empty; nothing is loading, shown or captured |
| ChatScreen.ChatScreen.HandleOptionClick | src/components/ChatScreen.tsx:648-702 | appends the user's turn; for the terminal option, hands the image, `[destination]` and the nickname to the ending screen when there is one; otherwise appends the scripted reply; turn ids stay consecutive |
| ChatScreen.ChatScreen.SetInput | src/components/ChatScreen.tsx:227 | the input holds the typed value |
| ChatScreen.ChatScreen.BeginSend | src/components/ChatScreen.tsx:715-734 | blank input changes nothing; otherwise appends the untrimmed input as a user turn, clears the input, starts loading, and sends the history of the transcript as it was before that turn |
| ChatScreen.ChatScreen.FinishSend | src/components/ChatScreen.tsx:736-763 | appends the bot turn for the call's outcome, with the id the send computed, and ends loading |
| ChatScreen.ChatScreen.SendMessage | src/components/ChatScreen.tsx:715-765 | a whole non-blank send adds the user turn with id n+1, then the reply turn with id n+2 for what the service answers to the untrimmed input and the history of the earlier transcript; that reply has no options exactly when the service has a key; blank input changes nothing |
| ChatScreen.ChatScreen.CapturePhoto | src/components/ChatScreen.tsx:601-646 | with a captured image: keeps it and appends the scan-done user turn and the bot turn offering only the terminal option; without one, nothing happens |
| ChatScreen.ScanThenFinish | src/components/ChatScreen.tsx:601-673 | scanning and then taking the offered option hands exactly the start destination and the image to the ending screen |
| MainScreen.AddressParts | src/components/MainScreen.tsx:106-135 | at most five parts, none of them empty |
| MainScreen.TruthyValues | src/components/MainScreen.tsx:106-135 | the values of the truthy fields, in order: never more than the fields, and never empty |
| MainScreen.TruthyValuesSnoc | src/components/MainScreen.tsx:111-135 | each `if (field) parts.push(field)` step extends the filtered list by that field exactly when it is truthy |
| MainScreen.AddressPartsInOrder | src/components/MainScreen.tsx:106-135 | for every address, the parts are the truthy ones of city, borough, quarter (or else suburb), road and house number, in that order |
| MainScreen.FormattedAddress | src/components/MainScreen.tsx:104-137 | the parts joined by single spaces, "" with no address; FormattedEmptyIff states when it is empty |
| MainScreen.FormattedEmptyIff | src/components/MainScreen.tsx:103-138 | the formatted address is "" exactly when there is no address or no field of it is truthy |
| MainScreen.QuarterBeforeSuburb | src/components/MainScreen.tsx:120-125 | with a truthy quarter the suburb is ignored; otherwise the suburb takes the quarter's place |
| MainScreen.EmptyFieldSkipped | src/components/MainScreen.tsx:111-135 | an empty field, quarter and suburb included, is skipped as an absent one is |
| MainScreen.FullAddressOrder | src/components/MainScreen.tsx:106-137 | a full address lists city, borough, quarter, road and house number in that order |
| MainScreen.Fallback | src/components/MainScreen.tsx:148-152 | `display_name.split(", ").slice(1, 4).join(" ")`; FallbackKeepsSecondToFourth and FallbackWithoutComma state what it yields |
| MainScreen.FallbackKeepsSecondToFourth | src/components/MainScreen.tsx:147-153 | for a display name of comma-free pieces joined by ", ", the fallback is the second to fourth pieces (as many as exist) joined by spaces |
| MainScreen.FallbackWithoutComma | src/components/MainScreen.tsx:147-153 | a display name without a comma gives an empty fallback |
| MainScreen.LocationText | src/components/MainScreen.tsx:82-173 | the unsupported and position-error texts for those outcomes; every positioned text starts with "현재 위치 : " |
| MainScreen.LocationTextCases | src/components/MainScreen.tsx:144-165 | which text follows the prefix: the coordinates for a failed or thrown request and for a body without address parts or `display_name`; otherwise the formatted address, else the fallback |
| MainScreen.NeedsNickname | src/components/MainScreen.tsx:73 | a first visit, or a falsy stored nickname (`!nickname`); Mount and ReturningVisitSkipsDialog state the gate with it |
| MainScreen.MainScreen.constructor | src/components/MainScreen.tsx:35-45 | the initial flags and the "locating" text |
| MainScreen.MainScreen.Mount | src/components/MainScreen.tsx:64-79 | reads the nickname and seeds the notifications (the defaults are written only when nothing is stored) and their unread count; then opens the nickname dialog on a first visit or without a nickname, and otherwise only records the login time |
| MainScreen.MainScreen.HandleNicknameComplete | src/components/MainScreen.tsx:57-61 | the store becomes `UserStorage.AfterSaveNickname` of the old one, so the nickname is stored, the first visit is over and the user info is created or updated; the nickname is shown and the dialog hides |
| MainScreen.MainScreen.HandleAccept | src/components/MainScreen.tsx:47-51 | the recommendation dialog and its detail close and journey planning opens |
| MainScreen.MainScreen.ResolveLocation | src/components/MainScreen.tsx:83-173 | the location text is the text for the outcome, and loading ends |
| MainScreen.ReturningVisitSkipsDialog | src/components/MainScreen.tsx:57-79 | once a completed dialog has saved a non-empty nickname, the next mount does not show the dialog |

## Left out

- Camera, canvas and AR overlay: `openCamera`, `closeCamera`, the AR render loop and the
  image encoding are browser drawing APIs. `CapturePhoto` takes the produced data URL (or
  its absence) as a parameter.
- Timers: the 1000 ms option and capture replies and the 500 ms hand-off to the ending
  screen are taken as immediate. With a real delay, a second click within one second
  computes its ids from the same stale length, so transcript ids can collide. The model
  (`IdsConsecutive`) does not show that collision.
- Network: the `fetch` to the chat-completion service and to the reverse geocoder is not
  modelled. Its outcome is a parameter (`FetchOutcome`, `Reverse`). The request body's
  model name, token limit and sampling settings are not modelled.
- GptService.GptService.Chat: each error it catches is represented only by its message
  text. A body without `choices` is the `Failed` outcome with whatever message the
  runtime's error carries.
- Places.DistanceLabel: the Haversine distance and its "m"/"km" formatting are floating
  point. The formatted figure is the `measured` parameter.
- The JourneyPlanningScreen's geolocation effect is not modelled. Neither is its fallback
  position used when the position errors. The position is the `here` parameter of
  `Places.DistanceLabel`.
- Coordinates, as text: `toFixed(6)` is floating point. The text is the `coords`
  parameter of `MainScreen.GeoOutcome.Positioned`.
- JSON parsing and `localStorage` exceptions: stores hold parsed values.
  - A user info or settings value that fails to parse is not modelled.
  - Neither is a storage write that throws.
  - Every getter's `catch` branch is therefore not modelled.
- UserStorage.UserStore.Valid: the model assumes each key holds what this module writes to
  it. A value written by other code is not modelled.
- exportUserData (`src/utils/userStorage.ts:174-188`): it only bundles the getters'
  results with a time stamp. It has no logic of its own beyond them.
- UserStorage.Merge: a stored settings field whose JSON value is `null` overrides the
  default with `null`. The model's fields are never `null`, so it does not capture this.
- UserStorage.UserStore.SaveUserSettings: an argument field given explicitly as
  `undefined` survives the spread, but `JSON.stringify` then drops it
  (`src/utils/userStorage.ts:104-108`). On the next read that field comes back as its
  default (`src/utils/userStorage.ts:119-121`). The model treats such a field as absent,
  so it keeps the old value instead.
- Object lookups by name (`conversationScenarios[option]`, `destinationCoordinates[name]`)
  use JavaScript objects. Inherited keys such as "constructor" are not modelled as entries.
- The notification and menu dialogs, the recommendation dialogs, the
  splash and ending screens, `App`, the common and icon components and the build
  configuration: they are rendering and routing with no state logic of their own. They
  are not part of this model. The screens' notification-count badges and the main
  screen's news toggle are not modelled either.
- DestinationAlertModal.AlertModal.Toggle requires a non-empty name. The dialog only
  passes names from its non-empty catalogue.
- JourneyPlanningScreen.JourneyPlanningScreen.RemoveDestination requires an index inside
  the slot list. The screen only offers the remove button on rendered slots.
- ChatScreen.FollowUpsOutsideTable states one direction. The other direction, that the
  three named options are not keys, is `ChatScreen.UnkeyedFollowUpsAreOffered`.
- NicknameModal.NicknameModal.CompleteSubmit states `IsTrimmed` rather than
  `Trim(completed) == completed`. `JsStrings.TrimFixedIffTrimmed` proves the two
  equivalent.
- The `visible` prop of each dialog and `if (!visible) return null` are rendering. Only
  the effects that run on a change of `visible` are modelled (`VisibleChanged`).
