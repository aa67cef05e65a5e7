# A model of the Pluxie chat client's conversation logic

This project models, in Dafny, the sequential logic of a React/Firebase chat
client for the Gemini model. There are four parts:

- **The conversation controller** (`ChatInterface`, `src/components/ChatInterface.tsx`). It covers:
  - the submit guard and the optimistic append of the user's message;
  - the awaited store writes and AI requests of a submit, for a new chat and for an existing one;
  - the five-word chat title;
  - edit-and-regenerate;
  - the attachment list, capped at five.
- **The sidebar** (`Sidebar`, `src/components/Sidebar.tsx`). It covers:
  - the "this week" and "this month" calendar predicates;
  - the three date buckets of the chat list;
  - the effects that fill or clear the chat lists;
  - the redirect-to-home guard, which fires at most once.
- **The AI action** (`Actions`, `src/app/actions.ts`). It covers:
  - the request built before the foreign `generateContent` call: the identity preamble for single-turn histories, role mapping, and file parts on a final user turn;
  - the success/failure result.
- **The chat page** (`ChatContainer`, `src/components/ChatContainer.tsx`). It covers:
  - the loading and access effect over the auth state and the chat id;
  - the ownership check;
  - snapshot replacement and listener errors;
  - the choice between spinner, login page, error view and chat view.

Supporting modules:

- `Base64` encodes files as in section 4 of RFC 4648. Its decoder is proved to invert the encoder.
- `JsText` models JavaScript's `trim()`, `split(/\s+/)` and `join(" ")`, with a proved split/join round trip.
- `Common` holds `Option`.

How the model treats the outside world:

- **Document store and router.** Every call the controller makes to them, and every request it sends to the AI action, is appended to an effect log (`ChatController.effects`, `SidebarSession.navigations`, `ChatPage.locations`).
- **AI service.** It is a parameter (`Actions.Service`): a request either gets a reply text or throws. A new chat's detached title request is answered by its own parameter (`titleService`), separate from the one that answers the reply request (`service`). So the title can fail while the answer succeeds, or start with other words, even when both requests carry the same text.
- **Failures of awaited calls.** Which awaited call of a submit throws is a parameter (`failing`). It can be a store write, or the AI request, whose network call to the server action can reject. `Performed` states what then happens: the plan up to that call. A save-edit takes whether its regeneration request rejects as a parameter.
- **New chat ids and current time.** Both are parameters.
- **Times.** Times are local wall-clock milliseconds.

## Model

| member | source | states |
|---|---|---|
| Base64.Encode | src/app/actions.ts:8-10 | the encoding has length 4*ceil(n/3), uses only alphabet symbols and '=', and '=' appears only in the last two places |
| Base64.Decode | src/app/actions.ts:8-10 | a decoder that inverts `Encode`, written independently of it and exact on `Encode`'s outputs (`DecodeEncode` states the round trip); on other text it returns the bytes of the leading groups it can read, stopping at an unreadable group, after a padded group or before a short remainder |
| Base64.DecodeEncode | src/app/actions.ts:8-10 | decoding the base-64 text of any byte string gives the bytes back |
| JsText.Trim | src/components/ChatInterface.tsx:100 | `trim()`: `TrimStart` drops exactly the leading white-space run and leaves text that does not start with white space, `TrimEnd` likewise at the end; `TrimEmptyIffBlank` states when the result is empty |
| JsText.TrimEmptyIffBlank | src/components/ChatInterface.tsx:100 | `trim()` gives the empty string exactly when every character is white space |
| JsText.Split | src/components/ChatInterface.tsx:93 | `split(/\s+/)` gives at least one token, and the first token is empty exactly when the text is empty or starts with white space |
| JsText.SplitWellFormed | src/components/ChatInterface.tsx:93 | no token contains white space and only the first and last tokens can be empty |
| JsText.SplitWeaves | src/components/ChatInterface.tsx:93 | the text is exactly its tokens with its maximal white-space runs between them (one run fewer than tokens, each non-empty and all white space) |
| JsText.SplitOfWeave | src/components/ChatInterface.tsx:93 | any well-formed tokens woven with any non-empty white-space runs split back into those tokens; with `SplitWeaves` and `SplitWellFormed` this fixes every token of `split` |
| JsText.Join | src/components/ChatInterface.tsx:93 | `join(" ")`: the tokens with single spaces between them (`JoinIsWeave`); `SplitJoin` states the round trip |
| JsText.SplitJoin | src/components/ChatInterface.tsx:93 | splitting tokens joined by single spaces gives the tokens back |
| Actions.WithSystem | src/app/actions.ts:27-32 | the preamble is prepended as a "user" turn exactly when the conversation has one turn; otherwise the conversation is unchanged |
| Actions.OutputRole | src/app/actions.ts:47 | the role sent is "model" exactly for a "model" turn and "user" for every other role |
| Actions.FilePart | src/app/actions.ts:7-14 | a file part carries the file's media type and base-64 data that decodes to the file's bytes |
| Actions.FileParts | src/app/actions.ts:37 | one file part per file, in file order |
| Actions.BuildContents | src/app/actions.ts:27-50 | the request has one turn per conversation turn, plus one for the preamble |
| Actions.PreambleOnlyForSingleTurn | src/app/actions.ts:27-32 | for one turn the request has two turns and the first is the "user" preamble text; otherwise it has exactly as many turns as the conversation |
| Actions.TurnsInOrder | src/app/actions.ts:34-49 | conversation turn i becomes request turn i (after the preamble), with its role mapped and its content as the first part |
| Actions.FilesOnlyOnFinalUserTurn | src/app/actions.ts:36-49 | every request turn but the last has exactly its text part; after its text, the last turn has the file parts in order when files are given and the last turn is the user's, and nothing otherwise |
| Actions.GenerateResponse | src/app/actions.ts:20-57 | the result fails exactly when the service throws, and then carries the fixed error message; otherwise it is a success with the service's text |
| Actions.ReplyText | src/components/ChatInterface.tsx:91 | a reply is read only from a success with non-empty text, and is then that text |
| ChatInterface.SubmitAllowed | src/components/ChatInterface.tsx:100 | the guard as written, on the trimmed input; `SubmitGuard` states its meaning |
| ChatInterface.SubmitGuard | src/components/ChatInterface.tsx:100 | submit goes ahead exactly when a user is signed in and there is a file or a non-white-space character in the input |
| ChatInterface.UserMessage | src/components/ChatInterface.tsx:107-116 | the appended message is the user's, with the raw input as content and `{name, type}` metadata for each file, in order, only when files are attached |
| ChatInterface.SubmitHistory | src/components/ChatInterface.tsx:150-189 | the conversation of a submit, read by `SubmitHistoryShape` |
| ChatInterface.SubmitHistoryShape | src/components/ChatInterface.tsx:150-189 | a new chat sends exactly the one user turn; an existing chat sends every earlier message's role and content in order, then the new user turn, so there are messages.length + 1 turns |
| ChatInterface.FiveWordSummary | src/components/ChatInterface.tsx:86-96 | `getFiveWordSummary` after its request: the first five tokens joined by single spaces, or undefined; `SummaryIsFirstFiveTokens` states what it gives |
| ChatInterface.SummaryIsFirstFiveTokens | src/components/ChatInterface.tsx:86-96 | a title comes back exactly for a successful non-empty reply; it is non-empty, and splitting it gives the reply's first min(5, n) tokens |
| ChatInterface.SummaryOfIndentedReply | src/components/ChatInterface.tsx:93 | a reply that starts with white space gives a title that starts with a space, whose first token is empty |
| ChatInterface.SubmitPlan | src/components/ChatInterface.tsx:122-201 | what a submit asks of the store, the AI action and the router when nothing throws: the new-chat plan or the existing-chat plan |
| ChatInterface.NewChatPlan | src/components/ChatInterface.tsx:123-163 | create the chat titled "...", write the user message, then `NewChatTail` |
| ChatInterface.NewChatTail | src/components/ChatInterface.tsx:143-163 | the detached summary request, the retitling when a summary comes back, the answer, then navigation to "/c/" + id |
| ChatInterface.ExistingChatPlan | src/components/ChatInterface.tsx:164-201 | write the user message, then the answer to the full history |
| ChatInterface.AnswerPlan | src/components/ChatInterface.tsx:151-162 | the awaited reply request, then the reply's write when it is non-empty |
| ChatInterface.Performed | src/components/ChatInterface.tsx:122-206 | the plan cut at the awaited call that throws; `PerformedIsPrefix`, `PerformedWhole` and `RejectedReplyStopsSubmit` state what that leaves |
| ChatInterface.FailedTitleKeepsAnswer | src/components/ChatInterface.tsx:144-163 | a title request that throws causes no retitling, and the reply is still written exactly when it is non-empty: the title and the answer are separate calls |
| ChatInterface.NewChatTitle | src/components/ChatInterface.tsx:123-148 | a new chat is created with the title "..."; its only retitling is to the summary, which happens when there is a summary |
| ChatInterface.SubmitAsksWithHistory | src/components/ChatInterface.tsx:150-201 | a submit asks the AI with the built history and the files; the reply is written to the right chat exactly when it is non-empty; the last step is navigation exactly for a new chat |
| ChatInterface.PerformedIsPrefix | src/components/ChatInterface.tsx:122-206 | what happens when an awaited call throws is a prefix of the plan |
| ChatInterface.PerformedWhole | src/components/ChatInterface.tsx:122-206 | the whole plan happens exactly when none of its awaited calls is the one that throws |
| ChatInterface.RejectedReplyStopsSubmit | src/components/ChatInterface.tsx:150-203 | when the reply request rejects, the `catch` skips the rest: only the steps before the request happen, so there is no reply write and no navigation |
| ChatInterface.WithContent | src/components/ChatInterface.tsx:216-217 | the list with one message's content replaced, read by `EditChangesOnlyTwoContents` |
| ChatInterface.Regenerates | src/components/ChatInterface.tsx:221 | the next message exists and is the model's |
| ChatInterface.AfterEdit | src/components/ChatInterface.tsx:214-236 | the list after a saved edit and its regeneration; `EditChangesOnlyTwoContents` states what changes |
| ChatInterface.EditChangesOnlyTwoContents | src/components/ChatInterface.tsx:214-236 | a saved edit keeps the length, the roles and the attachments; it gives message i the new content and leaves every other message alone, except that message i+1 gets the regenerated text when the regeneration runs and returns text |
| ChatInterface.RegenerationRequestShape | src/components/ChatInterface.tsx:221-229 | the regeneration history is messages 0..i, with message i's new content |
| ChatInterface.AfterPick | src/components/ChatInterface.tsx:622-629 | picking files that would pass five leaves the list alone; otherwise they are appended in order, and the list never exceeds five |
| ChatInterface.WithoutIndex | src/components/ChatInterface.tsx:646 | removing attachment idx drops exactly that file and keeps the others in order |
| ChatInterface.ChatController.constructor | src/components/ChatInterface.tsx:44-52 | the initial state: the given messages, an empty composer, not pending, no edit, no toast |
| ChatInterface.ChatController.SyncInitialMessages | src/components/ChatInterface.tsx:67-69 | the list becomes the container's messages |
| ChatInterface.ChatController.SetInput | src/components/ChatInterface.tsx:580 | the input becomes the typed text |
| ChatInterface.ChatController.BeginSubmit | src/components/ChatInterface.tsx:98-120 | without the guard nothing changes; otherwise the user message is appended after the unchanged earlier messages, the request is pending, and the input and files are cleared |
| ChatInterface.ChatController.Step | src/components/ChatInterface.tsx:122-201 | one step is performed unless it is the awaited call that throws, which stops the rest of the plan |
| ChatInterface.ChatController.FinishSubmit | src/components/ChatInterface.tsx:122-206 | the effects are the submit plan up to the failing awaited call, if any; pending is false afterwards on every path |
| ChatInterface.ChatController.SubmitNewChat | src/components/ChatInterface.tsx:123-163 | the new-chat plan up to the failing awaited call: create, write the user message, summary request and retitling, answer, navigate |
| ChatInterface.ChatController.SummarizeAnswerNavigate | src/components/ChatInterface.tsx:143-163 | `NewChatTail` up to the failing awaited call; the summary request and retitling never stop it |
| ChatInterface.ChatController.TitleStep | src/components/ChatInterface.tsx:144-148 | the retitling, when there is a summary, is never awaited, so it never stops the plan |
| ChatInterface.ChatController.AnswerAndNavigate | src/components/ChatInterface.tsx:150-163 | the answer and then navigation to "/c/" + id, up to the failing awaited call |
| ChatInterface.ChatController.Answer | src/components/ChatInterface.tsx:151-162 | the awaited reply request, then the reply's write when it is non-empty; a rejected request or a throwing write stops the plan |
| ChatInterface.ChatController.SubmitToChat | src/components/ChatInterface.tsx:164-201 | the existing-chat plan up to the failing awaited call: write the user message, then answer with the full history |
| ChatInterface.ChatController.HandleSubmit | src/components/ChatInterface.tsx:98-207 | a no-op without the guard; otherwise the optimistic append, a cleared composer, pending false at the end, and the plan's effects up to the failing awaited call |
| ChatInterface.ChatController.HandleEditMessage | src/components/ChatInterface.tsx:209-212 | edit mode on message `index`, with its content in the edit box |
| ChatInterface.ChatController.SetEditValue | src/components/ChatInterface.tsx:431 | the edit box holds the typed text |
| ChatInterface.ChatController.HandleSaveEdit | src/components/ChatInterface.tsx:214-236 | nothing without edit mode; otherwise edit mode ends, a regeneration request for the prefix is sent exactly when the next message is the model's, and the list becomes the edited list with the regenerated reply, or only the edit when that request rejects |
| ChatInterface.ChatController.HandleCancelEdit | src/components/ChatInterface.tsx:238-241 | edit mode ends and the edit box is cleared |
| ChatInterface.ChatController.AddFiles | src/components/ChatInterface.tsx:621-631 | no pick changes nothing; a pick that would pass five shows the toast and changes nothing else; otherwise the picked files are appended; the cap holds throughout |
| ChatInterface.ChatController.RemoveFile | src/components/ChatInterface.tsx:646 | the list loses exactly attachment idx; the cap holds |
| Sidebar.Weekday | src/components/Sidebar.tsx:60 | `getDay()` is an index 0..6 |
| Sidebar.WeekdayCycle | src/components/Sidebar.tsx:60 | `getDay()` advances by one each day modulo 7, and index 0 falls exactly on the days seven apart from 1970-01-04, a Sunday |
| Sidebar.LocateYearSound | src/components/Sidebar.tsx:66-72 | the calendar year found for a day holds that day, at a position within the year's length |
| Sidebar.MonthOf | src/components/Sidebar.tsx:66-72 | `getMonth()` is 0..11, and the day lies between that month's first day and the next month's |
| Sidebar.FullYear | src/components/Sidebar.tsx:66-72 | `getFullYear()`, the year `LocateYear` finds for the time's day; `LocateYearSound` states it holds that day |
| Sidebar.Month | src/components/Sidebar.tsx:66-72 | `getMonth()`: 0..11, the month of the day's position in its year |
| Sidebar.YearAndDay | src/components/Sidebar.tsx:66-72 | the full year and day-of-year of a time add up to that time's day number |
| Sidebar.WeekStart | src/components/Sidebar.tsx:57-64 | local midnight of today minus today's weekday index; `WeekStartShape` states its shape |
| Sidebar.InThisWeek | src/components/Sidebar.tsx:57-64 | `isDateInThisWeek`: at or after the week's start; `InThisWeekByDay` states it by day |
| Sidebar.InThisMonth | src/components/Sidebar.tsx:66-72 | `isDateInThisMonth`: same month and year as now; `SameMonthIsClose` bounds the distance |
| Sidebar.WeekStartShape | src/components/Sidebar.tsx:57-64 | the week starts at a local midnight on a Sunday, at most seven days before now |
| Sidebar.InThisWeekByDay | src/components/Sidebar.tsx:57-64 | a date is in this week exactly when its day is no earlier than today minus today's weekday index |
| Sidebar.SameMonthIsClose | src/components/Sidebar.tsx:66-72 | two times in the same month and year are less than 31 days apart |
| Sidebar.InBucket | src/components/Sidebar.tsx:208-227 | the three filter conditions as written: timestamped, not archived, and this week; this month but not this week; neither |
| Sidebar.Filter | src/components/Sidebar.tsx:208-227 | `Array.prototype.filter`; `FilterMembers` and `FilterIsSubsequence` state what it keeps |
| Sidebar.Bucketed | src/components/Sidebar.tsx:208-227 | one bucket's list, filtered from the chat list; `BucketShape` and `BucketsPartition` state what it holds |
| Sidebar.BucketIsUnique | src/components/Sidebar.tsx:208-227 | a chat is in a bucket exactly when it is timestamped, not archived, and the bucket is the first of week, month, older that its date meets |
| Sidebar.BucketsPartition | src/components/Sidebar.tsx:208-227 | the three buckets together hold every timestamped unarchived chat exactly as often as the list does |
| Sidebar.BucketShape | src/components/Sidebar.tsx:116 | each bucket is a subsequence of the chat list, is newest first when the list is, and holds exactly the list's chats that meet its condition |
| Sidebar.FilterMembers | src/components/Sidebar.tsx:208-227 | a filter keeps exactly the elements that pass |
| Sidebar.FilterIsSubsequence | src/components/Sidebar.tsx:208-227 | a filter keeps the list order |
| Sidebar.FilterKeepsNewestFirst | src/components/Sidebar.tsx:116 | filtering a newest-first list gives a newest-first list |
| Sidebar.ShouldRedirect | src/components/Sidebar.tsx:163-171 | the guard's seven conditions as written; `RedirectExclusions` states where it never fires |
| Sidebar.RedirectExclusions | src/components/Sidebar.tsx:161-174 | the redirect never fires on "/", on a chat page, with chats in the list, or for a user the guard has already seen |
| Sidebar.SidebarSession.constructor | src/components/Sidebar.tsx:89-95 | empty lists, no redirect yet, no previous user, not loaded |
| Sidebar.SidebarSession.SetUser | src/components/Sidebar.tsx:88 | the auth provider's current user |
| Sidebar.SidebarSession.ResetLoaded | src/components/Sidebar.tsx:97-101 | with a user, the list counts as not loaded |
| Sidebar.SidebarSession.MarkLoaded | src/components/Sidebar.tsx:103-107 | with a user, the list counts as loaded |
| Sidebar.SidebarSession.SubscribeChats | src/components/Sidebar.tsx:110-138 | the listener follows the current user; signed out, the chat list is emptied |
| Sidebar.SidebarSession.OnChatsSnapshot | src/components/Sidebar.tsx:121-130 | a snapshot replaces the chat list while it is followed |
| Sidebar.SidebarSession.SubscribeArchived | src/components/Sidebar.tsx:140-159 | the archive listener follows the current user; signed out, the archived list is emptied |
| Sidebar.SidebarSession.OnArchivedSnapshot | src/components/Sidebar.tsx:148-153 | a snapshot replaces the archived list while it is followed |
| Sidebar.SidebarSession.EvaluateRedirect | src/components/Sidebar.tsx:161-176 | the redirect fires exactly when the guard's seven conditions hold; once fired it is recorded and never fires again; the previous-user ref becomes the current uid, or null |
| ChatContainer.AccessGranted | src/components/ChatContainer.tsx:70 | the chat exists and its owner is the signed-in user; `RunEffect` listens only then |
| ChatContainer.Render | src/components/ChatContainer.tsx:124-161 | the render's choice of view; `RenderCases` states each view's condition |
| ChatContainer.RenderCases | src/components/ChatContainer.tsx:124-161 | spinner exactly while auth loads or a signed-in user's named chat is loading; otherwise the login page exactly without a user; then the error view exactly when an error is set, and the chat view otherwise |
| ChatContainer.ChatPage.constructor | src/components/ChatContainer.tsx:27-29 | no messages, loading, no error |
| ChatContainer.ChatPage.Cleanup | src/components/ChatContainer.tsx:118-121 | the previous listener is unsubscribed |
| ChatContainer.ChatPage.RunEffect | src/components/ChatContainer.tsx:37-117 | nothing while auth loads; without a user loading ends; without a chat id loading ends and messages are empty; a throwing read sets the unexpected-error message; a missing or foreign chat sets the access error, ends loading and redirects to "/"; only an owned chat is listened to |
| ChatContainer.ChatPage.OnSnapshot | src/components/ChatContainer.tsx:88-100 | a snapshot replaces the message list wholesale and ends loading |
| ChatContainer.ChatPage.OnSnapshotError | src/components/ChatContainer.tsx:102-107 | a listener error sets "Failed to load messages: " + code and ends loading |

## Left out

- **Firestore.** `setDoc`, `addDoc`, `updateDoc`, `getDoc` and `onSnapshot` are effects in a log, or parameters. The store's contents, ordering and consistency are not modelled.
  - The timestamps the controller writes are not modelled: `serverTimestamp()` on a new chat and `new Date()` on messages. Messages carry no `createdAt`. A chat's `createdAt`, as the sidebar reads it, is modelled.
  - The ascending order of the messages listener is the store's. `OnSnapshot` takes the documents as delivered.
- **Gemini.** The `generateContent` call and the model name are not modelled. The service is a parameter that replies or throws.
- **File reading.** File contents are given as bytes. `file.arrayBuffer()` is not modelled.
- **Timing of the title summary.** It is not awaited. The model places its request and retitling right after the first message's write, but in the source they may land at any later time.
- **React's scheduling.** Which effects run after which render, and with which state snapshot, is not modelled. State batching is not modelled either. Each effect body is a method, and the order of calls is left to the caller.
- **Concurrency.** Interleaving between in-flight replies, snapshots and navigation is not modelled.
- **Shared message objects.** `handleSaveEdit` assigns `.content` on message objects that the earlier list shares. The model works on values, so this aliasing is not modelled.
- **Toasts and browser features.** The toast timer, speech recognition, audio cues, clipboard, auto-scroll, textarea sizing, markdown rendering and the JSX layout are not modelled. Neither is `randomRGBGlow`, which uses `Math.random` and is unused.
- **Delete, archive and unarchive.** The options menu's delete and archive handlers (src/components/ChatInterface.tsx:299-328) are a confirmation dialog, store writes and a navigation to "/", and are not modelled. Neither are the unarchive buttons (src/components/Sidebar.tsx:251-256 and 428-436, src/components/ChatContainer.tsx:204-212), a single store write each. src/components/OptionsMenu.tsx only renders the two buttons and is not part of this model.
- **Other files.** The color-scheme and cookie effects of the sidebar, the settings panel, the auth provider and the remaining UI files are not part of this model.
- **Transport failure of the title request.** The summary request is not awaited. When its call to the server action rejects, its `.then` never runs and the title stays "...". The model covers only a reply that fails inside the action, which leaves "..." in the same way.
- **Regenerated replies and edits.** They are not persisted. The source does not persist them either, and the optimistic message is not deduplicated against its snapshot copy.
- **The clock.** The sidebar's date predicates read `new Date()` afresh on every call, once per chat per filter. The model reads the clock once, as `now`, for all three filters. `BucketIsUnique` and `BucketsPartition` rely on that single reading: a render that crosses a week or month boundary between two readings can put a chat in two buckets or in none.
- **Time zones and daylight saving.** Times are local wall-clock milliseconds, and every day has 86400000 of them.

Two as-written behaviours are modelled as written:

- The title request is the user's input as a one-turn conversation. So it receives the identity preamble like any first message, and it carries no instruction to summarize. The title is the first five tokens of an ordinary reply.
- `split(/\s+/)` on a reply that starts with white space yields an empty first token. So the title then starts with a space (`ChatInterface.SummaryOfIndentedReply`).
