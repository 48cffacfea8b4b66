# Transcript delivery and session lifecycle

This model covers the core of a voice-chat front end. A browser page
talks to a realtime speech service and keeps a transcript of the
conversation. When the conversation ends, the transcript is forwarded to an
automation webhook. The core modelled here has four parts:

- **The transcript store** (`src/app/lib/db.ts`). A key-value database with
  one metadata record and one content record per conversation id. It also
  keeps four id lists: `all`, `pending`, `sent` and `failed`. It can save a
  transcript, record a delivery attempt, read a transcript or a status list,
  and clean up delivered transcripts older than a day. The database is the
  class `TranscriptStore.Store`. Its three maps are the three key families,
  and its methods rewrite them step by step as the source does. The list
  helpers live in `StatusIndex`.
- **The transcript formatter** (`src/app/lib/transcriptFormatter.ts`). It
  turns the conversation into plain text, one `User: …` or `Assistant: …`
  line per message, and builds the file name (`TranscriptFormatter`). The
  JavaScript string operations it relies on are in `Text`: `trim`, `join`,
  `split`, and the decimal rendering of numbers.
- **The three delivery endpoints**:
  - `save-transcript` validates a body and forwards it to the webhook
    (`SaveTranscriptRoute`).
  - `retry-transcript` re-sends a stored transcript with an idempotency key
    and records the attempt (`RetryTranscriptRoute`). `Decide` states the
    outcome as a function; the method `Post` performs it on a `Store`.
  - `transcript-status` returns one transcript or a summary of the status
    lists (`TranscriptStatusRoute`).

  Request bodies, webhook answers and JSON values are in `Http`.
- **The session lifecycle of the page** (`src/app/App.tsx`). It covers:
  - connecting and disconnecting;
  - the ten-minute conversation limit with a warning one minute before;
  - the two-minute refresh period after a time-out;
  - pausing the microphone;
  - the guards in front of every outbound message;
  - ending a conversation with an explicit save.

  `SessionLifecycle.State` and one function per operation say what each
  handler does to the page state. `SessionLifecycle.Consistent` is the
  invariant every reachable state keeps. The class `SessionLifecycle.Session`
  is the page itself: its fields are updated in place, and the peer
  connection's senders are an array. Each method ensures
  `Snapshot() == F(old(Snapshot()), …)` for the matching operation `F`, and
  every handler keeps `Valid()`, the invariant on the page's fields.

Everything outside the model is passed in as a parameter:

- clock readings, as whole milliseconds and as ISO text;
- generated ids;
- the webhook's answer;
- the outcome of a connection attempt.

Notes on the code:

- `save-transcript` writes nothing to the store. It only validates and
  forwards; the store is filled by other callers of `saveTranscript`.
- A rejected webhook call on `save-transcript` answers with the webhook's own
  status, not always 500.
- The file name puts the session label before the timestamp
  (`transcript_<session>_<timestamp>.txt`), as the code does. The example in
  the function's doc comment puts it after.

## Model

| member | source | states |
|---|---|---|
| Text.Trim | src/app/lib/transcriptFormatter.ts:41 | `trim` never lengthens the text; what it keeps and cuts is stated by the lemmas below |
| Text.TrimIsInfix | src/app/lib/transcriptFormatter.ts:41 | `trim` keeps one contiguous infix of the text, starting at the number of characters cut from the front |
| Text.TrimCutsOnlyWhitespace | src/app/lib/transcriptFormatter.ts:41 | every character `trim` cuts, before or after the kept infix, is ECMAScript whitespace or a line terminator |
| Text.TrimmedHasNoOuterWhitespace | src/app/lib/transcriptFormatter.ts:41 | the trimmed text neither starts nor ends with whitespace |
| Text.TrimIdempotent | src/app/lib/transcriptFormatter.ts:41 | trimming twice is trimming once |
| Text.TrimEmptyIff | src/app/App.tsx:557-561 | the trimmed text is empty exactly when every character is whitespace, in both directions |
| Text.NatToDecimal | src/app/api/retry-transcript/route.ts:43 | the decimal text of a number is a non-empty run of digits with no sign |
| Text.DecimalRoundTrip | src/app/api/retry-transcript/route.ts:43 | reading back the decimal text of a number gives the number |
| Text.NatToDecimalInjective | src/app/api/retry-transcript/route.ts:43 | different attempt numbers have different decimal texts |
| Text.Split | src/app/lib/transcriptFormatter.ts:44 | `split` gives at least one piece, and no piece contains the separator |
| Text.JoinEmptyIff | src/app/lib/transcriptFormatter.ts:44 | joining non-empty lines gives the empty text exactly when there are no lines |
| Text.SplitJoin | src/app/lib/transcriptFormatter.ts:44 | splitting the joined lines at the separator gives the lines back, when there is at least one line and none contains the separator |
| Http.Field | src/app/api/save-transcript/route.ts:17 | a destructured field is present exactly when the body is a JSON object holding that key |
| StatusIndex.Added | src/app/lib/db.ts:188-196 | the new list holds exactly the old ids plus `id`, keeps the old list as its prefix, grows by at most one, and repeats no id if the old list did not |
| StatusIndex.Without | src/app/lib/db.ts:201-209 | the filtered list holds exactly the old ids outside `gone`, and is no longer than before |
| StatusIndex.AddedIdempotent | src/app/lib/db.ts:192-195 | adding an id twice is adding it once |
| StatusIndex.WithoutOfConcat | src/app/lib/db.ts:206 | filtering keeps the order of what stays: it distributes over concatenation |
| StatusIndex.WithoutCounts | src/app/lib/db.ts:206 | every occurrence of a removed id goes, and every other occurrence stays, counted with multiplicity |
| StatusIndex.WithoutAbsent | src/app/lib/db.ts:205 | filtering out ids that are not listed leaves the list unchanged |
| StatusIndex.WithoutTwice | src/app/lib/db.ts:206 | filtering one id set and then another is filtering their union |
| StatusIndex.WithoutNoDup | src/app/lib/db.ts:206 | filtering never introduces a repeated id |
| StatusIndex.Lookup | src/app/lib/db.ts:190 | a list key that was never written reads as the empty list |
| StatusIndex.AddTo | src/app/lib/db.ts:188-196 | only list `name` changes, to `Added` of its old value; nothing is written when the id is already listed |
| StatusIndex.RemoveFrom | src/app/lib/db.ts:201-209 | only list `name` changes, to the old list without `id`; nothing is written when the id is not listed; no key appears or disappears |
| TranscriptStore.Stored | src/app/lib/db.ts:119-128 | a transcript is found exactly when both its records exist, and it is those records |
| TranscriptStore.Attempted | src/app/lib/db.ts:90-97 | the new record has the new status, one more attempt, the attempt time as update and attempt time, the response details, and its old id, file name and creation time |
| TranscriptStore.ExpiredMembers | src/app/lib/db.ts:157-163 | the cleanup deletes exactly the ids in the `sent` snapshot whose stored record is `sent` and more than 24 hours old |
| TranscriptStore.PurgedLists | src/app/lib/db.ts:169-170 | the cleanup rewrites only `sent` and `all`, and neither creates nor drops a key |
| TranscriptStore.ExactlyOneStatusIndex | src/app/lib/db.ts:103-106 | under the store invariant, a stored id is in the list of its own status and in no other status list |
| TranscriptStore.SavePreservesConsistency | src/app/lib/db.ts:39-65 | saving a pending record under a new id, or over an id still pending, keeps the store invariant |
| TranscriptStore.StatusUpdatePreservesConsistency | src/app/lib/db.ts:90-106 | recording a delivery attempt keeps the store invariant |
| TranscriptStore.UpdatedIdListedUnderNewStatus | src/app/lib/db.ts:103-106 | after a status update the id is listed under its new status and under no other |
| TranscriptStore.ExpiredUnderConsistency | src/app/lib/db.ts:152-163 | under the invariant, the cleanup deletes exactly the stored `sent` records older than a day; the `sent` list adds no restriction |
| TranscriptStore.CleanupPreservesConsistency | src/app/lib/db.ts:157-176 | deleting the expired records and filtering their ids out of `sent` and `all` keeps the store invariant |
| TranscriptStore.CleanupBoundary | src/app/lib/db.ts:154-163 | a `sent` record 25 hours old goes; one 23 hours old or exactly 24 hours old stays; a pending or failed record never goes |
| TranscriptStore.Store.constructor | src/app/lib/db.ts:6 | an empty database satisfies the store invariant |
| TranscriptStore.Store.UpdateIndex | src/app/lib/db.ts:188-196 | list `name` becomes `Added` of its old value; the records and every other list are unchanged |
| TranscriptStore.FilterOut | src/app/lib/db.ts:206 | the filtering loop yields the list without `id`, every other entry kept in order |
| TranscriptStore.Store.RemoveFromIndex | src/app/lib/db.ts:201-209 | list `name` becomes the old list without `id`; the records are unchanged |
| TranscriptStore.Store.GetTranscript | src/app/lib/db.ts:119-133 | a transcript is returned exactly when both its records exist, and then it is those records |
| TranscriptStore.Store.GetTranscriptsByStatus | src/app/lib/db.ts:138-145 | a missing list reads as empty; under the invariant the list holds exactly the stored ids of that status |
| TranscriptStore.Store.SaveTranscript | src/app/lib/db.ts:33-69 | the id is the given conversation id, or the fresh id when that is absent or empty; a pending record with no attempts and the text are stored under it; it is added to `all` and `pending`; the invariant is kept for a new or still-pending id |
| TranscriptStore.Store.UpdateTranscriptStatus | src/app/lib/db.ts:74-114 | without a record it returns null and writes nothing; otherwise it writes `Attempted`, moves the id between status lists only when the status changed, and keeps the invariant |
| TranscriptStore.Store.DeleteTranscript | src/app/lib/db.ts:165-170 | both records of the id are deleted and the id is filtered out of `sent`, then out of `all` |
| TranscriptStore.Store.CleanupOldTranscripts | src/app/lib/db.ts:150-183 | the count returned is the number of expired ids; exactly those records are deleted and purged from `sent` and `all`; the invariant is kept |
| TranscriptFormatter.FormatTranscriptAsPlainText | src/app/lib/transcriptFormatter.ts:13-45 | the text is empty exactly when the list is absent or holds no user or assistant message; its lines are stated by the lemmas below |
| TranscriptFormatter.LinesNonEmpty | src/app/lib/transcriptFormatter.ts:23-41 | no formatted line is empty |
| TranscriptFormatter.LinesAreRenderedDialogue | src/app/lib/transcriptFormatter.ts:18-43 | the lines are exactly the user and assistant items, in order, each rendered as label, space and trimmed text |
| TranscriptFormatter.LineOfRenders | src/app/lib/transcriptFormatter.ts:19-41 | the map callback keeps an item exactly when it is a user or assistant message, and then renders it |
| TranscriptFormatter.LinesOfConcat | src/app/lib/transcriptFormatter.ts:18-43 | formatting keeps input order: the lines of two lists are the lines of each, one after the other |
| TranscriptFormatter.LinesArePrefixed | src/app/lib/transcriptFormatter.ts:23-41 | every line begins with `User: ` or `Assistant: ` |
| TranscriptFormatter.NoDialogueFormatsEmpty | src/app/lib/transcriptFormatter.ts:30-44 | a list of breadcrumbs and unknown roles only formats to the empty string |
| TranscriptFormatter.FormatSplitsIntoLines | src/app/lib/transcriptFormatter.ts:41-44 | when there is a message and no trimmed text contains a line break, the text splits at `\n` back into its lines |
| TranscriptFormatter.SanitizeTimestamp | src/app/lib/transcriptFormatter.ts:55 | same length; each `:` and `.` becomes `-` and every other character is kept, so no `:` or `.` is left |
| TranscriptFormatter.GenerateTranscriptFilename | src/app/lib/transcriptFormatter.ts:54-60 | the file name for a session label and a clock reading; its shape is stated by `FilenameShape` and `FilenameDeterminesSession` |
| TranscriptFormatter.FilenameShape | src/app/lib/transcriptFormatter.ts:54-60 | the name is `transcript_`, then the session id and `_` when a non-empty one is given, then the sanitised timestamp and `.txt` |
| TranscriptFormatter.FilenameDeterminesSession | src/app/lib/transcriptFormatter.ts:56-59 | at one clock reading, two names are equal only when the session labels are equal |
| TranscriptFormatter.SanitizeIdempotent | src/app/lib/transcriptFormatter.ts:55 | sanitising a sanitised timestamp changes nothing |
| SaveTranscriptRoute.Post | src/app/api/save-transcript/route.ts:5-77 | the endpoint's answer and the payload it forwards; stated by `ForwardedIffValid`, `SuccessIffWebhookAccepted`, `WebhookRejectionPassedThrough`, `ErrorsBeforeForwarding` and `EmptyContentRejected` |
| SaveTranscriptRoute.PayloadOf | src/app/api/save-transcript/route.ts:31-37 | the payload carries the body's file name, its content as `textContent`, and its conversation id and timestamp unchanged |
| SaveTranscriptRoute.ForwardedIffValid | src/app/api/save-transcript/route.ts:7-46 | the webhook is called exactly when the URL is configured and the body is readable and valid, and then with the body's file name and text |
| SaveTranscriptRoute.SuccessIffWebhookAccepted | src/app/api/save-transcript/route.ts:48-64 | the caller gets a 2xx status exactly when the payload was forwarded and the webhook answered 2xx; that status is then 200 with a message |
| SaveTranscriptRoute.WebhookRejectionPassedThrough | src/app/api/save-transcript/route.ts:48-55 | a rejected webhook call returns the webhook's own status with its body text as details |
| SaveTranscriptRoute.ErrorsBeforeForwarding | src/app/api/save-transcript/route.ts:7-76 | a missing webhook URL gives the configuration 500, and an invalid body gives 400; neither forwards anything; an unreadable body gives 500 with the error message and forwards nothing, and a network error on the forwarded call gives 500 with its message |
| SaveTranscriptRoute.EmptyContentRejected | src/app/api/save-transcript/route.ts:20-25 | empty content, a non-string file name and a non-object body are all refused with 400 |
| RetryTranscriptRoute.Decide | src/app/api/retry-transcript/route.ts:5-109 | the endpoint's answer, the payload it forwards and the attempt it records; stated by `ForwardedRetryIsRecorded`, `RetryResponses`, `RetryFailures` and `SuccessiveRetriesDiffer` |
| RetryTranscriptRoute.Post | src/app/api/retry-transcript/route.ts:5-109 | the response and the forwarded payload are those of `Decide`; without an update nothing is written; with one, the store changes exactly as `updateTranscriptStatus` does; the store invariant is kept for a string conversation id |
| RetryTranscriptRoute.DeliveryIdReadsBack | src/app/api/retry-transcript/route.ts:43 | the delivery id is the conversation id, a dash, and digits that read back as the number of this attempt |
| RetryTranscriptRoute.DeliveryIdInjective | src/app/api/retry-transcript/route.ts:43 | equal delivery ids mean the same conversation id and the same attempt, even for ids containing dashes |
| RetryTranscriptRoute.ForwardedRetryIsRecorded | src/app/api/retry-transcript/route.ts:17-100 | an attempt is recorded exactly when a payload was posted; it is recorded under the string form of the request's conversation id, on the record the payload came from; the payload carries that record's file name, text and attempt count, the id as sent, the clock reading and the retry flag; the attempt says `sent` exactly when the webhook answered 2xx |
| RetryTranscriptRoute.RetryResponses | src/app/api/retry-transcript/route.ts:18-86 | the caller gets 200 exactly when the webhook accepted; a falsy id gives 400 and a missing transcript 404, with nothing recorded |
| RetryTranscriptRoute.RetryFailures | src/app/api/retry-transcript/route.ts:8-100 | a missing webhook URL gives the configuration 500 and an unreadable body the processing 500, with nothing forwarded or recorded; a forwarded retry the webhook rejects answers with the webhook's status and body and records `failed` with those details; a network error answers 500 with its message and records `failed`; a 2xx records `sent` |
| RetryTranscriptRoute.SuccessiveRetriesDiffer | src/app/api/retry-transcript/route.ts:42-43 | after one recorded retry, the next retry reports one more previous attempt and carries a different delivery id |
| RetryTranscriptRoute.SecondAttemptExample | src/app/api/retry-transcript/route.ts:36-44 | a transcript tried once before is re-sent with delivery id `abc-2`, `previousAttempts` 1 and `isRetry` set |
| TranscriptStatusRoute.SummaryOf | src/app/api/transcript-status/route.ts:25-37 | the summary lists the `pending` and `failed` ids as stored, and its total is the sum of the three counts |
| TranscriptStatusRoute.Get | src/app/api/transcript-status/route.ts:8-37 | with a non-empty id: 404 exactly when the transcript is missing, otherwise 200 with it; without one: 200 with `SummaryOf` the store |
| TranscriptStatusRoute.SummaryCountsRecords | src/app/api/transcript-status/route.ts:29-33 | under the store invariant, each count is the number of stored records with that status, and the total is the number of stored transcripts |
| TranscriptStatusRoute.SummaryReportsRecords | src/app/api/transcript-status/route.ts:24-37 | under the store invariant, a request without an id answers 200 with the counts of stored records of each status and in all, and lists exactly the pending and the failed ids |
| TranscriptStatusRoute.StatusesPartitionRecords | src/app/api/transcript-status/route.ts:33 | every record has exactly one of the three statuses, so the three counts add up to the number of records |
| TranscriptStatusRoute.CountMatches | src/app/api/transcript-status/route.ts:25-32 | under the invariant, a status list has one entry per record of that status |
| TranscriptStatusRoute.LookupAnswers | src/app/api/transcript-status/route.ts:11-21 | a lookup answers 200 exactly when both records of the id exist, and 404 exactly when one is missing |
| SessionLifecycle.EnableAudioSpec | src/app/App.tsx:355-360 | every audio track is left at the requested `enabled` value, and nothing else about any sender changes |
| SessionLifecycle.StopAllSpec | src/app/App.tsx:397-402 | every track is stopped, and nothing else about any sender changes |
| SessionLifecycle.EnableAudioUndone | src/app/App.tsx:437-444 | switching the audio tracks to a value and back restores them, when they were all at the second value |
| SessionLifecycle.Disconnect | src/app/App.tsx:396-417 | the page is disconnected, with no peer connection, an empty preview and the pause cleared; nothing else changes |
| SessionLifecycle.TextToSend | src/app/App.tsx:546-567 | a message is sent exactly when the page is connected, not timed out, not refreshing, not paused, and the trimmed text is non-empty; what is sent is the trimmed text |
| SessionLifecycle.InitialConsistent | src/app/App.tsx:48-71 | a freshly loaded page satisfies the lifecycle invariant |
| SessionLifecycle.ConnectKeeps | src/app/App.tsx:327-394 | a connection attempt keeps the invariant |
| SessionLifecycle.Tick | src/app/App.tsx:249-280 | one firing of the conversation timer; stated by `WarningRaisedOnce`, `QuietBeforeWarning` and `TimeoutStartsRefreshPeriod` |
| SessionLifecycle.RefreshTick | src/app/App.tsx:282-309 | one firing of the refresh timer; stated by `RefreshTickCountsDown` |
| SessionLifecycle.ConnectSpec | src/app/App.tsx:327-394 | nothing happens unless the page is idle and outside a time-out's refresh period; otherwise the time-out flag and the pause are cleared; no key or a thrown set-up ends disconnected; a peer connection that came up leaves the page connecting with every microphone track on; nothing else changes |
| SessionLifecycle.SessionCreatedSpec | src/app/App.tsx:222-245 | a new conversation starts its clock now and clears the time-out, warning, refresh period and pause, leaving the peer connection, countdown, saving flag and preview alone; an already connected page is unchanged |
| SessionLifecycle.AutoConnectSpec | src/app/App.tsx:216-220 | the idle check connects exactly when the page is disconnected, outside a refresh period and not timed out, and then the attempt goes ahead |
| SessionLifecycle.ToggleConnectionSpec | src/app/App.tsx:420-428 | the connect button does nothing while connecting or refreshing, disconnects a connected page, and otherwise tries to connect |
| SessionLifecycle.TogglePauseSpec | src/app/App.tsx:431-448 | the pause button does nothing unless connected; then it flips the pause and leaves every microphone track enabled exactly when not paused, keeping the senders and everything else |
| SessionLifecycle.EndConversationSpec | src/app/App.tsx:112-141 | ending does nothing unless connected, unpaused and not already saving; a non-empty transcript is sent as one save request with the save marked in flight; an empty one disconnects at once and sends nothing |
| SessionLifecycle.TogglePauseKeeps | src/app/App.tsx:431-444 | pausing keeps the invariant: the microphone follows the new pause flag |
| SessionLifecycle.StepPreservesConsistency | src/app/App.tsx:216-448 | every handler, timer tick and effect keeps the lifecycle invariant |
| SessionLifecycle.RunPreservesConsistency | src/app/App.tsx:216-448 | every state reachable by any sequence of events keeps the invariant |
| SessionLifecycle.WarningRaisedOnce | src/app/App.tsx:268-271 | from nine minutes on, a tick raises the warning once, and later ticks before ten minutes change nothing |
| SessionLifecycle.QuietBeforeWarning | src/app/App.tsx:254-272 | before nine minutes a tick changes nothing |
| SessionLifecycle.TimeoutStartsRefreshPeriod | src/app/App.tsx:257-266 | at ten minutes a tick disconnects, sets the time-out and starts a refresh period ending two minutes later, clearing the start time and the warning |
| SessionLifecycle.RefreshPeriodBlocks | src/app/App.tsx:328 | during the refresh period no connect, toggle or auto-connect changes anything, and every send guard is closed |
| SessionLifecycle.RefreshTickCountsDown | src/app/App.tsx:287-300 | a refresh tick shows the time left, never below zero; the period stays active exactly until its end time, and then the time-out is cleared |
| SessionLifecycle.ReconnectAfterRefresh | src/app/App.tsx:216-220 | after a time-out the page does not reconnect by itself; once a refresh tick at two minutes or later has run, the idle check starts connecting |
| SessionLifecycle.TogglePauseTwice | src/app/App.tsx:431-444 | pausing twice gives back the state before, microphone included |
| SessionLifecycle.MicrophoneFollowsPause | src/app/App.tsx:437-444 | in every consistent state, an audio track is enabled exactly when the conversation is not paused |
| SessionLifecycle.PauseSuppressesSending | src/app/App.tsx:450-451 | while paused, simulated messages, session updates, speech cancellation, typed messages and ending the conversation are all refused |
| SessionLifecycle.OneSaveAtATime | src/app/App.tsx:112-115 | while a save request is in flight, a second end-conversation request sends nothing and changes nothing |
| SessionLifecycle.ExplicitSaveAccepted | src/app/App.tsx:117-141 | the explicit save request passes the save endpoint's validation exactly when the formatted transcript is non-empty, and the endpoint forwards its file name, text and conversation id unchanged |
| SessionLifecycle.Session.constructor | src/app/App.tsx:48-71 | the page starts in the initial state, which satisfies the invariant |
| SessionLifecycle.Session.SetAudioEnabled | src/app/App.tsx:355-360 | the loop leaves the senders equal to `EnableAudio` of the old senders |
| SessionLifecycle.Session.StopTracks | src/app/App.tsx:397-402 | the loop leaves the senders equal to `StopAll` of the old senders |
| SessionLifecycle.Session.DisconnectFromRealtime | src/app/App.tsx:396-417 | the new state is `Disconnect` of the old; the tracks of a held peer connection are stopped; the invariant `Valid()` is kept |
| SessionLifecycle.Session.ConversationTimerFires | src/app/App.tsx:254-272 | the new state is `Tick` of the old; the invariant `Valid()` is kept |
| SessionLifecycle.Session.TimeOut | src/app/App.tsx:257-267 | the page disconnects, is timed out and enters the refresh period |
| SessionLifecycle.Session.RefreshTimerFires | src/app/App.tsx:287-301 | the new state is `RefreshTick` of the old; the invariant `Valid()` is kept |
| SessionLifecycle.Session.AttachPeer | src/app/App.tsx:351-360 | the page holds a new peer connection whose audio tracks are all enabled |
| SessionLifecycle.Session.ConnectToRealtime | src/app/App.tsx:327-394 | the new state is `Connect` of the old with the given outcome; the invariant `Valid()` is kept |
| SessionLifecycle.Session.OnSessionConnected | src/app/App.tsx:222-245 | the new state is `SessionCreated` of the old; the invariant `Valid()` is kept |
| SessionLifecycle.Session.ConnectWhenIdle | src/app/App.tsx:216-220 | the new state is `AutoConnect` of the old; the invariant `Valid()` is kept |
| SessionLifecycle.Session.OnToggleConnection | src/app/App.tsx:420-428 | the new state is `ToggleConnection` of the old; the invariant `Valid()` is kept |
| SessionLifecycle.Session.OnTogglePause | src/app/App.tsx:431-448 | the new state is `TogglePause` of the old; the invariant `Valid()` is kept |
| SessionLifecycle.Session.HandleEndConversation | src/app/App.tsx:112-164 | the new state and the request sent are those of `EndConversation`; the invariant `Valid()` is kept |
| SessionLifecycle.Session.EndConversationAnswered | src/app/App.tsx:143-158 | the new state is `SaveAnswered` of the old: a successful save disconnects, and either way the save is over; the invariant `Valid()` is kept |
| SessionLifecycle.Session.HandleSendTextMessage | src/app/App.tsx:546-567 | the text sent is `TextToSend`: only the non-empty trimmed text, only when sending is allowed |
| SessionLifecycle.Session.SendSimulatedUserMessage | src/app/App.tsx:450-473 | a message is sent exactly when the page is not timed out, not refreshing and not paused, and it is the given text |
| SessionLifecycle.Session.MaySend | src/app/App.tsx:475-476 | session updates and speech cancellation get past their guard exactly when the page is not timed out, not refreshing and not paused |

## Left out

- Input and output, and the database client's own failures:
  - The key-value client's reads and writes are the `Store` maps, and never fail in this model.
  - The catch-all branches of `db.ts` that return `null`, `[]` or `0` after a thrown error are therefore not modelled.
  - So is the 500 answer of `transcript-status` (its lines 38-44), which only a thrown database error reaches.
- Console logging and the page's breadcrumb and event logging are left out: they change no modelled state.
- Clocks, `uuidv4` and ISO rendering are not modelled:
  - clock readings are parameters;
  - ISO text is an opaque parameter;
  - the cleanup's `new Date(updatedAt).getTime()` is the stored millisecond value itself.
- JSON values are whole numbers, strings, booleans, null and composites carrying their string form. Fractional numbers and their text are not modelled.
- The WebRTC set-up is one outcome per connection attempt:
  - fetching the ephemeral key;
  - creating the peer connection;
  - the audio element.
  The attempt runs to its end atomically, so interleavings with other handlers during its `await`s are not modelled.
- The status becomes CONNECTED through the server-event handler, which is not part of this model. `SessionCreated` combines that status change with the effect that resets the conversation state.
- The data channel's `close`, `error` and `message` listeners are not modelled: the status resets they make and the text preview they set.
- Agent selection and the agent-change handler are not modelled, nor the agent condition in front of the auto-connect and connected effects. These are modelled as if an agent were always selected.
- The `beforeunload` transcript beacon is not modelled, since it is a fire-and-forget send on page close.
- The input box text (`userText`) is not modelled, nor the UI-only flags (bubble, panes, audio playback).
- React's scheduling is reduced to one state change per handler call:
  - deferred state updates;
  - stale closures inside the interval timers;
  - effect re-runs on dependency changes.
- Concurrency between requests to the endpoints is not modelled: each request runs on its own against the store.
- RetryTranscriptRoute.Post: promises the store invariant only for a conversation id that is a JSON string. For any other value the code reads the records under its string form but searches and extends the id lists with the raw value, so the id stays listed under its old status and a non-string entry is appended. The model's lists hold strings only, so it moves the string form instead.
- TranscriptStore.Store.SaveTranscript: promises the store invariant only when the id is new or still pending. As the code does, saving over a `sent` or `failed` id leaves that id in its old status list as well as in `pending`.
