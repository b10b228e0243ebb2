# Chat front end: send paths, conversation titles and the voice-recording join

This project models in Dafny the logic in the React front end of a chat
bot. Four components are covered:

- **ConversationList** derives each conversation's first user message from its
  fetched history. It shortens that message to a title of at most five words
  followed by `...`. A newly created conversation goes in front of the list.
- **ChatInterface** (the desktop view) guards a send with "the trimmed input is
  non-empty and no send is in flight". It appends an optimistic user message
  with a temporary id `temp-<now>`. When the backend answers, every message with
  that id is filtered out and the answer is appended.
- **MobileChatInterface** has the same guard. The user's message stays and the
  bot's reply is appended after it, so the list grows by two, or by one when the
  request fails. The message box is as tall as its content, but at most 120
  pixels.
- **VoiceRecorder** runs a media recorder and an optional speech recogniser side
  by side. Each stream sets its own flag when it ends and schedules a delayed
  check: 200 ms after the recorder's `onstop`, 100 ms after the recogniser's
  `onend`. The recogniser's check only goes on when the recorder is inactive.
  A check that goes on and finds both flags set hands one `(audio, transcript)`
  result to `onRecordingComplete` and resets the flags.

Code that changes state in the source is modelled as classes whose methods
update fields:

- React state and refs become fields.
- Each browser callback and each expiring timer becomes one method call.
- The pending timers are fields: a queue of blobs for the recorder's checks and
  a count for the recogniser's checks.

The callbacks can run in any order, within what each method's `requires`
allows. Under every such order, the ghost invariant `Valid` shows two things:

- A session emits at most once, provided `onRecordingComplete` returns normally.
- Once both streams have ended and every delayed check has run, it has emitted
  exactly once (`ExactlyOnce`).

An async handler that awaits one request is two methods, split at the `await`:

- `HandleSendMessage` runs up to the request and returns the request it sends.
- `CompleteSendMessage` runs when the request settles. The backend's answer is
  an `Option` parameter, and `None` means the request threw.

Other events can run between the two halves, and they see `isSending` set.
`fetchConversations` is split the same way, into `FetchConversations` and
`CompleteFetchConversations`.

The JavaScript string operations the components rely on are modelled with
their ECMAScript meaning, in `text.dfy`:

- `trim` removes WhiteSpace and LineTerminator code points at both ends.
- `split(' ')` splits on a one-character separator.
- `join(' ')` joins the parts with that separator.

Files:

- `types.dfy`: the shared records.
- `text.dfy`: the string operations.
- `send_guard.dfy`: the send guard.
- `conversation_list.dfy`, `chat_interface.dfy`, `mobile_chat_interface.dfy` and
  `voice_recorder.dfy`: one module per component.

## Model

| member | source | states |
|---|---|---|
| Text.TrimSpec | src/components/features/ChatInterface.tsx:55 | `trim` keeps an infix of the string that neither starts nor ends with whitespace, and everything it removed on either side is whitespace |
| Text.TrimStartSpec | src/components/features/ChatInterface.tsx:55 | removing leading whitespace drops an all-whitespace prefix and stops at the first non-whitespace character |
| Text.TrimEndSpec | src/components/features/ChatInterface.tsx:55 | removing trailing whitespace drops an all-whitespace suffix and stops at the last non-whitespace character |
| Text.TrimEmptyIff | src/components/features/ChatInterface.tsx:55 | a string trims to the empty string if and only if every character of it is whitespace |
| Text.Split | src/components/features/ConversationList.tsx:73 | `split` yields at least one part, and no part contains the separator |
| Text.JoinSplit | src/components/features/ConversationList.tsx:73-74 | joining the parts of a split with the same separator gives back the original string |
| Text.SplitJoin | src/components/features/ConversationList.tsx:73-74 | splitting a join of one or more separator-free parts gives back exactly those parts |
| Text.JoinAppend | src/components/features/ConversationList.tsx:74 | joining two non-empty lists of words puts exactly one separator between the two joins |
| Text.SplitAtSeparator | src/components/features/ConversationList.tsx:73 | a separator-free word followed by the separator splits off as the first part, and the rest splits on its own |
| SendGuard.CanSendIff | src/components/features/ChatInterface.tsx:55 | a send goes ahead exactly when no send is in flight and the input has at least one non-whitespace character |
| ConversationList.UserMessagesEmptyIff | src/components/features/ConversationList.tsx:36-38 | filtering by role `user` leaves nothing exactly when no message has that role |
| ConversationList.FirstUserMessageIsFirst | src/components/features/ConversationList.tsx:36-42 | `first_message` is the content of the earliest message whose role is `user` |
| ConversationList.FirstUserMessageAbsentIff | src/components/features/ConversationList.tsx:36-42 | `first_message` is undefined exactly when the history is missing or has no user message |
| ConversationList.WithFirstMessages | src/components/features/ConversationList.tsx:34-44 | the transform keeps every conversation in order and unchanged, and pairs each with its own first user message |
| ConversationList.TitleOfMissingMessage | src/components/features/ConversationList.tsx:70-77 | without a first message, or with an empty one, the title is `Empty Conversation` |
| ConversationList.TitleOfShortMessage | src/components/features/ConversationList.tsx:73-74 | a message of at most five space-separated words is its own title |
| ConversationList.TitleOfLongMessage | src/components/features/ConversationList.tsx:73-74 | for a longer message, the title ends in `...`, and what comes before it is a prefix of the message. That prefix stops just before a space and consists of exactly the first five words |
| ConversationList.ConversationListState.FetchConversations | src/components/features/ConversationList.tsx:28-31 | while the request is out, the list shows as loading |
| ConversationList.ConversationListState.CompleteFetchConversations | src/components/features/ConversationList.tsx:31-52 | a successful fetch replaces the list with the transformed response, a failed fetch keeps the old list, and loading is over either way |
| ConversationList.ConversationListState.CreateNewConversation | src/components/features/ConversationList.tsx:60-68 | a created conversation, with no first message, goes in front of the unchanged rest and is selected; on failure nothing changes |
| ChatInterface.WithoutId | src/components/features/ChatInterface.tsx:83 | the filter keeps exactly the messages whose id differs from the given one, and never lengthens the list |
| ChatInterface.WithoutIdAppend | src/components/features/ChatInterface.tsx:83 | filtering a concatenation filters each part, so the kept messages keep their order |
| ChatInterface.WithoutIdUnaffected | src/components/features/ChatInterface.tsx:83 | a list with no message carrying the id is left as it is |
| ChatInterface.ReplaceOptimistic | src/components/features/ChatInterface.tsx:81-85 | when no earlier message carries the temporary id, filtering out the optimistic message and appending the reply gives the earlier list followed by the reply |
| ChatInterface.ChatInterfaceState.HandleSendMessage | src/components/features/ChatInterface.tsx:52-78 | the guard returns early exactly when the trimmed input is empty or a send is in flight, and then nothing changes. Otherwise the optimistic message `temp-<now>` is appended, the input is cleared, sending is on, and the request carries the typed text |
| ChatInterface.ChatInterfaceState.CompleteSendMessage | src/components/features/ChatInterface.tsx:80-91 | on success every message with the temporary id is dropped and the reply goes last; on failure the list is unchanged. Sending is over either way |
| ChatInterface.SendOnce | src/components/features/ChatInterface.tsx:52-92 | when no earlier message carries the temporary id, a send with nothing in between leaves the earlier messages followed by the reply on success, or followed by the optimistic message on failure |
| MobileChatInterface.TextareaHeight | src/components/features/MobileChatInterface.tsx:53-56 | the box's height is at most 120 and at most the content's height, and equals one of the two |
| MobileChatInterface.MobileChatInterfaceState.AdjustTextareaHeight | src/components/features/MobileChatInterface.tsx:50-58 | a mounted box gets the capped height in pixels; without a box nothing happens |
| MobileChatInterface.MobileChatInterfaceState.OnChange | src/components/features/MobileChatInterface.tsx:154-157 | the typed text becomes the input and the box is resized to it |
| MobileChatInterface.MobileChatInterfaceState.HandleSendMessage | src/components/features/MobileChatInterface.tsx:60-87 | the same guard as the desktop view. Otherwise the user's message is appended, the input is cleared, the box goes back to `auto`, and the request carries the typed text |
| MobileChatInterface.MobileChatInterfaceState.CompleteSendMessage | src/components/features/MobileChatInterface.tsx:89-95 | the reply, if any, is appended after everything already there; nothing is removed; sending is over |
| MobileChatInterface.SendOnce | src/components/features/MobileChatInterface.tsx:60-96 | one send grows the list by the user's message and, on success, the reply after it: by two or by one |
| VoiceRecorder.FinalTranscriptSnoc | src/components/features/VoiceRecorder.tsx:74-80 | reading one more result adds its text when it is final and nothing otherwise |
| VoiceRecorder.FinalTranscriptAppend | src/components/features/VoiceRecorder.tsx:72-81 | results read in two batches add up to the same transcript as reading them at once |
| VoiceRecorder.FinalTranscriptOfInterim | src/components/features/VoiceRecorder.tsx:75-79 | a batch of interim results adds nothing to the transcript |
| VoiceRecorder.VoiceRecorderState.TryFinishRecording | src/components/features/VoiceRecorder.tsx:22-35 | with both flags set, the audio and the trimmed transcript are emitted once, and the flags and the transcript are reset; otherwise nothing changes. It keeps `Valid` |
| VoiceRecorder.VoiceRecorderState.Start | src/components/features/VoiceRecorder.tsx:37-111 | without the microphone nothing changes. Otherwise the session is reset: no chunks, an empty transcript, neither flag set. If `mediaRecorder.start()` throws, the recorder stays inactive without having started. If creating or starting the recogniser throws, the recorder runs with no recogniser and neither `recognitionRef` nor `isRecording` changes. Without speech recognition, that stream counts as already finished |
| VoiceRecorder.VoiceRecorderState.ResetSession | src/components/features/VoiceRecorder.tsx:41-45 | the new recorder is installed but not started; the chunks, both flags and the transcript are reset, and a new session begins with no emission |
| VoiceRecorder.VoiceRecorderState.UnstartedSessionNeverEmits | src/components/features/VoiceRecorder.tsx:53-62 | when `mediaRecorder.start()` threw, the session never emits: without a started recorder, `onstop` never sets the recorder's flag |
| VoiceRecorder.VoiceRecorderState.OnData | src/components/features/VoiceRecorder.tsx:47-51 | a non-empty chunk is appended after the earlier ones; an empty chunk is dropped |
| VoiceRecorder.VoiceRecorderState.OnResult | src/components/features/VoiceRecorder.tsx:72-83 | the final results from `resultIndex` on are appended to the transcript in order. Interim results add nothing, and the earlier transcript stays a prefix |
| VoiceRecorder.VoiceRecorderState.RecorderStopped | src/components/features/VoiceRecorder.tsx:53-60 | the recorder's flag is set, and a check is queued with the blob of the chunks at this moment |
| VoiceRecorder.VoiceRecorderState.RecorderCheck | src/components/features/VoiceRecorder.tsx:57-59 | the oldest recorder check runs and attempts to finish with the blob built at `onstop` |
| VoiceRecorder.VoiceRecorderState.RecognitionEnded | src/components/features/VoiceRecorder.tsx:89-98 | the recogniser's flag is set and one more recognition check is queued |
| VoiceRecorder.VoiceRecorderState.RecognitionCheck | src/components/features/VoiceRecorder.tsx:91-97 | with the recorder inactive, it attempts to finish with a blob of the chunks now; otherwise it does nothing |
| VoiceRecorder.VoiceRecorderState.Stop | src/components/features/VoiceRecorder.tsx:113-123 | a recording recorder goes inactive. Without a recogniser, recognition counts as finished at once. Recording is off |
| VoiceRecorder.VoiceRecorderState.ExactlyOnce | src/components/features/VoiceRecorder.tsx:22-35 | once both streams have ended and every queued check has run, the session has emitted exactly once. `Valid`, kept by every method, ties the session's count to the emission log and rules out a second emission |
| VoiceRecorder.RecorderEndsFirst | src/components/features/VoiceRecorder.tsx:53-98 | recorder first: the recorder's check finds recognition running and does nothing, and the recognition check then emits the one result, with the audio and the trimmed final transcript |
| VoiceRecorder.RecognitionEndsFirst | src/components/features/VoiceRecorder.tsx:53-98 | recognition first, while the recorder is still recording: its check does nothing, and the recorder's check emits the one result |
| VoiceRecorder.BothEndBeforeChecks | src/components/features/VoiceRecorder.tsx:53-98 | both streams end before either check runs: the first check emits the result and the second finds the flags reset |
| VoiceRecorder.StaleRecorderCheck | src/components/features/VoiceRecorder.tsx:37-60 | suppose a second session starts before the first session's recorder check fires, and both of its streams end first. That old check hands over the first session's audio with the second session's transcript |
| VoiceRecorder.WithoutRecognition | src/components/features/VoiceRecorder.tsx:102-105 | without speech recognition, the recorder alone gates the result: one capture with an empty transcript |

## Left out

- VoiceRecorder.VoiceRecorderState.TryFinishRecording: the model assumes `onRecordingComplete` returns. In the code the callback runs before the flags and the transcript are reset. If it throws, both flags stay set, and the next check of the same session calls `onRecordingComplete` again with the same transcript. The at-most-once invariant `Valid` does not cover that path.
- JavaScript strings are sequences of UTF-16 code units, while the model's strings are sequences of Unicode scalar values. Input containing a lone surrogate is not represented.
- The HTTP calls in `src/services/api.ts` are not modelled; each awaited result is a parameter instead, and `None` means the call threw.
- `fetchMessages` in both chat views is not modelled. It replaces the list with the fetched history or keeps it on error, and it is not part of the send path.
- Console logging, the recogniser's `onerror` handler (it only logs), `scrollIntoView` and the locale formatting of time stamps are not modelled.
- `Date.now()` and `new Date().toISOString()` are parameters (`now`, `createdAt`, `timestamp`).
- The Enter-key handler of the mobile box is not modelled. It calls the same `handleSendMessage`.
- Only the order of the timers is modelled. Their durations (200 ms and 100 ms) are not, so any order in which the browser runs callbacks and timers is allowed.
- The recorder's `paused` state is not modelled, and neither is a recorder that stops by itself before `stopRecording`. The recorder's `onstop` may fire only after `Stop` made it inactive.
- Events from the recorder or recogniser of an earlier session are not modelled. A recogniser from an earlier session whose `onend` or `onresult` arrives during a later session is such an event. Delayed checks queued in an earlier session are kept, and they may run in a later one.
- A recognition result is modelled by its first alternative only, as `maxAlternatives = 1` requests. The recogniser's language setting and the blob's MIME type are not modelled.
- `Start` has no guard against a second start while a session is in flight, and neither does the code. The button offers a start whenever `isRecording` is false. That is the case after `stopRecording`, before the two streams and their checks have finished. It is also the case while `getUserMedia` is awaited, before `isRecording` is set. The button itself is not modelled, so the model allows a start at any time.
- A check queued in one session is not tied to that session. If a new session starts before the check fires, the check can hand over the old session's audio together with the new session's transcript (`StaleRecorderCheck`). The new session's own checks then find the flags reset, so its audio is never handed over.
- A session whose start threw after the reset is never handed over, because the button then offers a start rather than a stop. The model keeps such a session; it simply never emits when the recorder did not start (`UnstartedSessionNeverEmits`).
- The code has no upper bound on waiting for the recogniser to end. A forced finalisation after a bounded wait is not present, and is not modelled.
- The mobile view's messages are `{ role, content, timestamp }` records, as the code builds them. The view reads `conversation._id` where the shared type has `id`. The model keeps one conversation id per view.
- Releasing the microphone stream is not modelled. The code never stops its tracks.
- The dashboard, the pages, the token statistics and the layout components are not modelled; they only render these components.
