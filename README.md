# Voice agent core, modelled in Dafny

The system is a note-taking assistant with a mobile app and a server. This
project models the four pieces of it that decide what the voice agent does:

- **The agent loop** (`VoiceAgent`, `agent_service.dfy`). This is the mobile
  `AgentService` singleton. While it runs, it cycles
  `LISTENING -> PROCESSING -> TALKING` over 2.5-second recordings:
  - it uploads each recording to `<server>/api/chat/agent` together with the
    state tag `IDLE` or `ACTIVE`;
  - it keeps the active-mode flag (the global `agentActiveMode`) between
    cycles.

  The class `AgentService` has its fields at three levels:
  - the source's own fields: recording, running flag, current state, server
    URL, observer;
  - the flag;
  - two bookkeeping fields: the number of utterances whose `onDone` callback
    is still to come, and the effects so far (observer calls, uploads,
    utterances).

  Every method is proved equal to a transition function on the value
  `AgentModel`, and the properties are lemmas about those functions.
- **The intent endpoint** (`AgentRoute`, `agent_route.dfy`). This is the
  server's `POST` handler. Its work, in order:
  1. It refuses a form without audio.
  2. It picks the wake-word or the intent prompt from the state tag.
  3. It calls the language model.
  4. It deletes code fences from the answer and trims it.
  5. It parses the answer.
  6. It stores a note for a `CREATE_NOTE` intent.
  7. It answers with a success or a failure envelope.

  The model, `JSON.parse` and the note store are passed in as functions.
  The model call carries a tag naming one of the two prompts; the text the
  tag stands for is `PromptText`.
- **The chat screen's keyword agent** (`ChatScreen`, `chat_screen.dfy`). It
  covers:
  - the transcript-driven `handleSpeechResult` over agent mode and the
    status `IDLE | ACTIVE | PROCESSING`;
  - the regular-expression note-content extraction, as an exact string
    function;
  - the agent button, the recognizer's `isListening` prop, and the
    mounting of the recognizer only while agent mode is on;
  - the guarded `sendMessage` and `saveNote`.
- **The speech recognizer** (`SpeechRecognizer`, `speech_recognizer.dfy`).
  It covers:
  - the page's `onresult` loop, which folds recognition results into a final
    and an interim text and posts the chosen one trimmed and lower-cased;
  - the prop rule that starts and stops recognition;
  - the app-side message handler.

Shared modules:
- `Text` has JavaScript's `trim`, `includes`, `startsWith`, `endsWith`,
  ASCII `toLowerCase`, and the whitespace class of regular expressions.
- `Json` has decoded values with JavaScript truthiness, property lookup and
  object spread.
- `Wrappers` has `Option` and `Result`.

I/O is abstracted as follows:
- The recorder, the network, speech output, timers and the WebView are
  parameters.
- Everything that can happen while the agent loop is suspended at an
  `await` is an `Interrupt` input: an utterance finishing, or `stop()` being
  called.
- A cycle's inputs (`CycleInput`) are:
  - what `createAsync` and `stopAndUnloadAsync` produce;
  - the server's answer;
  - one interrupt per `await`.
- `start()` runs the loop against a finite sequence of cycle inputs. The
  loop ends when:
  - the agent is stopped;
  - an exception leaves the loop;
  - or the inputs run out.

Four behaviours of the code are worth knowing, and the model follows the
code in each:
- `stop()` does not clear the active-mode flag (`AgentService.ts` lines
  27-31 touch only the running flag, the recording and the state).
  `VoiceAgent.StopEndsIdle` states that the flag is kept.
- `stop()` does not end all further uploads. A recording whose
  `createAsync` was still pending arrives after `stop()` looked for one
  and is still stopped and sent (`VoiceAgent.StopWhileStartingStillSends`).
  A request already in flight can still set the flag and make the agent
  talk (`VoiceAgent.LateWakeAfterStop`).
- A pass whose capture yields no URI sends nothing but ends LISTENING, not
  IDLE, when nothing interrupts it and entering LISTENING does not throw.
  Line 55 skips the upload, and line 64 resets only a leftover PROCESSING
  (`VoiceAgent.CaptureFailureStaysListening`).
- The endpoint does not check the shape of the model's JSON
  (`route.ts` line 62). Any value `JSON.parse` returns is used. A `null`
  fails on reading `action` and gives the 500 envelope. Other non-objects
  have no `action` and give a success carrying their spread properties.

## Model

| member | source | states |
|---|---|---|
| VoiceAgent.NormalizeUrl | apps/mobile/src/services/AgentService.ts:119 | the upload base always ends in `/api`, is the URL itself when it already does, and otherwise only extends the URL |
| VoiceAgent.NormalizeUrlIdempotent | apps/mobile/src/services/AgentService.ts:119 | normalising twice is normalising once |
| VoiceAgent.UploadUrl | apps/mobile/src/services/AgentService.ts:119-122 | every upload goes to a URL ending in `/api/chat/agent` |
| VoiceAgent.RequestState | apps/mobile/src/services/AgentService.ts:115 | the state tag is `ACTIVE` exactly when the flag is set and `IDLE` exactly when it is not |
| VoiceAgent.Interrupted | apps/mobile/src/services/AgentService.ts:27-31 | what happens at an `await` (an `onDone`, a `stop()`) leaves the state as it was or IDLE and never changes the URL, the observer or the flag |
| VoiceAgent.StopStep | apps/mobile/src/services/AgentService.ts:27-31 | `stop()`: running cleared, the recording stopped, then `setState('IDLE')`; `StopEndsIdle` and `StopKeepsRequests` are proved about it |
| VoiceAgent.RecoverStep | apps/mobile/src/services/AgentService.ts:68-72 | the loop's `catch` always ends IDLE |
| VoiceAgent.ListenStep | apps/mobile/src/services/AgentService.ts:49-53 | `setState('LISTENING')` through `stopRecording()`; it never sets running, and `ListenKeepsRequests`, `ListenKeepsNotices` and `CaptureFailureStaysListening` state that it sends nothing, tells no PROCESSING and, when quiet, leaves LISTENING |
| VoiceAgent.UploadStep | apps/mobile/src/services/AgentService.ts:55-58 | `if (uri)`, `setState('PROCESSING')` and `processAudio`; it never sets running, and `UploadSendsOnlyWithUri` states that it uploads exactly for a URI |
| VoiceAgent.SettleStep | apps/mobile/src/services/AgentService.ts:64-72 | after the PROCESSING reset and the `catch`, the state is never PROCESSING; a leftover PROCESSING and any caught exception end IDLE, and so does an exception that leaves the loop |
| VoiceAgent.ReplyStep | apps/mobile/src/services/AgentService.ts:127-149 | the handling of the server's answer; it never sets running, and its cases are stated by `WakeWordActivates`, `NoWakeWordNoChange`, `StopActionClearsFlag`, `ActiveReplySpoken` and `RequestErrorsSwallowed` |
| VoiceAgent.CycleStep | apps/mobile/src/services/AgentService.ts:40-72 | one pass of the loop body; it never sets running, and its uploads and end states are stated by `CycleUploadsOnlyWithUri`, `NoCycleEndsProcessing` and `CaptureFailureStaysListening` |
| VoiceAgent.Run | apps/mobile/src/services/AgentService.ts:38-74 | the loop over a sequence of passes, ending when stopped, on an exception or when the inputs run out; `RunNeverEndsProcessing` is proved about it |
| VoiceAgent.AgentService.Init | apps/mobile/src/services/AgentService.ts:16-19 | `init` sets the server URL and replaces the observer, nothing else |
| VoiceAgent.AgentService.SetState | apps/mobile/src/services/AgentService.ts:33-36 | the new state equals `SetStateStep`: the state is stored, then the observer is called, and whether it threw is returned |
| VoiceAgent.AgentService.StopRecording | apps/mobile/src/services/AgentService.ts:85-95 | equals `StopRecordingStep`: null with no recording or a failed unload, otherwise the URI, with the recording cleared first |
| VoiceAgent.AgentService.Stop | apps/mobile/src/services/AgentService.ts:27-31 | equals `StopStep`: not running, the recording stopped, then `setState('IDLE')` |
| VoiceAgent.AgentService.Await | apps/mobile/src/services/AgentService.ts:44 | equals `Interrupted` for an interrupt at an `await` |
| VoiceAgent.AgentService.StartRecording | apps/mobile/src/services/AgentService.ts:76-83 | equals `StartRecordingStep`: the interrupt during `createAsync`, then the new recording if one was created, otherwise the old one is kept |
| VoiceAgent.AgentService.Speak | apps/mobile/src/services/AgentService.ts:134 | equals `SpeakStep`: one utterance is recorded and its `onDone` is pending |
| VoiceAgent.AgentService.ProcessAudio | apps/mobile/src/services/AgentService.ts:97-157 | equals `ProcessAudioStep` for the upload, the reply handling and the swallowed errors |
| VoiceAgent.AgentService.Recover | apps/mobile/src/services/AgentService.ts:68-72 | equals `RecoverStep`, the `catch` transition: the loop ends IDLE |
| VoiceAgent.AgentService.RunCycle | apps/mobile/src/services/AgentService.ts:40-72 | one pass of the loop body equals `CycleStep` |
| VoiceAgent.AgentService.Loop | apps/mobile/src/services/AgentService.ts:38-74 | the loop's state equals `Run` over the inputs (loop invariant: what is left to run leads to the same end) |
| VoiceAgent.AgentService.Start | apps/mobile/src/services/AgentService.ts:21-25 | equals `StartStep`: nothing when running, otherwise running is set and the loop runs |
| VoiceAgent.ProcessAudioSendsOne | apps/mobile/src/services/AgentService.ts:115-125 | `processAudio` sends exactly one upload, for its URI, tagged from the flag as it was when the call began; nothing after it sends another |
| VoiceAgent.RequestTagFollowsFlag | apps/mobile/src/services/AgentService.ts:115-122 | the upload carries the URI, is tagged `ACTIVE` if and only if the flag is set, and goes to `.../api/chat/agent` |
| VoiceAgent.StartIsIdempotent | apps/mobile/src/services/AgentService.ts:21-25 | `start()` on a running agent changes nothing; otherwise it sets running and runs the loop; starting again while running changes nothing |
| VoiceAgent.StopEndsIdle | apps/mobile/src/services/AgentService.ts:27-31 | after `stop()`: not running, IDLE, the observer told IDLE, a recording it could unload dropped, the flag, URL and observer kept |
| VoiceAgent.SetStateNotifiesObserver | apps/mobile/src/services/AgentService.ts:33-36 | `setState(s)` stores `s` and calls the observer with exactly `s`; after `init` only the new observer is called, and it throws exactly for its throwing states |
| VoiceAgent.StopRecordingYieldsHeldUri | apps/mobile/src/services/AgentService.ts:85-95 | no recording gives null and no change; a successful unload gives the held URI and clears the recording; a returned URI always comes with the recording cleared |
| VoiceAgent.TalkingOnlyWaits | apps/mobile/src/services/AgentService.ts:43-46 | while TALKING a pass only waits: no new recording, no upload |
| VoiceAgent.RecoverKeepsRequests | apps/mobile/src/services/AgentService.ts:68-72 | the `catch` sends nothing |
| VoiceAgent.ListenKeepsRequests | apps/mobile/src/services/AgentService.ts:49-53 | recording sends nothing |
| VoiceAgent.UploadSendsOnlyWithUri | apps/mobile/src/services/AgentService.ts:55-58 | an upload is sent exactly when `stopRecording` yielded a non-empty URI and entering PROCESSING did not throw, and it carries that URI |
| VoiceAgent.SettleKeepsRequests | apps/mobile/src/services/AgentService.ts:64-72 | the reset of a leftover PROCESSING sends nothing |
| VoiceAgent.CycleUploadsOnlyWithUri | apps/mobile/src/services/AgentService.ts:39-72 | a pass uploads at most once, and exactly when it was not TALKING, recording did not throw, a URI came back and PROCESSING was entered |
| VoiceAgent.ProcessingOnlyWithUri | apps/mobile/src/services/AgentService.ts:55-58 | a pass tells the observer PROCESSING once exactly when it was not TALKING, recording did not throw, `stopRecording` yielded a URI and an observer is registered, and never otherwise |
| VoiceAgent.NoCycleEndsProcessing | apps/mobile/src/services/AgentService.ts:60-72 | no pass ends in PROCESSING; a pass ends IDLE when its listening half throws, when entering PROCESSING or the upload throws, when the upload leaves PROCESSING behind, and when an exception leaves the loop |
| VoiceAgent.CaptureFailureStaysListening | apps/mobile/src/services/AgentService.ts:55-65 | a pass that is not TALKING, is not interrupted, does not throw while entering LISTENING and gets no URI back sends nothing, throws nothing and ends LISTENING |
| VoiceAgent.RunNeverEndsProcessing | apps/mobile/src/services/AgentService.ts:38-74 | however many passes run, the loop never leaves the agent PROCESSING |
| VoiceAgent.WakeWordActivates | apps/mobile/src/services/AgentService.ts:129-137 | in IDLE mode `detected` always sets the flag; with nothing interrupting, the agent is TALKING after the greeting, and the trace is the upload, the observer call and the greeting |
| VoiceAgent.NoWakeWordNoChange | apps/mobile/src/services/AgentService.ts:129-137 | in IDLE mode an answer without `detected` changes nothing beyond the upload |
| VoiceAgent.StopActionClearsFlag | apps/mobile/src/services/AgentService.ts:140-148 | in active mode `action == 'STOP'` clears the flag, whether or not there is a reply; the flag survives exactly when a reply's `setState('TALKING')` throws |
| VoiceAgent.ActiveReplySpoken | apps/mobile/src/services/AgentService.ts:140-148 | in active mode a reply is spoken and leaves the agent TALKING; the flag stays set exactly when the action is not STOP |
| VoiceAgent.RequestErrorsSwallowed | apps/mobile/src/services/AgentService.ts:151-156 | a failed request or a `null` body changes nothing beyond the upload |
| VoiceAgent.StopWhileSamplingSendsNothing | apps/mobile/src/services/AgentService.ts:27-58 | `stop()` during the sampling window, when it can unload, ends the pass stopped and IDLE with no upload |
| VoiceAgent.StopWhileStartingStillSends | apps/mobile/src/services/AgentService.ts:51-58 | `stop()` while `createAsync` is pending does not prevent the upload: the recording arrives after `stop()` looked for one |
| VoiceAgent.LateWakeAfterStop | apps/mobile/src/services/AgentService.ts:122-137 | `stop()` while the upload is in flight does not prevent a detected wake word from setting the flag and TALKING |
| AgentRoute.AudioMissing | apps/server/src/app/api/chat/agent/route.ts:21 | `!audioFile`: a missing field or an empty text value; `Post` refuses exactly these with 400 |
| AgentRoute.IsIdleTag | apps/server/src/app/api/chat/agent/route.ts:19 | a missing, empty or `IDLE` state tag counts as IDLE |
| AgentRoute.PromptFor | apps/server/src/app/api/chat/agent/route.ts:37 | the wake-word prompt exactly for an IDLE tag, the intent prompt otherwise; `Post` states that the model call carries it |
| AgentRoute.StripFences | apps/server/src/app/api/chat/agent/route.ts:59 | the global deletion of "```json" and "```", left to right; `StripLeavesNoFence`, `StripFenceFree`, `StripWithoutBackticks` and `StripKeepsHead` are proved about it |
| AgentRoute.CleanModelText | apps/server/src/app/api/chat/agent/route.ts:59 | the deletion followed by `trim`; `CleanLeavesNoFence`, `CleanIdempotent` and `CleanWithoutBackticks` are proved about it |
| AgentRoute.Decode | apps/server/src/app/api/chat/agent/route.ts:57-62 | the model call, the cleaning and `JSON.parse`; `DecodeSeesCleanText` states that an error passes through and that the parser gets fence-free trimmed text |
| AgentRoute.WantsNote | apps/server/src/app/api/chat/agent/route.ts:65 | `action === 'CREATE_NOTE'` with truthy `content`; `Act` stores a note exactly for these |
| AgentRoute.SuccessBody | apps/server/src/app/api/chat/agent/route.ts:70 | `{success: true, ...data}`; `SuccessFlagOverridden` states that a parsed `success` wins |
| AgentRoute.MimeTypeOf | apps/server/src/app/api/chat/agent/route.ts:32 | the upload's own type is used when it has one, otherwise `audio/m4a` |
| AgentRoute.Failure | apps/server/src/app/api/chat/agent/route.ts:72-76 | the error envelope: status 500, exactly the keys `success` (false) and `error`, carrying the message |
| AgentRoute.Act | apps/server/src/app/api/chat/agent/route.ts:57-76 | a note is inserted exactly when `action === 'CREATE_NOTE'` with truthy `content` and the insert succeeds, with that content, at most once; the answer is 200 exactly when parsing gave a non-null value and any note asked for was stored, and the body is then `{success: true, ...data}`; otherwise it is the 500 envelope with no note, carrying the message of what was thrown: the model call's or `JSON.parse`'s error, the TypeError of reading `action` from `null`, or the insert's error |
| AgentRoute.Post | apps/server/src/app/api/chat/agent/route.ts:15-77 | no audio gives 400 `No audio` with no model call and no note; the model is called, once, exactly when a file was uploaded; the call has the wake-word prompt exactly for a missing, empty or `IDLE` state, the file's bytes, and its MIME type; every other error gives the 500 envelope with its message: the body-reading error's, the TypeError of a text value where the file belongs, or `Act`'s |
| AgentRoute.SuccessFlagOverridden | apps/server/src/app/api/chat/agent/route.ts:70 | a parsed `success` property replaces the handler's own flag |
| AgentRoute.WakePromptAsksDetected | apps/server/src/app/api/chat/agent/route.ts:37-43 | the wake-word prompt asks for `"detected"` |
| AgentRoute.IntentPromptNamesActions | apps/server/src/app/api/chat/agent/route.ts:44-55 | the intent prompt names `"CREATE_NOTE"`, `"STOP"` and `"UNKNOWN"` |
| AgentRoute.LineContained | apps/server/src/app/api/chat/agent/route.ts:38-54 | what a line of a template contains, the template contains |
| AgentRoute.StripKeepsHead | apps/server/src/app/api/chat/agent/route.ts:59 | a character that does not start a fence is kept at the front |
| AgentRoute.StripLeavesNoFence | apps/server/src/app/api/chat/agent/route.ts:59 | no "```" is left after the deletion, not even one formed around a deleted fence |
| AgentRoute.StripFenceFree | apps/server/src/app/api/chat/agent/route.ts:59 | text without "```" passes the deletion unchanged |
| AgentRoute.StripWithoutBackticks | apps/server/src/app/api/chat/agent/route.ts:59 | text without backticks passes the deletion unchanged |
| AgentRoute.CleanLeavesNoFence | apps/server/src/app/api/chat/agent/route.ts:59 | the cleaned text holds no "```" |
| AgentRoute.CleanIdempotent | apps/server/src/app/api/chat/agent/route.ts:59 | cleaning twice is cleaning once |
| AgentRoute.CleanWithoutBackticks | apps/server/src/app/api/chat/agent/route.ts:59 | text without backticks is only trimmed |
| AgentRoute.DecodeSeesCleanText | apps/server/src/app/api/chat/agent/route.ts:57-62 | a model error is passed on unchanged; otherwise `JSON.parse` is given the model text with no fence left and already trimmed, so cleaning it again changes nothing |
| AgentRoute.UnknownIntentEchoed | apps/server/src/app/api/chat/agent/route.ts:62-70 | an `UNKNOWN` reply is a 200 success that echoes the action, with no note stored |
| ChatScreen.IsWakeWord | apps/mobile/src/screens/AICreativeScreen.tsx:145 | the transcript contains "ginger", "danger" or "ninja"; `React` wakes exactly for these |
| ChatScreen.IsStopWord | apps/mobile/src/screens/AICreativeScreen.tsx:150 | the transcript contains "stop", "cancel" or "thank you"; `React` turns off exactly for these |
| ChatScreen.IsNotePhrase | apps/mobile/src/screens/AICreativeScreen.tsx:157 | the transcript contains "create a note", "save a note" or "take a note"; `React` asks for a note exactly for these without a stop word |
| ChatScreen.AgentRequest | apps/mobile/src/screens/AICreativeScreen.tsx:161 | the chat message starts and ends with the fixed parts and carries the transcript as spoken between them |
| ChatScreen.ReplySavesNote | apps/mobile/src/screens/AICreativeScreen.tsx:166 | the reply contains "saving note" in any letter case; `NotePostedOnlyForSavingReply` states that a note is posted exactly then |
| ChatScreen.ExtractNoteContent | apps/mobile/src/screens/AICreativeScreen.tsx:167 | the replacement of the leftmost match of the regular expression by nothing; `ExtractWithoutNote`, `ExtractFromRightmostNote`, `ExtractedIsFinal` and `ExtractIdempotent` are proved about it |
| ChatScreen.LineEnd | apps/mobile/src/screens/AICreativeScreen.tsx:167 | the first line terminator at or after a position, or the end: how far `.` can reach |
| ChatScreen.LastNoteBefore | apps/mobile/src/screens/AICreativeScreen.tsx:167 | the rightmost "note" followed by whitespace in a range, or none: where the greedy `.*` stops |
| ChatScreen.AltEnd | apps/mobile/src/screens/AICreativeScreen.tsx:167 | "note saying" is preferred, then "note that", each only with whitespace after it, then "note" |
| ChatScreen.SkipSpace | apps/mobile/src/screens/AICreativeScreen.tsx:167 | the greedy `\s+` consumes the whole whitespace run |
| ChatScreen.ExtractWithoutNote | apps/mobile/src/screens/AICreativeScreen.tsx:167 | a transcript without "note" followed by whitespace is unchanged |
| ChatScreen.ExtractFromRightmostNote | apps/mobile/src/screens/AICreativeScreen.tsx:167 | on one line the content is what follows the rightmost "note" and whitespace, the preferred alternative, and the whitespace after it |
| ChatScreen.ExtractedIsFinal | apps/mobile/src/screens/AICreativeScreen.tsx:167 | the extracted content has no leading whitespace and no "note" followed by whitespace |
| ChatScreen.ExtractIdempotent | apps/mobile/src/screens/AICreativeScreen.tsx:167 | on transcripts without line breaks, extracting twice is extracting once |
| ChatScreen.React | apps/mobile/src/screens/AICreativeScreen.tsx:138-177 | nothing when agent mode is off or a request is out; in IDLE, only a wake word wakes and no transcript asks for a note, so a note needs a wake word first; in ACTIVE, a stop word turns off even when a note phrase is there too, a note phrase without a stop word asks for a note, and anything else is ignored |
| ChatScreen.IsListening | apps/mobile/src/screens/AICreativeScreen.tsx:183 | the `isListening` prop is true exactly while agent mode is on and the status is not PROCESSING |
| ChatScreen.RecognizerEventOf | apps/mobile/src/screens/AICreativeScreen.tsx:181-186 | the recognizer is mounted exactly when agent mode turns on, with the prop true unless PROCESSING, and unmounted exactly when it turns off; only while the mode stays on does it get a `componentDidUpdate` command, exactly when PROCESSING begins or ends, starting recognition as PROCESSING ends |
| ChatScreen.ReactionDrivesRecognizer | apps/mobile/src/screens/AICreativeScreen.tsx:138-186 | turning off by a stop word unmounts the recognizer; a note request sends it `stopRecognition`; a wake word or a transcript acted on with the mode on sends nothing, and with the mode off there is no recognizer |
| ChatScreen.AnswerRestartsRecognizer | apps/mobile/src/screens/AICreativeScreen.tsx:173-186 | once a note request is answered, a mounted recognizer is sent `startRecognition` exactly when agent mode is still on; otherwise there is no recognizer |
| ChatScreen.ToggleDrivesRecognizer | apps/mobile/src/screens/AICreativeScreen.tsx:181-199 | turning agent mode on mounts a recognizer whose prop is true, agreeing with its page starting itself; turning it off unmounts it |
| ChatScreen.Screen.Toggle | apps/mobile/src/screens/AICreativeScreen.tsx:191-199 | on: off, IDLE, speech stopped; off: on, starting from IDLE with the status untouched; nothing else changes |
| ChatScreen.Screen.HandleSpeechResult | apps/mobile/src/screens/AICreativeScreen.tsx:138-161 | follows the branch `React` picks: wake gives ACTIVE and "Yes?"; turn-off gives "Turning off.", mode off and IDLE; a note request gives PROCESSING and the agent-mode message; anything else changes nothing |
| ChatScreen.Screen.FinishNoteRequest | apps/mobile/src/screens/AICreativeScreen.tsx:162-175 | ends IDLE in every case, with the spoken reply, the note post for a "saving note" reply, and the apology for any failure |
| ChatScreen.Screen.SendMessage | apps/mobile/src/screens/AICreativeScreen.tsx:43-65 | blank text changes nothing; otherwise the user message and exactly one reply or error bubble are appended, the input is cleared and loading ends false |
| ChatScreen.Screen.SaveNote | apps/mobile/src/screens/AICreativeScreen.tsx:30-41 | a blank note changes nothing; otherwise it is posted and an alert given, and only a successful save clears and hides the input |
| ChatScreen.NotePostedOnlyForSavingReply | apps/mobile/src/screens/AICreativeScreen.tsx:164-168 | a note is posted exactly when the reply contains "saving note" in any letter case, and at most once |
| SpeechRecognizer.Fresh | apps/mobile/src/components/SpeechRecognizer.tsx:33 | the results from `resultIndex` on; `StaleResultsIgnored` states that earlier ones never matter |
| SpeechRecognizer.FinalText | apps/mobile/src/components/SpeechRecognizer.tsx:33-39 | the final transcripts concatenated in order; `FinalTextAppend` and `TranscriptLandsOnce` are proved about it |
| SpeechRecognizer.InterimText | apps/mobile/src/components/SpeechRecognizer.tsx:33-39 | the non-final transcripts concatenated in order; `InterimTextAppend` and `TranscriptLandsOnce` are proved about it |
| SpeechRecognizer.Chosen | apps/mobile/src/components/SpeechRecognizer.tsx:43 | the final text, or the interim text when the final one is empty; `BlankFinalSuppressesInterim` states that a blank non-empty final text still wins |
| SpeechRecognizer.ResultMessage | apps/mobile/src/components/SpeechRecognizer.tsx:44-46 | a message is posted exactly for non-blank text, and it carries the text trimmed and lower-cased |
| SpeechRecognizer.OnResult | apps/mobile/src/components/SpeechRecognizer.tsx:29-47 | the loop's result is the message for the chosen text of the final and interim results from `resultIndex` on |
| SpeechRecognizer.FinalTextAppend | apps/mobile/src/components/SpeechRecognizer.tsx:33-39 | each batch of results adds its own final transcripts, in order |
| SpeechRecognizer.InterimTextAppend | apps/mobile/src/components/SpeechRecognizer.tsx:33-39 | each batch of results adds its own interim transcripts, in order |
| SpeechRecognizer.TranscriptLandsOnce | apps/mobile/src/components/SpeechRecognizer.tsx:33-39 | each transcript lands, in its place, in exactly one of the two texts: a final one between the finals before and after it and not in the interim text, and the mirror case for a non-final one |
| SpeechRecognizer.StaleResultsIgnored | apps/mobile/src/components/SpeechRecognizer.tsx:33 | results before `resultIndex` never contribute |
| SpeechRecognizer.BlankFinalSuppressesInterim | apps/mobile/src/components/SpeechRecognizer.tsx:43-44 | a blank but non-empty final text wins over the interim text, and then nothing is posted |
| SpeechRecognizer.PostedTextIsNormal | apps/mobile/src/components/SpeechRecognizer.tsx:45 | a posted text is already trimmed and lower-case |
| SpeechRecognizer.DidUpdate | apps/mobile/src/components/SpeechRecognizer.tsx:82-90 | a command exactly when the prop changed (and the page is there): start when it became true, stop when it became false |
| SpeechRecognizer.Commands | apps/mobile/src/components/SpeechRecognizer.tsx:82-90 | the commands `componentDidUpdate` sends over a run of prop values; `CommandsTrackListening` states that they alternate and follow the prop |
| SpeechRecognizer.CommandsTrackListening | apps/mobile/src/components/SpeechRecognizer.tsx:82-90 | over any run of prop values the commands alternate, the first one undoes the initial value, the last one matches the current prop, and there are none exactly when the prop never changed |
| SpeechRecognizer.HandleMessage | apps/mobile/src/components/SpeechRecognizer.tsx:92-103 | `onSpeechResult` is called exactly for parsed data of type `result`, with its `text`; unparseable or `null` data and other types call nothing |
| SpeechRecognizer.ResultDelivered | apps/mobile/src/components/SpeechRecognizer.tsx:92-96 | a message that parses to a `result` object reaches `onSpeechResult` with its text unchanged; that the parser inverts the page's encoding is assumed, not proved |

## Left out

- Timing. The 1000, 2500, 2000, 3000 and 5000 ms waits and the timeout are
  not modelled. Each wait is only a point where an interrupt can happen.
- The agent loop allows at most one interrupt at each `await`. No interrupt
  is placed inside `stopAndUnloadAsync`, and the `stopRecording` that
  `stop()` starts is treated as finishing at once.
- Two loops at once are not modelled. This would happen if `start()` ran
  again while a stopped loop was still suspended.
- `VoiceAgent.Run`: the loop is bounded by the number of inputs given to
  it. A loop that would run forever is seen only up to that point.
- The observer knows only which states make it throw. It is the only source
  of exceptions that reach the loop's `catch`, since every other awaited
  call catches its own.
- Recording, base64 encoding, `FormData`, axios, Gemini, `JSON.parse`,
  `Speech.speak` and MongoDB are outside the model. Their outcomes are
  parameters or inputs. The console logging is left out.
- The endpoint's startup check for `GEMINI_API_KEY` is left out. So is
  opening the database connection, which counts as part of the insert.
- `toLowerCase` is modelled for ASCII letters only. Other letters keep
  their case.
- `ChatScreen.Screen.HandleSpeechResult`: React's stale closures and its
  batching of state updates are not modelled. The screen's state is read
  and written directly.
- `ChatScreen.Screen.FinishNoteRequest`: a chat reply without a string
  `reply` counts as a failed request. So `Speech.speak(undefined)` is not
  recorded before the apology.
- The properties of the note extraction cover transcripts without line
  breaks. The function itself handles line breaks as the regular
  expression does.
- The message ids built from `Date.now()`, the rendering, the styles, the
  manual recording handlers of the chat screen, the other routes and
  screens, and the app's navigation are left out.
- Parts of the speech recognizer are left out:
  - the WebView's `onerror` and `onend` handlers;
  - the one-second restart timer, and the page's own start when it is
    loaded. While the recognizer is mounted its prop is false only during
    PROCESSING; because `onend` restarts recognition after
    `stopRecognition`, the page can go on producing results then, and the
    screen drops them by its PROCESSING guard (`ChatScreen.React`). The
    recognizer events above say only what the screen asks for;
  - its `error` and `end` messages, which the app only logs.
