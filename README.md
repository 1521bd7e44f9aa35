# Internship marketplace: voice agent and agent tools, modelled in Dafny

This project models the conversational core of the internship marketplace. Its parts:

- **The browser's voice-agent hook** (`useVoiceAgent`). It reads the agent's newline-delimited JSON reply stream, merges overlapping tokens and splits the reply into sentences. It queues the sentences for speech, at most three syntheses at a time, played in order. It detects navigation control tokens behind a leading-edge debounce. It keeps the chat history, with rollback on failure. A transcript is sent only once.
- **The microphone hook** (`useVoice`): a recorder state machine whose recording goes to speech-to-text as one upload.
- **The employer agent endpoint**, with four parts:
  - request guards and a per-user lock;
  - prompt assembly from the stored conversation;
  - the background worker, which assembles streamed tool-call fragments, runs the named calls in index order and makes a second model call;
  - the NDJSON framing of everything it produces.
- **The profile-builder endpoint**: it stores the message, builds the prompt, stores the reply, and adds the update timestamp to the body when the reply mentions it.
- **The agents' tools**:
  - the company and listing tools, with key aliasing, "no_changes" detection and the create-or-update listing rules;
  - the profile tool, with availability constraints and skills reshaping;
  - the schema patch that strips `required`.
- **The serializers**: the partial-update semantics of the profile serializer (scalars, availability upsert, skill set, educations), and the listing serializer's location rule and logo URL.

Each source file has its own module:

- `text` holds both languages' white-space and trimming rules.
- `json` holds parsed values with JavaScript and Python truthiness.
- `wrappers` holds `Option` and `Result`.

JSON parsing and serialising, the model calls, speech synthesis and transcription, the clock and the media devices are parameters or explicit events.

The main results:

- **Stream reader.** The reader's result and its delta sequence are exactly `Drain` of the concatenated text, however the text was cut into chunks (`DrainAppend`). A line that fails to parse blocks the stream for good (`StuckStaysStuck`).
- **Overlap merge.** The merge removes the longest overlap. It is idempotent on repeats.
- **Buffers.** `flush` conserves text (`full + tail` afterwards equals `full + tail + stream` before), and spoken text is never revised.
- **Tool calls.** Each assembled entry is the first fragment's id, the last non-empty name and the concatenated arguments (`AssembleSpec`). The worker's queue holds streamed text and exactly one terminal item, last.
- **Endpoint stream.** Exactly one frame ends it: the last one.
- **Tools and serializer.** The tools' contracts give every error path and the exact new store. The serializer's partial update is idempotent.

## Model

| member | source | states |
|---|---|---|
| Text.TrimSpec | employers/agent_views.py:118 | `strip()`/`trim()` keeps the infix between a maximal leading and a maximal trailing run of white space; the result neither starts nor ends with white space |
| Text.TrimEmpty | profiles/agent_views.py:45-46 | the stripped message is empty exactly when the text is all white space, which is what makes a message blank |
| Text.TrimIdempotent | frontend/src/hooks/useVoiceAgent.ts:240 | trimming an already trimmed token changes nothing |
| Text.IndexOfSpec | frontend/src/hooks/useVoiceAgent.ts:76 | `indexOf("\n")` finds the first line break and nothing before it is one; -1 exactly when there is none |
| Json.Lookup | employers/agent_views.py:218 | a key lookup finds nothing exactly when no member has that key |
| ToolResult.Report | pipeline_agents/employer_agent.py:139-142 | a tool result starts with its outcome word, and is exactly that word outside debug mode |
| ToolResult.ReportsDiffer | pipeline_agents/employer_agent.py:166-169 | "listing_created" and "listing_updated" results can never be confused, with or without the debug suffix |
| Merge.MergeOverlap | frontend/src/hooks/useVoiceAgent.ts:105-111 | the countdown loop returns `prev` followed by what the longest overlap leaves of `next` |
| Merge.LongestOverlapUpToSpec | frontend/src/hooks/useVoiceAgent.ts:106-109 | the first length matched counting down from the bound is an overlap, and no longer length within the bound is one |
| Merge.LongestOverlapSpec | frontend/src/hooks/useVoiceAgent.ts:105-111 | the overlap removed is the longest suffix of `prev` that is a prefix of `next` (0 when none) |
| Merge.MergedSpec | frontend/src/hooks/useVoiceAgent.ts:105-111 | the merge keeps all of `prev` as prefix, ends with all of `next`, and is never longer than the concatenation |
| Merge.MergedNoOverlap | frontend/src/hooks/useVoiceAgent.ts:110 | with no overlap of any positive length the merge is plain concatenation |
| Merge.MergedSuffix | frontend/src/hooks/useVoiceAgent.ts:108 | merging any suffix of `prev` (a repeated token) returns `prev` unchanged |
| Merge.MergedTwice | frontend/src/hooks/useVoiceAgent.ts:105-111 | merging the same token twice in a row is merging it once |
| Debounce.Debouncer.constructor | frontend/src/hooks/useVoiceAgent.ts:38 | a fresh debounced function has no pending timer and has run nothing |
| Debounce.Debouncer.Call | frontend/src/hooks/useVoiceAgent.ts:39-45 | a call runs the function exactly when no timer is pending, and leaves a timer pending |
| Debounce.Debouncer.Expire | frontend/src/hooks/useVoiceAgent.ts:42-44 | the timer's expiry clears it and runs nothing |
| Debounce.Debouncer.Run | frontend/src/hooks/useVoiceAgent.ts:34-46 | a run of calls and expiries runs exactly the arguments `Fired` selects and leaves the timer as `PendingAfter` says |
| Debounce.FiredAtMostOncePerWindow | frontend/src/hooks/useVoiceAgent.ts:39-45 | at most one call runs per timer window: runs never exceed expiries plus one |
| Debounce.FiredAppend | frontend/src/hooks/useVoiceAgent.ts:34-46 | events can be split anywhere: the later part behaves as from the timer state the earlier part left |
| Debounce.FirstCallRuns | frontend/src/hooks/useVoiceAgent.ts:40-41 | with the timer idle the first call always runs, with its own argument |
| Debounce.FiredAreCalled | frontend/src/hooks/useVoiceAgent.ts:41 | everything that runs was the argument of some call |
| Sentences.MatchAt | frontend/src/hooks/useVoiceAgent.ts:172 | a sentence match spans at least a non-terminator and a terminator and stays inside the text |
| Sentences.Search | frontend/src/hooks/useVoiceAgent.ts:174 | a global `exec` from `lastIndex` returns a match starting at or after it, ending where the pattern does |
| Sentences.LastEndSpec | frontend/src/hooks/useVoiceAgent.ts:173-174 | the remembered `lastIndex` is the end of a match and no match starts at or after it (or it is 0 when nothing matched) |
| Sentences.SearchNoneSpec | frontend/src/hooks/useVoiceAgent.ts:174 | when `exec` finds nothing, no later position starts a sentence |
| Sentences.SplitSentences | frontend/src/hooks/useVoiceAgent.ts:170-176 | "" gives ("", ""); with `final` everything is ready; otherwise ready + pending is the chunk and ready ends where the last match ended |
| Sentences.PendingHasNoSentence | frontend/src/hooks/useVoiceAgent.ts:172-175 | the pending text holds no complete sentence |
| Sentences.SplitFromRejoin | frontend/src/hooks/useVoiceAgent.ts:220 | the lookbehind split loses nothing: pieces and the white space cut between them rebuild the text |
| Sentences.SplitFromSeparators | frontend/src/hooks/useVoiceAgent.ts:220 | every cut is a non-empty run of white space after a sentence end, and the last piece has none |
| Sentences.SentencePartsRejoin | frontend/src/hooks/useVoiceAgent.ts:218-221 | the text flushed is exactly its sentences joined by the white space cut out |
| Sentences.ExampleReady | frontend/src/hooks/useVoiceAgent.ts:172-175 | on "Hi. How" the first sentence and its space (4 characters) are ready |
| Sentences.ExampleDecimal | frontend/src/hooks/useVoiceAgent.ts:172 | a decimal point followed by a digit ends no sentence: nothing of "v3.5 ok" is ready |
| StreamReader.StreamAgent | frontend/src/hooks/useVoiceAgent.ts:49-102 | a non-ok response throws with its body before reading; otherwise the deltas handed to `onDelta` and the result are those of `Drain` over all text received |
| StreamReader.ReadChunks | frontend/src/hooks/useVoiceAgent.ts:71-98 | the read loop stops with the same reason, seen-flag and deltas as `Drain` of the concatenated chunks |
| StreamReader.ParseLoop | frontend/src/hooks/useVoiceAgent.ts:76-95 | the labelled parse loop computes exactly `Drain` of its buffer |
| StreamReader.DrainStep | frontend/src/hooks/useVoiceAgent.ts:77-94 | one line: blank is skipped, unparsable is pushed back and stops, `null` throws, a string delta is dispatched, `done` returns, anything else is skipped |
| StreamReader.DrainAppend | frontend/src/hooks/useVoiceAgent.ts:71-98 | chunk boundaries do not matter: draining `a + b` is draining `a` then resuming with `b` |
| StreamReader.DrainDeltas | frontend/src/hooks/useVoiceAgent.ts:89-91 | deltas are only appended after those sent; `sawDelta` is set exactly when one was dispatched; waiting leaves no complete line; a terminal payload is never `null` |
| StreamReader.StuckAgain | frontend/src/hooks/useVoiceAgent.ts:84-87 | a pushed-back line is met first again and fails again |
| StreamReader.StuckShape | frontend/src/hooks/useVoiceAgent.ts:85 | when stuck, the buffer starts with the trimmed unparsable line and its `\n` |
| StreamReader.StuckStaysStuck | frontend/src/hooks/useVoiceAgent.ts:84-87 | once a complete line fails to parse, later text only piles up behind it and no later line is dispatched |
| StreamReader.OutcomeNotNull | frontend/src/hooks/useVoiceAgent.ts:89-94 | what the reader returns is never `null` |
| StreamReader.OutcomeWithoutDone | frontend/src/hooks/useVoiceAgent.ts:100-101 | at the end of a stream with no terminal line, `{delta:"", done:true}` is returned exactly when a delta was seen, else it throws |
| StreamReader.DrainSettled | frontend/src/hooks/useVoiceAgent.ts:76 | once the parse loop has stopped waiting or stuck, running it again changes nothing |
| StreamReader.StoppedStaysStopped | frontend/src/hooks/useVoiceAgent.ts:92-94 | after the terminal line (or a throw) nothing later is processed |
| StreamReader.StoppedPrefix | frontend/src/hooks/useVoiceAgent.ts:93 | the same for a prefix of the chunks: the first `done` decides the result whatever follows |
| Speaker.SentenceSpeaker.constructor | frontend/src/hooks/useVoiceAgent.ts:115-117 | an empty queue, nothing playing, nothing in flight |
| Speaker.SentenceSpeaker.PlayNext | frontend/src/hooks/useVoiceAgent.ts:120-136 | when idle with a non-empty queue, the oldest request is taken and plays; otherwise nothing changes |
| Speaker.SentenceSpeaker.Speak | frontend/src/hooks/useVoiceAgent.ts:138-164 | a blank sentence changes nothing; otherwise a request is admitted exactly when fewer than 3 are in flight (the count stays at most 3); a playing speaker keeps its current request and queues the new one last, and an idle speaker starts playing the new one at once |
| Speaker.SentenceSpeaker.Poll | frontend/src/hooks/useVoiceAgent.ts:142-145 | a waiting request is admitted only when a slot is free, and then counts in flight |
| Speaker.SentenceSpeaker.FetchDone | frontend/src/hooks/useVoiceAgent.ts:157-158 | a settled request frees its slot (in flight minus one), with audio or failed |
| Speaker.SentenceSpeaker.PlaybackDone | frontend/src/hooks/useVoiceAgent.ts:132-135 | a finished or failed playback starts the next request in push order, or leaves the speaker idle when none is queued |
| Recorder.SttRequest | frontend/src/hooks/useVoice.ts:11-13 | the upload always posts the `audio` field named `speech.webm` to `/api/voice/stt/`, carrying the chunks given |
| Recorder.SttResult | frontend/src/hooks/useVoice.ts:18-20 | a non-ok response throws with its body; otherwise the parsed body's `text` member is returned |
| Recorder.Transcript | frontend/src/hooks/useVoice.ts:99 | the transcript is "" until transcription data exists and when its `text` is missing or `null`, otherwise the text received |
| Recorder.VoiceRecorder.constructor | frontend/src/hooks/useVoice.ts:40-42 | not recording, no recorder, no chunks |
| Recorder.VoiceRecorder.Start | frontend/src/hooks/useVoice.ts:61-64 | the device is requested exactly when not recording, and then the chunk list is emptied |
| Recorder.VoiceRecorder.DeviceGranted | frontend/src/hooks/useVoice.ts:65-74 | a new recorder starts, becomes the current one, and the flag is set only now |
| Recorder.VoiceRecorder.DeviceDenied | frontend/src/hooks/useVoice.ts:64 | a refused device rejects the start and changes nothing else |
| Recorder.VoiceRecorder.DataAvailable | frontend/src/hooks/useVoice.ts:66 | data joins the shared chunk list in arrival order |
| Recorder.VoiceRecorder.Stop | frontend/src/hooks/useVoice.ts:78-82 | a no-op unless recording with a recorder; otherwise that recorder is asked to stop and the flag clears |
| Recorder.VoiceRecorder.OnStop | frontend/src/hooks/useVoice.ts:67-71 | the stop event uploads all chunks so far as one `audio/webm` blob, once, and releases the tracks |
| Recorder.VoiceRecorder.Unmount | frontend/src/hooks/useVoice.ts:85-91 | unmounting stops the current recorder only while it is recording |
| Recorder.DoubleStart | frontend/src/hooks/useVoice.ts:62-74 | two starts before the device answers both pass the guard; `stop` then stops only the second recorder and the first keeps recording |
| Recorder.Deliver | frontend/src/hooks/useVoice.ts:66 | chunks delivered one after another are buffered in order |
| Recorder.RecordOnce | frontend/src/hooks/useVoice.ts:61-82 | one recording from start to stop event makes exactly one upload carrying exactly the delivered chunks in order |
| VoiceAgent.ClassifyDelta | frontend/src/hooks/useVoiceAgent.ts:240-249 | a delta is a navigation request exactly when its trimmed text is `{…}`, parses, and has a string `navigate`; otherwise it is reply text unchanged |
| VoiceAgent.Shown | frontend/src/hooks/useVoiceAgent.ts:277 | the assistant entry is never empty: the final text, or " " when there is none |
| VoiceAgent.SettleConserves | frontend/src/hooks/useVoiceAgent.ts:216-225 | a flush after a merge loses and invents no text, and only appends to `full` and to the spoken sentences |
| VoiceAgent.StepConserves | frontend/src/hooks/useVoiceAgent.ts:251-265 | after a text delta the buffers hold the old `full` followed by the pending text merged with the token; `full` itself is never merged against |
| VoiceAgent.StepGrows | frontend/src/hooks/useVoiceAgent.ts:239-265 | a delta never revises `full` or the sentences already spoken |
| VoiceAgent.FeedKeepsSpoken | frontend/src/hooks/useVoiceAgent.ts:239-265 | over any run of deltas, `full` and the spoken sentences only grow |
| VoiceAgent.NavigationsHidden | frontend/src/hooks/useVoiceAgent.ts:244-246 | navigation requests never reach the reply text or the speech, and each becomes a call of `navigate` |
| VoiceAgent.FeedIgnoresNavigations | frontend/src/hooks/useVoiceAgent.ts:239-266 | removing the navigation requests from a run of deltas leaves the reply unchanged |
| VoiceAgent.NavigationsAppend | frontend/src/hooks/useVoiceAgent.ts:245 | the navigation calls of a run are those of its deltas, in order |
| VoiceAgent.ProfileEffects | frontend/src/hooks/useVoiceAgent.ts:292-306 | an intern's completed reply refreshes the profile exactly when it carries `profile` or `profile_updated_at`: a returned `profile` is merged into the cached one, otherwise a bare timestamp refetches it; `profile-saved` is announced last, once |
| VoiceAgent.ReplySession.constructor | frontend/src/hooks/useVoiceAgent.ts:198-215 | empty history, cache and buffers; not sending; nothing sent yet |
| VoiceAgent.ReplySession.Flush | frontend/src/hooks/useVoiceAgent.ts:216-225 | `full + tail` afterwards equals `full + tail + stream` before, `stream` is "", `final` leaves `tail` ""; the ready sentences are spoken |
| VoiceAgent.ReplySession.SpeakAll | frontend/src/hooks/useVoiceAgent.ts:220 | each piece is spoken trimmed, in order |
| VoiceAgent.ReplySession.AppendToken | frontend/src/hooks/useVoiceAgent.ts:251-263 | `tail + stream` becomes the merge of itself with the token, and the placeholder shows `full` plus that |
| VoiceAgent.ReplySession.OnDelta | frontend/src/hooks/useVoiceAgent.ts:239-266 | the buffers move as `Step` says; a navigation request leaves the history alone and goes through the debouncer |
| VoiceAgent.ReplySession.Advance | frontend/src/hooks/useVoiceAgent.ts:239-266 | one more delta keeps the buffers, debouncer and history where the deltas so far put them |
| VoiceAgent.ReplySession.ApplyDeltas | frontend/src/hooks/useVoiceAgent.ts:239-266 | all deltas in order leave the buffers at `Feed` of them and the debouncer having seen their navigation requests |
| VoiceAgent.ReplySession.Begin | frontend/src/hooks/useVoiceAgent.ts:227-237 | a send sets busy, clears error and buffers, and appends the user's entry and an empty assistant placeholder |
| VoiceAgent.ReplySession.Complete | frontend/src/hooks/useVoiceAgent.ts:270-306 | everything is flushed; the placeholder and the cached conversation get the shown final text; an employer's reply with `employer` invalidates it |
| VoiceAgent.ReplySession.Fail | frontend/src/hooks/useVoiceAgent.ts:307-312 | a failed send records the error and drops exactly the last entry, the placeholder |
| VoiceAgent.ReplySession.OnTranscript | frontend/src/hooks/useVoiceAgent.ts:315-322 | a transcript is sent exactly when non-empty, transcription finished, different from the last sent and no send in progress; it then becomes the last sent |
| VoiceAgent.ReplySession.Finish | frontend/src/hooks/useVoiceAgent.ts:268-312 | success stores the user's message and the final reply in history and cache; failure keeps only the user's message and shows the error; the effects are the employer invalidation (employer with `employer` in the payload) or `ProfileEffects` (intern), and none on failure |
| VoiceAgent.ReplySession.Send | frontend/src/hooks/useVoiceAgent.ts:215-313 | a whole send leaves history and cache as `Settled` says for the reply `Feed` builds from the streamed deltas, navigation requests go through the debouncer in order, and the refresh effects follow the role and the terminal payload (none when the stream fails) |
| VoiceAgent.ReplySession.Respond | frontend/src/hooks/useVoiceAgent.ts:268-312 | after `Begin`, every delta through `onDelta` and then the end of the send, with the effects `Finish` states |
| VoiceAgent.ReceivedNotNull | frontend/src/hooks/useVoiceAgent.ts:269 | a successful send always has a non-null terminal event to read |
| Prompts.PromptLines | employers/agent_views.py:32-42 | the prompt has `|hist| + 1` lines: one `User: `/`Assistant: ` line per stored message in order, then `User: ` and the latest message |
| Prompts.PromptEndsWithLatest | employers/agent_views.py:40 | the prompt always ends with the latest message as the user's line |
| Prompts.BuildPrompt | profiles/agent_views.py:17-31 | the profile builder's loop builds exactly the employer endpoint's prompt |
| Prompts.HistoryOf | profiles/agent_views.py:27 | one user's stored messages, never more than the store holds |
| Prompts.HistoryAppend | profiles/agent_views.py:56-63 | storing a message extends its owner's history by it and leaves other users' alone |
| Prompts.LatestTwice | profiles/agent_views.py:56-63 | because the message is stored before the prompt is built, the prompt's last two lines are both the latest message |
| ToolCalls.Position | employers/agent_views.py:168 | the position of an index in the fragment dictionary, or -1 exactly when it is absent |
| ToolCalls.AddPartSpec | employers/agent_views.py:166-174 | adding a fragment keeps indices unique and touches only its own entry |
| ToolCalls.GetAfterAdd | employers/agent_views.py:168-174 | the fragment's entry is `setdefault`'s entry with a non-empty name overwritten and non-empty arguments appended |
| ToolCalls.Unmentioned | employers/agent_views.py:168-169 | an index no fragment carried has no name and no argument text |
| ToolCalls.AssembleSpec | employers/agent_views.py:161-175 | after the stream, the dictionary has an entry exactly for each index carried, holding the first fragment's id, the last non-empty name and the non-empty arguments concatenated in arrival order |
| ToolCalls.Insert | employers/agent_views.py:185 | inserting an item with a new key into a key-sorted list keeps it sorted and adds exactly that item |
| ToolCalls.NamedCalls | employers/agent_views.py:183-187 | the calls run are exactly the entries that received a name, in ascending index order |
| EmployerWorker.Deltas | employers/agent_views.py:179 | one text item per streamed text, in order |
| EmployerWorker.DeltasAppend | employers/agent_views.py:237-238 | streaming two runs of text queues their items one after the other |
| EmployerWorker.FramedBy | employers/agent_views.py:240-249 | streamed text followed by one terminal item is well framed |
| EmployerWorker.Contents | employers/agent_views.py:177-179 | the first stage's text is the non-empty content of deltas without tool calls, never an empty piece |
| EmployerWorker.Tokens | employers/agent_views.py:234-238 | the second stage's text is its non-empty tokens |
| EmployerWorker.Kwargs | employers/agent_views.py:209-214 | empty arguments read as `{}`; arguments that do not decode become `{"payload_json": <stripped text>}` |
| EmployerWorker.CallOutcome | employers/agent_views.py:215 | a call of an unknown tool raises a `KeyError` naming it |
| EmployerWorker.Navigation | employers/agent_views.py:217-219 | a navigation event is queued exactly for `navigate_to_v1` with object arguments |
| EmployerWorker.NavigationsNeedTool | employers/agent_views.py:217 | calls of other tools queue no navigation event |
| EmployerWorker.NoPartsNoCalls | employers/agent_views.py:180 | a first stage without fragments assembles no calls, so the tool stage is skipped |
| EmployerWorker.Ran | employers/agent_views.py:207-215 | the calls before the first one that raises all return; the one it stops at raises |
| EmployerWorker.Answers | employers/agent_views.py:220-227 | each returned call is answered by a tool message with its own call id and result, in call order |
| EmployerWorker.AddParts | employers/agent_views.py:166-174 | one delta's fragments, added in order, give the dictionary of all fragments so far |
| EmployerWorker.FirstStage | employers/agent_views.py:160-179 | the first stage assembles exactly the fragments received and collects exactly the first-stage text |
| EmployerWorker.RunTools | employers/agent_views.py:207-227 | calls run in order until one raises; the answers and navigation events are those of the calls that returned, and the failure is the first call's error |
| EmployerWorker.SecondStage | employers/agent_views.py:234-238 | the second stage collects exactly its non-empty tokens |
| EmployerWorker.ToolStageEnd | employers/agent_views.py:240-249 | the tool stage ends with an error item, or with a done item whose reply is only the second stage's text and which says tools were called |
| EmployerWorker.ToolStage | employers/agent_views.py:180-238 | the named calls in ascending index order, the assistant message listing them, the tool answers, then navigation events and the second stage's text |
| EmployerWorker.ToolRound | employers/agent_views.py:180-246 | the items are the first-stage text, then the tool stage's navigation events and second-stage text, then its end item (the first failing call's error, the second stage's error, or done); the messages are the calls message and one answer per call that returned; a done item's reply holds only the second stage's text, although the first-stage text was streamed |
| EmployerWorker.AfterFirstStage | employers/agent_views.py:180-249 | a first-stage failure ends with an error item; no fragments end with the streamed text as reply; otherwise the items and messages are the tool round's |
| EmployerWorker.Worker | employers/agent_views.py:150-249 | the queue carries streamed text and exactly one terminal item, last; the model messages start with the system and user messages; with tool fragments the items are the first-stage text, the navigation events and second-stage text, then the tool stage's end item, and the messages add the calls message and the answers |
| EmployerView.ReadMessage | employers/agent_views.py:118 | an accepted message is the stripped, non-empty text of the `message` field |
| EmployerView.ReadMessageSpec | employers/agent_views.py:118-120 | the message is missing exactly when the field is absent, falsy or white space only; a truthy non-text value cannot be stripped |
| EmployerView.DoneFrame | employers/agent_views.py:286 | the final frame starts with `delta: ""` and `done: true` |
| EmployerView.DoneFrameFields | employers/agent_views.py:286-293 | the final frame carries `employer` exactly when tools were called and a profile exists, `audio_base64` exactly when speech was produced, and never `error` |
| EmployerView.FramesEnd | employers/agent_views.py:263-294 | delta frames do not end the stream; error and final frames do |
| EmployerView.Leading | employers/agent_views.py:259-264 | the items consumed as deltas before the first terminal item |
| EmployerView.LeadingFramed | employers/agent_views.py:259-264 | for the worker's well-framed queue, the terminal item is the last |
| EmployerView.EventFrames | employers/agent_views.py:258-295 | one delta frame per text item in order, then the first terminal item's frame and nothing after; a done item's reply is what is saved; exactly the last frame ends the stream |
| EmployerView.WorkerFrames | employers/agent_views.py:258-295 | every item the worker queues is framed, exactly the last frame ends the stream, and only a done item's reply is saved |
| EmployerView.DeltasThenEnd | employers/agent_views.py:263-295 | in the frames streamed, the frame ending the stream is exactly the one at the first terminal item |
| EmployerView.Dumped | employers/agent_views.py:263 | each frame serialised in order |
| EmployerView.WireSplits | employers/agent_views.py:263-294 | as long as serialising produces no newline, splitting the wire text on `\n` gives back each frame in order, then the empty rest |
| EmployerView.WireJoin | employers/agent_views.py:263-294 | the wire text is the serialised frames each followed by a newline |
| EmployerView.EmployerAgentEndpoint.constructor | employers/agent_views.py:112-116 | no lock held and nothing stored |
| EmployerView.EmployerAgentEndpoint.Post | employers/agent_views.py:117-138 | guards in order (blank 400, non-text 500, non-employer 403, lock held 429), each leaving lock and store alone; otherwise the lock is taken, the message stored, and the prompt built from the user's history ending with it |
| EmployerView.EmployerAgentEndpoint.Reply | employers/agent_views.py:149-295 | the lock is released whatever happens; the frames have exactly one end, the last; a completed reply is stored as the assistant's message |
| ProfileView.ReadMessage | profiles/agent_views.py:45 | an accepted message is the stripped, non-empty text of the field |
| ProfileView.ReadMessageSpec | profiles/agent_views.py:45-50 | a missing or white-space-only message is refused with 400; a non-text value makes the strip fail |
| ProfileView.Body | profiles/agent_views.py:78-83 | `profile_updated_at` is present exactly when the reply contains `profile_updated`, with the profile's time; reading that time fails with a 500 exactly when it is needed and the user has no profile |
| ProfileView.ProfileBuilderEndpoint.constructor | profiles/agent_views.py:34-42 | nothing stored |
| ProfileView.ProfileBuilderEndpoint.Post | profiles/agent_views.py:44-83 | a refused request stores nothing; otherwise the user's message is stored and the prompt built from the history ending with it; a failing agent run gives a 500 and leaves the user's message stored without a reply; otherwise the reply is stored after it and the body is `Body` of the reply |
| EmployerAgent.BlankIsNoPayload | pipeline_agents/employer_agent.py:126 | a white-space-only payload counts as no payload |
| EmployerAgent.Renamed | pipeline_agents/employer_agent.py:130 | only company fields come out of the alias map |
| EmployerAgent.LastSpelling | pipeline_agents/employer_agent.py:113-122 | the last item whose key is a spelling of the field, and no later one is |
| EmployerAgent.RenamedSpec | pipeline_agents/employer_agent.py:113-130 | a field is set exactly when some spelling of it was given, taking the last such spelling's value; unknown keys are dropped |
| EmployerAgent.SetCompanyFields | pipeline_agents/employer_agent.py:125-142 | no payload or no known key is "no_changes" with no write; bad JSON raises; otherwise the record exists and the renamed fields are written when accepted, reporting "company_profile_updated" |
| EmployerAgent.IdOnlySpec | pipeline_agents/employer_agent.py:157-158 | a payload is "id only" exactly when it has a non-zero id and no other field |
| EmployerAgent.SetInternshipFields | pipeline_agents/employer_agent.py:150-169 | an id-only payload is "no_changes"; an id updates only an owned listing; without one title and description are required and a listing is created under a fresh id; only creation reports "listing_created"; the employer record is ensured only past the no-op checks, and the id counter advances only on creation |
| EmployerAgent.Replace | pipeline_agents/employer_agent.py:40 | replacing a member's value keeps every key in place |
| EmployerAgent.Without | pipeline_agents/employer_agent.py:40 | `pop("required", None)` removes the key and leaves every other member readable as before |
| EmployerAgent.ReplaceLookup | pipeline_agents/employer_agent.py:40 | a replaced member reads back its new value |
| EmployerAgent.ReplaceSame | pipeline_agents/employer_agent.py:40 | replacing twice with the same value is replacing once |
| EmployerAgent.WithoutTwice | pipeline_agents/employer_agent.py:40 | popping a key twice is popping it once |
| EmployerAgent.StripRequiredSpec | pipeline_agents/employer_agent.py:39-42 | a schema with a parameters object loses `required` there and keeps everything else; a schema without one is unchanged |
| EmployerAgent.StripRequiredIdempotent | pipeline_agents/employer_agent.py:31-43 | patching a schema twice is patching it once |
| EmployerAgent.FunctionTool.constructor | pipeline_agents/employer_agent.py:31 | a tool with the given schema attributes |
| EmployerAgent.FunctionTool.Equip | pipeline_agents/employer_agent.py:31-43 | a tool without `openai_schema` gets its `schema` under that name (the same object), and the `required` list is removed |
| EmployerTools.DumpCompany | employers/tools.py:25-31 | the dumped company payload has exactly the fields that were set |
| EmployerTools.DumpInternship | employers/tools.py:34-42 | the dumped listing payload has exactly the fields that were set |
| EmployerTools.EmployerStore.constructor | employers/tools.py:66-67 | no employers, no listings, next id 1 |
| EmployerTools.WithEmployer | employers/tools.py:105 | `get_or_create` adds exactly the owner's key: an existing record is kept, a missing one is added empty, and no other record changes |
| EmployerTools.EmployerStore.EnsureEmployer | employers/tools.py:67 | the employer record exists afterwards, unchanged if it already did |
| EmployerTools.EmployerStore.UpdateListing | employers/tools.py:116-130 | the fields are applied and saved exactly when the result validates; otherwise nothing changes |
| EmployerTools.EmployerStore.CreateListing | employers/tools.py:137-147 | a valid listing is created under the next id, which no listing had; an invalid one changes nothing |
| EmployerTools.SetCompanyFields | employers/tools.py:47-80 | an invalid payload raises and writes nothing; the employer is created if missing; fields are written only when there are some and they are accepted; the result is "company_profile_updated" |
| EmployerTools.SetInternshipFields | employers/tools.py:84-160 | `id` is taken out first; an unowned id raises; an id alone changes nothing but reports "listing_updated"; without an id title and description are required; the snapshot is the applied fields plus the id; only creation reports "listing_created"; an invalid payload touches no employer record, a valid one ensures the employer's record, and the id counter advances only on creation |
| ProfileTools.ParseStatus | profiles/tools.py:40 | exactly `IMMEDIATELY`, `FROM_DATE` and `UNAVAILABLE` are accepted |
| ProfileTools.ValidateAvailability | profiles/tools.py:39-52 | accepted exactly when the status is known, hours lie in 1..99 when given, and `FROM_DATE` has a start date; remote defaults to allowed and on-site to not |
| ProfileTools.ValidateSent | profiles/tools.py:39-52 | every acceptable availability can be sent and validates back to itself |
| ProfileTools.DumpAvailability | profiles/tools.py:106-108 | the dumped availability always has status and the two flags, and the date and hours exactly when set |
| ProfileTools.DumpEducation | profiles/tools.py:55-62 | a dumped education has institution and start date with their values, and each optional field (degree, field of study, end date, grade, description) exactly when set |
| ProfileTools.DumpEducations | profiles/tools.py:123-124 | educations are dumped one for one, in order |
| ProfileTools.ValidateProfile | profiles/tools.py:55-82 | a profile payload is refused exactly when it carries an invalid availability or an education whose `gpa` lies outside 0..4; skills and educations pass through |
| ProfileTools.Reshape | profiles/tools.py:121-122 | each skill becomes one `{"name": …}` entry, same length |
| ProfileTools.NamesReshape | profiles/tools.py:122 | reshaping keeps every name, in order |
| ProfileTools.ReshapedSkillSet | profiles/tools.py:122 | the skill set a reshaped list leads to is exactly the stripped, non-blank names given |
| ProfileTools.Data | profiles/tools.py:114-124 | fields left null are absent; availability, skills and educations are present exactly when given |
| ProfileTools.SetProfileFields | profiles/tools.py:89-143 | a payload that fails to decode or validate, or data the serializer refuses, raises and changes nothing; otherwise the profile is updated with the data and the result is "profile_updated" |
| ProfileSerializer.Writable | profiles/serializers.py:83 | only writable scalar fields are written; `id`, `user` and `updated_at` never are |
| ProfileSerializer.SkillNames | profiles/serializers.py:89-94 | the skill set holds every stripped non-blank name given and no blank one |
| ProfileSerializer.SkillNamesGiven | profiles/serializers.py:90-92 | every skill in the set was named by some entry |
| ProfileSerializer.SkillNamesRepeat | profiles/serializers.py:92-94 | naming a skill again, or giving a blank name, adds nothing: duplicates collapse |
| ProfileSerializer.Upserted | profiles/serializers.py:86-87 | the given fields are set over the existing record, or over the defaults when there is none |
| ProfileSerializer.Updated | profiles/serializers.py:115-132 | a partial update keeps every scalar it does not carry, sets those it does, keeps availability unless non-empty data is given, and replaces skills or educations only when their key is present (an empty list clears) |
| ProfileSerializer.UpdatedIdempotent | profiles/serializers.py:115-132 | applying the same update twice is applying it once |
| ProfileSerializer.Profile.constructor | profiles/serializers.py:108 | a new profile has the given scalars over the defaults (country "USA") and nothing related yet |
| ProfileSerializer.Profile.UpsertAvailability | profiles/serializers.py:86-87 | the availability becomes the upsert of the data over what was there |
| ProfileSerializer.Profile.SetSkills | profiles/serializers.py:89-94 | the skill set becomes exactly the stripped, non-blank names given |
| ProfileSerializer.Profile.SyncEducations | profiles/serializers.py:96-100 | every previous education is removed and the given ones are created in order |
| ProfileSerializer.Profile.Update | profiles/serializers.py:115-132 | the profile's new state is `Updated` of its old state |
| ProfileSerializer.Create | profiles/serializers.py:103-112 | creation fails exactly when availability is missing; otherwise a new profile with the scalars, the upserted availability, and skills and educations defaulting to none |
| InternshipSerializer.Validate | internships/serializers.py:42-48 | accepted exactly when the request's fields are remote or located, returned unchanged; otherwise an error keyed `location` |
| InternshipSerializer.PlacedCases | internships/serializers.py:44 | a remote listing needs no location; a located one may be on site; with neither field the location error is raised |
| InternshipSerializer.PartialUpdateRefused | internships/serializers.py:42-48 | a PATCH sending only a title to a located on-site listing is refused although the listing it would save is placed |
| InternshipSerializer.ValidateUpdate | internships/serializers.py:42-48 | the rule decided on the listing as it would be saved (stored fields with the request's over them) |
| InternshipSerializer.ValidateUpdateAgrees | internships/serializers.py:42-48 | on creation, or when a request resends both fields, the corrected rule decides exactly as the written one |
| InternshipSerializer.EmployerLogo | internships/serializers.py:32-40 | no logo gives `None`; otherwise the logo URL, made absolute when a request is at hand |

## Left out

- Text encoding. JavaScript strings are UTF-16 and Python's are code points; both are modelled as `seq<char>`. `TextDecoder` is not modelled: chunks arrive already decoded, so a multi-byte character split across chunks is not captured.
- `JSON.parse`, `json.loads`, `json.dumps` and pydantic's `model_validate_json` are parameters: partial functions returning `Option`. Serialised key order and the contents of error messages are not modelled.
- The network and foreign services are inputs: `fetch`, the chat-completion streams, speech synthesis, transcription, and the agent runner behind the profile-builder endpoint (its reply, or its failure).
- The endpoint `streamAgent` picks from the role in the access token is not modelled. JWT decoding and `getRole` are part of the browser plumbing; the role reaches `Complete` as a parameter.
- React state timing is simplified:
  - `setHistory` updates are applied at once;
  - one debounced `navigate` persists across sends;
  - the effect that copies the server history into an empty local history is not modelled.
- Time is explicit events: the 200 ms admission poll (`Poll`), the 1000 ms debounce window (`Expire`) and audio playback (`PlaybackDone`).
- The employer endpoint's thread and `queue.Queue` handoff are sequential here. The worker produces its whole item sequence, then `event_stream` consumes it.
- The lock's 60-second cache expiry is not modelled: a lock is held until the worker releases it.
- The ORM, transactions and the cache are abstract stores: maps, sequences and sets.
- `settings.DEBUG` is a parameter.
- `_invoke_tool`, `_maybe_call` and `extract_tool_schema` are not modelled. They inspect SDK objects by reflection. A tool's result (or what it raises) is an input.
- The `list_applicants` and `delete_listing` tools of the employer agent are not modelled. Their only logic is an ORM query.
- The exact text of a `KeyError` for a tool name containing quotes is not modelled: the message is `'name'`.
- The profile tool's `User`/`Profile` `get_or_create` is not modelled: the profile is passed in.
- DRF and pydantic field-level validation are parameters (`accept`, `clean`, `validate`, `decode`), as is date parsing.
- The `gpa` grade is a real number: binary floating point and its rounding are not modelled; its 0..4 range is.
- Educations are kept as given. The ORM's ordering of related rows is not modelled.
- The TTS helper `ttsRequest` and its mutation in `useVoice` are not modelled; the reply's speech comes from the sentence speaker.
- EmployerAgent.SetInternshipFields: an explicit `"id": 0` on the create path is dropped from the fields, not passed on to the model constructor.
- ProfileTools.Data: its own contract states the skills only as named entries of the same length; the names themselves are stated by `ProfileTools.NamesReshape` and `ProfileTools.ReshapedSkillSet`.
- Recorder.Transcript: a `text` member that is present but neither a string nor `null` (a number, say) passes through `?? ""` as that value in JavaScript; the model's transcript is a string and is "" there.
- Speaker.SentenceSpeaker.PlaybackDone: the audio elements themselves are not modelled, only which request plays.

## Findings

| source | as written | input that shows it | evidently intended | confidence | as-written member | corrected member |
|---|---|---|---|---|---|---|
| internships/serializers.py:42-48 (partial updates at internships/views.py:52) | `validate` checks the location rule on the request's fields only | PATCH `{"title": "Backend intern"}` to a stored on-site listing located in "Berlin" is refused with the location error | check the rule on the listing as it would be saved: the stored fields with the request's over them | medium, not executed | InternshipSerializer.PartialUpdateRefused | InternshipSerializer.ValidateUpdate |
