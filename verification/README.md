# Verification of the voicebot pipeline

A Dafny model of the parts of the voicebot in which most can go wrong, with proofs about it.
`dafny verify dfyconfig.toml` checks everything.

The voicebot answers phone calls. Audio frames of 20 ms arrive at a *fanout*, which forwards them to a
voice-activity detector (VAD) and, while someone speaks, to a speech-recognition (ASR) task that it spawns
for each utterance. The detector reports edges of speech twice: as events on the session's event bus and
as flags on a side channel that opens and closes the fanout's capture. An orchestrator takes the events
off the bus one by one, moves a five-state machine, starts the agent and the speech synthesis (TTS) of
each turn, and cuts the reply into sentences while it streams in. Around this core stand the RTP codec
of the telephone side, the agent's memory, tool loop and stream parser, the normalisation of text for
speech, and a load-test tool that makes many calls and analyses their recordings.

## How it is modelled

- **Vad, Fanout, Orchestrator** hold one component each: its state as a value, the effect of every step
  as a function, and the component in the form the program has it, a loop or an object whose
  methods are proved to have exactly that effect. **Turns** and **Reply** are about whole runs of the
  orchestrator, **Sentences** about the cutting itself.
- **Pipeline** composes fanout, detector, ASR tasks and bus into one transition system over bounded
  queues with the program's capacities (16 frames, 32 flags, 8 done messages, 200 events, 200 frames per
  turn). A *schedule* is any sequence of steps that could each be taken, so a statement about every
  schedule is one about every interleaving. The biased `select` is modelled as two polls with
  room for other tasks in between. **Windows**, **Latency** and **Guarantees** hold what is true of every schedule.
- **Mulaw, Rtp, Campaign, LlmStream, Memory, ToolLoop, Analysis, TtsText** model the surrounding
  components in the same way.
- What a component cannot decide for itself is an input and unconstrained: whether a frame or window is
  voiced, when a TTS stream hangs up, when a task finishes and whether it panics, which backend
  operations fail, what a backend, a provider or a tool
  answers, how a JSON line parses, how late a sleep returns.
- One thing is assumed of ASR providers, as the shipped one behaves: transcripts come only
  after the audio stream of the turn has ended.

## Where code and documentation disagree

The model follows the code.

- `voicebot/ARCHITECTURE.md` (line 330) has the 15-frame pre-buffer preserve the beginning of an utterance.
  With the default settings it does so if and only if at most five frames were taken after the
  frame that completed the onset (`Latency.TurnsSpawnPromptly`), and `Latency.OnsetCanBeMissed` is a
  schedule in which the whole onset is missed.
- The comment on `flush_sentences` (`voicebot/crates/core/src/orchestrator.rs`, line 509) names the end of the buffer
  as a sentence boundary. The code cuts only where a blank follows, and leaves the last
  sentence to `flush_remaining`; `Sentences.RestIsKept` depends on this.
- `skills/orchestrator_and_pipeline_session/SKILL.md` (lines 155-162) gives other channels and capacities than
  `voicebot/crates/core/src/session.rs`.

## Model

| member | source | states |
|---|---|---|
| `Guarantees.SideChannelNeverFills` | voicebot/crates/core/src/session.rs:427-435 | In every schedule the 32-slot speech-state queue holds at most 18 flags, the detector never waits on it, and whenever the fanout waits for the detector, the detector can receive, can send, or waits only for the event bus |
| `Guarantees.TranscriptsFollowSpeechEnded` | voicebot/crates/vad/src/component.rs:108-125 | In every schedule a transcript of the turn spawned by the n-th opening flag and closed by its flag stands on the bus behind the n-th SpeechEnded |
| `Guarantees.OrchestratorTracksSpeech` | voicebot/crates/core/src/orchestrator.rs:276-433 | In every schedule without a Cancel consumed: the orchestrator is Listening exactly when the last edge it took was a SpeechStarted, ignores no edge of the detector, and accepts a FinalTranscript exactly when it is the first since a SpeechEnded that no SpeechStarted has followed |
| `Guarantees.TranscriptsAreAccepted` | voicebot/crates/core/src/orchestrator.rs:283-299 | In every schedule without a Cancel consumed: a consumed FinalTranscript of a flag-closed turn is behind the SpeechEnded of that turn, and the orchestrator accepts it if it is the first since and no SpeechStarted stands between |
| `Guarantees.VadFollowsItsRule` | voicebot/crates/vad/src/component.rs:46-134 | In every schedule the detector is in the state its rule gives for the prefix of audio it has heard, and the edges on the bus are those it sent, alternating and starting with a start |
| `Guarantees.EndedDetectorIsBalanced` | voicebot/crates/vad/src/component.rs:55-73 | In every schedule, once the audio has ended and the detector has sent everything, the edges on the bus alternate and every SpeechStarted has its SpeechEnded |
| `Guarantees.TurnsAreFenced` | voicebot/crates/core/src/session.rs:472-515 | In every schedule turn ids count up by one, only the newest turn can have its capture open, and every turn but the current one has been cancelled or has had its done message received |
| `Guarantees.TurnsGetWindows` | voicebot/crates/core/src/session.rs:440-548 | In every schedule each turn is given frames of one contiguous window, in order, without duplicates. The window starts exactly 15 frames before the turn was spawned, or where the previous turn was spawned if that is later, and overlaps the previous window by at most 15 frames; it reaches up to the last frame taken while the turn is open, and ends where the step that closed the turn found it. The turn is given the whole window if and only if, whenever a frame of it was taken, fewer than 200 frames were unread and the provider had not finished |
| `Windows.RunsDecideFates` | voicebot/crates/core/src/session.rs:489-548 | In every schedule, frame by frame: a frame of the pre-buffer was sent to the turn; a later frame of its window was taken while the turn was open, and was sent if and only if the turn's queue had room at that moment |
| `Windows.WholeIffRoom` | voicebot/crates/core/src/session.rs:543-547 | A turn was sent exactly its window if and only if its queue had room for every frame taken since it was spawned |
| `Windows.RunsEndWindows` | voicebot/crates/core/src/session.rs:457-523 | In every schedule the window of an open turn reaches up to now; that of a closed turn ends with the frames taken when it was closed, by its closing flag, its done message, the next opening flag or the end of the fanout |
| `Windows.FrameIsOffered` | voicebot/crates/core/src/session.rs:541-548 | A frame extends the window of the open turn by itself and is sent to it exactly if there is room; no other turn notices |
| `Windows.RunsCancelSuperseded` | voicebot/crates/core/src/session.rs:472-478 | In every schedule a turn is cancelled if and only if an opening flag was handled while it was the current one; never by its closing flag, and never the newest turn |
| `Guarantees.PreBufferIsRecent` | voicebot/crates/core/src/session.rs:535-539 | In every schedule the pre-buffer holds exactly the last 15 frames taken, or all those since the last turn was spawned if they are fewer |
| `Guarantees.StepsAreDefined` | voicebot/crates/core/src/session.rs:452-556 | The side conditions of the step relation hold in every reachable state: done messages name known turns and every queued frame exists, so no enabled step is cut off by them |
| `Latency.TurnsSpawnPromptly` | voicebot/crates/core/src/session.rs:427-440 | In every schedule, when an opening flag is about to be handled, at most 17 frames have been taken since the frame that completed the voiced run of `min_speech_ms`. The turn's window covers the whole run if and only if those frames and the run fit into 15 frames and the previous turn was spawned no later than the run began; with `silence_ms` above 320 the second condition always holds and the window starts at most 3 frames after that frame |
| `Latency.OnsetCanBeMissed` | voicebot/ARCHITECTURE.md:330 | With the default settings (800 ms of silence, 200 ms of speech) there is a concrete schedule in which the turn's window starts only after the ten voiced frames that made up its onset |
| `Latency.RunsArePrompt` | voicebot/crates/core/src/session.rs:452-553 | While a flag waits in the queue the fanout is at most 18 frames past its frame, and a flag in the detector's hands is for the frame it heard last; by induction over schedules |
| `Latency.FlagRule` | voicebot/crates/vad/src/component.rs:82-126 | An even-numbered flag is sent at a frame if and only if, outside speech, the frame completes the voiced run asked for; an odd-numbered one if and only if, in speech, it completes the silent run |
| `Latency.RunIsLate` | voicebot/crates/vad/src/component.rs:78-132 | With `silence_ms` above 320, the voiced run of a new speech starts at least 18 frames after the frame at which the previous speech was reported |
| `Latency.RunsAreTimely` | voicebot/crates/core/src/session.rs:472-523 | In every schedule every turn was spawned, and if a flag closed it was closed, when at most 18 frames had been taken from the frame its flag is for |
| `Latency.TurnsMatchSpeech` | voicebot/crates/vad/src/component.rs:78-132 | In every schedule a turn closed by its flag follows one stretch of speech: it was spawned at most 17 frames after the frame that completed the voiced run, its window holds the frame that completed the silent run, and ends at most 17 frames after it |
| `Latency.FlagHasFrame` | voicebot/crates/vad/src/component.rs:82-126 | Every flag due after h frames is sent at one of those frames |
| `Pipeline.RunsKeepInv` | voicebot/crates/core/src/session.rs:427-557 | Every schedule of the fanout, detector, ASR and bus steps keeps the joint invariant: fencing, windows, detector, queue, side-channel, turn and log parts |
| `Pipeline.EveryStartSpawns` | voicebot/crates/core/src/session.rs:472-478 | Along the joint invariant an opening flag never finds a capture still open: it always spawns a turn, which becomes current (the `continue` branch is dead) |
| `Pipeline.QueueKept` | voicebot/crates/core/src/session.rs:427-435 | Every step keeps: queued frames, the frame in the fanout's hands and pending and queued flags together number at most 18 |
| `Pipeline.VadKept` | voicebot/crates/vad/src/component.rs:46-134 | Every step keeps: the detector has heard a prefix of the audio in order, the queue holds exactly the next frames, and what was sent and is still to be sent is the log of that prefix |
| `Pipeline.SideKept` | voicebot/crates/vad/src/component.rs:85-125 | Every step keeps: flags handled and queued are the flags sent, in order, and sent flags and events respect the send order of each frame |
| `Pipeline.TurnsKept` | voicebot/crates/core/src/session.rs:472-523 | Every step keeps: n handled flags have spawned (n+1)/2 turns and only the first n/2 can have been closed by flag |
| `Pipeline.LogKept` | voicebot/crates/core/src/session.rs:422 | Every step keeps: the bus holds at most 200 events, its edges are the detector's, and every transcript of a flag-closed turn is behind its SpeechEnded |
| `Pipeline.EmitIsBehind` | voicebot/crates/asr/src/speaches.rs:131-134 | A provider that emits only after its audio has ended puts its transcript behind the SpeechEnded of the turn |
| `Pipeline.HandledEndsAreSent` | voicebot/crates/vad/src/component.rs:108-125 | Each closing flag the fanout has handled has its SpeechEnded on the bus already |
| `Pipeline.ClosedStays` | voicebot/crates/core/src/session.rs:517-523 | No step reopens a turn's audio or changes how it was closed |
| `Pipeline.StartKeepsTurns` | voicebot/crates/core/src/session.rs:472-497 | An opening flag adds exactly one turn and closes none by flag |
| `Fanout.FanoutTask.DoneArrives` | voicebot/crates/core/src/session.rs:457-465 | A done message clears the current turn exactly if the id matches, and is otherwise only recorded |
| `Fanout.FanoutTask.FlagArrives` | voicebot/crates/core/src/session.rs:470-523 | Effect of a speech-state flag: ignored start, superseded turn, fresh id, drained pre-buffer, closed capture. A closing flag changes nothing of any turn but that the current one's sender is dropped |
| `Fanout.FanoutTask.FrameArrives` | voicebot/crates/core/src/session.rs:529-548 | Effect of an audio frame on pre-buffer and current turn |
| `Fanout.EndOnlyDropsSender` | voicebot/crates/core/src/session.rs:517-523 | A closing flag drops the current turn's sender and changes no other field of any turn: not its cancellation, what it was sent, or its completion |
| `Fanout.StopOnlyDropsSender` | voicebot/crates/core/src/session.rs:455 | The end of the fanout does the same and takes no more steps |
| `Fanout.DoneOnlyForgets` | voicebot/crates/core/src/session.rs:457-465 | A done message is recorded with its turn, which is forgotten if current; nothing else changes |
| `Fanout.StartCancelsCurrent` | voicebot/crates/core/src/session.rs:472-497 | An opening flag during a capture changes nothing; any other spawns one live, open turn with the next id and cancels and closes the current turn and no other |
| `Fanout.FrameOnlyFeeds` | voicebot/crates/core/src/session.rs:535-548 | A frame touches no turn but the one that captures, and of it only what was sent, whether a frame was lost (for lack of room, or because the provider is gone), and how far its window reaches |
| `Fanout.LateDoneIsHarmless` | voicebot/crates/core/src/session.rs:458-463 | A done message of an older turn changes neither the current turn nor its channel |
| `Fanout.StartKeepsFence` | voicebot/crates/core/src/session.rs:472-497 | Spawning a turn keeps the fence: the superseded turn has been cancelled |
| `Fanout.DoneKeepsFence` | voicebot/crates/core/src/session.rs:457-465 | A done message keeps the fence |
| `Fanout.EndKeepsFence` | voicebot/crates/core/src/session.rs:517-523 | A closing flag keeps the fence |
| `Fanout.StartKeepsWindows` | voicebot/crates/core/src/session.rs:480-496 | A spawned turn's window starts where the pre-buffer began and follows the previous window, and the drained pre-buffer is empty |
| `Fanout.StartedTurns` | voicebot/crates/core/src/session.rs:489-497 | The spawned turn is sent exactly the pre-buffer; no other turn changes but the superseded one |
| `Fanout.FrameKeepsWindows` | voicebot/crates/core/src/session.rs:535-548 | A frame keeps every window: the open one is extended, starts are unchanged, and the pre-buffer holds exactly the last 15 frames since the last drain |
| `Fanout.PrefillTakesAll` | voicebot/crates/core/src/session.rs:489-491 | The pre-fill of a fresh 200-slot queue loses no frame |
| `Fanout.NothingLost` | voicebot/crates/core/src/session.rs:543-547 | A turn none of whose sends failed was sent exactly its window |
| `Fanout.WindowsOverlapLittle` | voicebot/crates/core/src/session.rs:489-491 | Consecutive windows share at most 15 frames and the later starts no earlier than the earlier was spawned |
| `Vad.RunLoop` | voicebot/crates/vad/src/component.rs:40-134 | The loop sends exactly the log of the frames received, in order, cut just before the first event the bus refuses; if the audio ends, the closing SpeechEnded included |
| `Vad.Sender.Begin` | voicebot/crates/vad/src/component.rs:85-99 | The opening flag goes out before SpeechStarted and even if that fails |
| `Vad.Sender.End` | voicebot/crates/vad/src/component.rs:108-125 | The closing flag goes out after SpeechEnded and only if that succeeded |
| `Vad.CountersAreRuns` | voicebot/crates/vad/src/component.rs:78-132 | The counters divided by 20 are the lengths of the longest silent and (when not speaking) voiced run at the end of the frames heard |
| `Vad.NeedIsLeast` | voicebot/crates/vad/src/component.rs:82-104 | The frames a decision needs: the fewest, at least one, that last the configured milliseconds |
| `Vad.EdgeRule` | voicebot/crates/vad/src/component.rs:82-126 | Speech starts exactly when not speaking and the last ceil(min_speech_ms/20), at least one, frames were voiced; it ends exactly when speaking and the same holds for silence_ms and silent frames; the sends of the frame are exactly the flag and event of that edge, in order |
| `Vad.LatchRule` | voicebot/crates/vad/src/component.rs:82-132 | Closed form: the detector is speaking exactly when some frame completed a voiced run and no later frame completed a silent one |
| `Vad.LogAlternates` | voicebot/crates/vad/src/component.rs:82-126 | Bus and side channel carry the same strictly alternating edges, and speech is on exactly when their number is odd |
| `Vad.EndedStreamIsBalanced` | voicebot/crates/vad/src/component.rs:55-73 | Once the audio stream has ended, every SpeechStarted has its SpeechEnded |
| `Vad.EndClosesSpeech` | voicebot/crates/vad/src/component.rs:57-71 | A stream that ends during speech is closed by a SpeechEnded with the time of its last frame; one that ends outside speech by nothing |
| `Vad.FlagsFollowEnds` | voicebot/crates/vad/src/component.rs:85-125 | In every prefix of the sends, closing flags do not outnumber SpeechEnded events and SpeechStarted events do not outnumber opening flags |
| `Vad.FlagsFollowEndsToTheLast` | voicebot/crates/vad/src/component.rs:57-71 | The same with the closing SpeechEnded of an ended stream, which has no flag |
| `Vad.TurnsTakeTime` | voicebot/crates/vad/src/component.rs:78-132 | The number of turns closed by silence times the frames that an onset and a silence need is at most the number of frames |
| `Text.TrimIs` | voicebot/crates/core/src/orchestrator.rs:532 | Trimming leaves the text between blanks: empty if all is blank, otherwise what starts with the first and ends with the last character that is not |
| `Text.TrimOf` | voicebot/crates/core/src/orchestrator.rs:532 | Conversely, a text without blank ends is what trimming leaves of it with any blanks around it |
| `Text.BlanksAre` | voicebot/crates/core/src/orchestrator.rs:532 | The blanks, one by one |
| `Sentences.FindBoundary` | voicebot/crates/core/src/orchestrator.rs:515-527 | The scan returns the first position after a sentence ender that a blank follows, or none if there is none |
| `Sentences.SplitIsOneShot` | voicebot/crates/core/src/orchestrator.rs:513-545 | Repeated cutting meets an independent specification: nothing lost, no empty piece, pieces end exactly at the cut points |
| `Sentences.PiecesEndAt` | voicebot/crates/core/src/orchestrator.rs:519-520 | A piece ends exactly where one of . ! ? or a line feed is followed by a space, a tab or a line feed |
| `Sentences.OneShotIsUnique` | voicebot/crates/core/src/orchestrator.rs:513-545 | That specification has only one solution |
| `Sentences.SplitAppend` | voicebot/crates/core/src/orchestrator.rs:320-321 | Splitting what is left over together with new text continues the split of the whole text |
| `Sentences.RestIsKept` | voicebot/crates/core/src/orchestrator.rs:529-534 | Draining leaves at least one character unless there was none, so an emptied buffer means no text arrived |
| `Sentences.DrainSentences` | voicebot/crates/core/src/orchestrator.rs:510-546 | The draining loop offers what its specification says, for any receiver that may hang up at any send, and never an empty or untrimmed text |
| `Sentences.FlushIsSplit` | voicebot/crates/core/src/orchestrator.rs:510-546 | With a live receiver the strings sent are the trimmed non-empty pieces of the one-shot split |
| `Sentences.SpokenIsTrimmed` | voicebot/crates/core/src/orchestrator.rs:529-541 | The texts spoken of some pieces are, in order, what trimming leaves of those that are not blank; each is delivered, not empty, and not blank at either end |
| `Sentences.FlushIsCrisp` | voicebot/crates/core/src/orchestrator.rs:529-541 | Whatever is offered, to any receiver, is not empty and not blank at either end |
| `Sentences.FlushUntilGone` | voicebot/crates/core/src/orchestrator.rs:536-540 | A receiver that takes n more strings is delivered the first n; the next offer finds it gone and is the last |
| `Sentences.FlushKeepsInk` | voicebot/crates/core/src/orchestrator.rs:532-540 | Draining keeps every non-blank character, in order, between what was offered and what is left, whatever the receiver does |
| `Reply.TranscriptBeginsReply` | voicebot/crates/core/src/orchestrator.rs:292-299 | An accepted transcript always starts a reply with empty buffer and no TTS stream |
| `Reply.StreamingIsSplitting` | voicebot/crates/core/src/orchestrator.rs:311-324 | For any division of the reply into deltas and any other events that leave the agent thinking, the strings offered so far are the one-shot split of the concatenated deltas |
| `Reply.ReplySpoken` | voicebot/crates/core/src/orchestrator.rs:325-342 | A whole reply is spoken as the trimmed pieces of its concatenated deltas and their tail, each without blank ends; the final text is spoken exactly if no non-empty delta arrived, never twice |
| `Reply.UtterancesAreTrimmed` | voicebot/crates/core/src/orchestrator.rs:549-560 | What a reply says is, in order, what trimming leaves of its pieces and their rest, or of the final text |
| `Reply.StreamingKeepsInk` | voicebot/crates/core/src/orchestrator.rs:536-540 | With TTS streams that may hang up and be reopened, the non-blank characters offered and buffered are those of the deltas, in order |
| `Reply.ReplyKeepsInk` | voicebot/crates/core/src/orchestrator.rs:549-564 | At the end of the reply they have all been offered |
| `Orchestrator.Orchestrator.HandleEvent` | voicebot/crates/core/src/orchestrator.rs:252-434 | Whole new state for every event in every state, including egress, tokens, buffer and counters |
| `Orchestrator.Orchestrator.CancelActiveTasks` | voicebot/crates/core/src/orchestrator.rs:567-592 | Both tokens are cancelled and taken, buffer and TTS sender dropped |
| `Orchestrator.Orchestrator.SendSentences` | voicebot/crates/core/src/orchestrator.rs:510-546 | flush_sentences on the object: offers, remaining buffer, sender dropped when the stream has hung up |
| `Orchestrator.Orchestrator.SendRemaining` | voicebot/crates/core/src/orchestrator.rs:549-564 | flush_remaining on the object |
| `Orchestrator.Orchestrator.TriggerAgentTask` | voicebot/crates/core/src/orchestrator.rs:438-445 | Issues the agent token if providers are configured |
| `Orchestrator.Orchestrator.StartTtsStream` | voicebot/crates/core/src/orchestrator.rs:474-486 | Opens the TTS stream and issues its token if providers are configured |
| `Orchestrator.Orchestrator.OnPartialResponse` | voicebot/crates/core/src/orchestrator.rs:311-324 | A delta while thinking |
| `Orchestrator.Orchestrator.OnFinalResponse` | voicebot/crates/core/src/orchestrator.rs:325-342 | The final response while thinking |
| `Turns.HandleMoves` | voicebot/crates/core/src/orchestrator.rs:276-433 | The control state moves as the transition table says, whatever providers and receivers do |
| `Turns.TurnsBalance` | voicebot/crates/core/src/orchestrator.rs:278-400 | Over every run: accepted SpeechStarted = accepted TtsComplete + interrupt_count + Cancels taken outside Idle + (1 if not Idle) |
| `Turns.TranscriptsCounted` | voicebot/crates/core/src/orchestrator.rs:292-299 | Over every run: turn_count equals accepted FinalTranscripts and never exceeds accepted SpeechStarted, with one to spare while listening or transcribing |
| `Turns.RunsAreFenced` | voicebot/crates/core/src/orchestrator.rs:567-592 | Over every run: outside AgentThinking the sentence buffer is empty and the TTS sender absent, and every token ever issued was cancelled, was in its slot when a TtsComplete was accepted, was that of a stream that hung up, or belongs to the turn under way |
| `Turns.HandleKeepsFence` | voicebot/crates/core/src/orchestrator.rs:276-433 | Every event keeps that fence |
| `Turns.ListensBetweenEdges` | voicebot/crates/core/src/orchestrator.rs:278-285 | For alternating edges without Cancel and any interleaved events: Listening exactly between a start and the next end, and no edge is ignored |
| `Turns.TranscriptRule` | voicebot/crates/core/src/orchestrator.rs:283-299 | A transcript is awaited exactly when some SpeechEnded has been followed by neither a SpeechStarted nor a FinalTranscript |
| `Turns.EgressIsPassed` | voicebot/crates/core/src/orchestrator.rs:276-433 | Over every run the egress channel carries, in order, exactly the events that are passed on in the state they meet, TTS audio among them |
| `Turns.AgentIsAsked` | voicebot/crates/core/src/orchestrator.rs:292-299 | Over every run the agent is handed the text of exactly the accepted transcripts, in order |
| `Turns.StopsCancelTheSlots` | voicebot/crates/core/src/orchestrator.rs:300-400 | Exactly barge-in, interrupt while speaking and cancel cancel tasks: those of both slots, which they empty |
| `Turns.TasksGetNewTokens` | voicebot/crates/core/src/orchestrator.rs:438-482 | Exactly an accepted transcript starts an agent task, and exactly reply text without an open stream a TTS task, each with a token of its own; no other event touches the slots without cancelling |
| `Turns.OnlyRepliesOffer` | voicebot/crates/core/src/orchestrator.rs:311-342 | Only reply text while the agent thinks adds to what is offered to TTS |
| `Rtp.ParseRtpPayload` | voicebot/crates/transport/asterisk/src/rtp.rs:23-64 | The parser returns the payload range it should, within the packet and behind the header, for arbitrary bytes |
| `Rtp.ParseSerialized` | voicebot/crates/transport/asterisk/src/rtp.rs:23-64 | Any packet laid out as RFC 3550 sections 5.1 and 5.3.1 say (CSRC list, extension, padding, payload) is parsed to exactly its payload |
| `Rtp.ParsedIsLaidOut` | voicebot/crates/transport/asterisk/src/rtp.rs:23-64 | Conversely every accepted byte string is such a packet with the returned payload, unless its padding count is zero |
| `Rtp.ParserAcceptsTheStandard` | voicebot/crates/transport/asterisk/src/rtp.rs:23-64 | A byte string is accepted and has no zero padding count if and only if it is a packet of the standard |
| `Rtp.HeaderInPlainTerms` | voicebot/crates/transport/asterisk/src/rtp.rs:27-35 | The layout of the standard bit by bit: version, padding and extension bits, source count, fixed header and sources |
| `Rtp.ExtensionInPlainTerms` | voicebot/crates/transport/asterisk/src/rtp.rs:40-50 | The extension header counts words of four bytes in two bytes, the most significant first |
| `Rtp.PaddingInPlainTerms` | voicebot/crates/transport/asterisk/src/rtp.rs:52-57 | The last byte counts the padding, itself included |
| `Rtp.BuildPcmuPacket` | voicebot/crates/transport/asterisk/src/rtp.rs:11-21 | The built packet is the standard's layout without options; byte by byte: 0x80, payload type 0, sequence number, timestamp and source with their most significant byte first, then the code of each second sample |
| `Rtp.Upsample` | voicebot/crates/transport/asterisk/src/rtp.rs:75-82 | Each sample is doubled |
| `Rtp.Transmit` | voicebot/crates/transport/asterisk/src/rtp.rs:11-82 | Build, parse and decode yield the transcoded even-indexed samples, each twice: 2*ceil(n/2) samples for n |
| `Rtp.TripSamples` | voicebot/crates/transport/asterisk/src/rtp.rs:66-82 | Sample k comes back as the decoded code of the even-indexed sample at or before k |
| `Rtp.TripIsClose` | voicebot/crates/transport/asterisk/src/rtp.rs:66-117 | Every sample that comes back is within 2^(segment+2) of the even-indexed input up to magnitude 32635, and within 644 always |
| `Rtp.TripTwice` | voicebot/crates/transport/asterisk/src/rtp.rs:66-117 | A second trip changes nothing |
| `Rtp.DownsampledTrip` | voicebot/crates/transport/asterisk/src/rtp.rs:71-82 | Downsampling what came back gives one transcoded sample per pair |
| `Mulaw.ErrorBound` | voicebot/crates/transport/asterisk/src/rtp.rs:84-117 | The companding error is at most half a quantisation step, and at most 644 where the encoder clips |
| `Mulaw.TranscodeMonotone` | voicebot/crates/transport/asterisk/src/rtp.rs:84-117 | Encoding and decoding never reverses the order of two samples |
| `Mulaw.ReencodeDecoded` | voicebot/crates/transport/asterisk/src/rtp.rs:84-117 | Re-encoding a decoded byte gives it back, except 0x7F, which becomes 0xFF |
| `Mulaw.TranscodeTwice` | voicebot/crates/transport/asterisk/src/rtp.rs:84-117 | Transcoding is idempotent |
| `Mulaw.CodeInterval` | voicebot/crates/transport/asterisk/src/rtp.rs:93-104 | A code is chosen exactly for the biased magnitudes of its interval |
| `Mulaw.RoundTripValue` | voicebot/crates/transport/asterisk/src/rtp.rs:84-117 | Encode then decode gives the signed middle of that interval |
| `Mulaw.Extremes` | voicebot/crates/transport/asterisk/src/rtp.rs:84-105 | Silence and the loudest samples have the codes of G.711 |
| `Mulaw.DecodedExtremes` | voicebot/crates/transport/asterisk/src/rtp.rs:107-117 | And those codes the values |
| `Campaign.RunCampaign` | voicebot/crates/loadtest/src/runner.rs:59-146 | The campaign ends; calls are paced: call i of the first `concurrency` starts no earlier than i * ramp_up_ms / concurrency milliseconds, and every call i no earlier than i / rate seconds; there are results if and only if no started call panicked; then result i is the outcome of call i for every started call, and either all calls were made or the soak time is over. It is the outcome of a sequence of justified passes that accounts for every reading of the clock and every sleep |
| `Campaign.RunLoop` | voicebot/crates/loadtest/src/runner.rs:70-141 | The call loop is a sequence of justified passes, of which only the last ends it |
| `Campaign.EveryPassIsJustified` | voicebot/crates/loadtest/src/runner.rs:70-140 | Before every pass at most `concurrency` calls are pending. A pass makes a call if one is wanted, after its delays; collects a result if none is wanted or the rate limit holds it back; ends if nothing is wanted and nothing pending, or at a panicked call; and sleeps only for a delay that is outstanding |
| `Campaign.PassInPlainTerms` | voicebot/crates/loadtest/src/runner.rs:71-140 | A result is awaited only when the pool is full, when count or deadline allow no further call, or when the rate holds the next call back; a pass sleeps only for a ramp-up or rate slot ahead, and calls from `concurrency` on have no ramp-up slot |
| `Campaign.Advance` | voicebot/crates/loadtest/src/runner.rs:70-140 | One pass keeps the invariant and uses up the measure that bounds the loop, or ends it |
| `Campaign.CampaignLoop.Iterate` | voicebot/crates/loadtest/src/runner.rs:70-140 | One pass is justified by the variables and the time it found, has the effect of its kind, and reads the clock once |
| `Campaign.CampaignLoop.WaitForSlot` | voicebot/crates/loadtest/src/runner.rs:76-105 | A call is let through only after its ramp-up and rate delays; otherwise the rate delay is still outstanding and a call is pending; it sleeps at most once for each outstanding delay |
| `Campaign.CampaignLoop.Collect` | voicebot/crates/loadtest/src/runner.rs:137-139 | One pending call moves to the results with its outcome, or it panicked and nothing changes |
| `Campaign.SpawnKeepsInv` | voicebot/crates/loadtest/src/runner.rs:75-131 | Spawning keeps: at most `concurrency` pending, pending and collected calls partition 0..call_index, starts paced; and lowers 2*(total - call_index) + pending |
| `Campaign.CollectKeepsInv` | voicebot/crates/loadtest/src/runner.rs:97-102 | Collecting keeps the same and lowers the same measure |
| `Campaign.FinishedIsComplete` | voicebot/crates/loadtest/src/runner.rs:132-146 | When the loop ends, the sorted results are those of calls 0, 1, 2, ... , and all calls were made or the soak time is over |
| `Campaign.PacedCall` | voicebot/crates/loadtest/src/runner.rs:76-95 | Call i starts no earlier than its ramp-up slot, i/rate seconds, and its predecessor |
| `Campaign.PacedIsInTime` | voicebot/crates/loadtest/src/runner.rs:76-95 | The pacing of the starts in milliseconds and calls per second |
| `Campaign.DelaysArePlain` | voicebot/crates/loadtest/src/runner.rs:77-91 | The delays are exactly the ramp-up slot and i / rate, and none without ramp-up, beyond the first `concurrency` calls, or without a rate |
| `Campaign.RateLimitHolds` | voicebot/crates/loadtest/src/runner.rs:87-95 | By any time t at most floor(t*rate)+1 calls have started |
| `Campaign.SortKeeps` | voicebot/crates/loadtest/src/runner.rs:146 | Sorting distinct indices yields a strictly ascending permutation |
| `Campaign.SortedResultsAreCalls` | voicebot/crates/loadtest/src/runner.rs:146 | After the sort, result i is the result of call i |
| `LlmStream.StreamCompletion` | voicebot/crates/agent/src/openai.rs:138-266 | A body gives a final response exactly if no chunk failed or was cancelled; partials, sent in any case, and response are those of the lines of the text that arrived before, however it was cut |
| `LlmStream.Reader.Feed` | voicebot/crates/agent/src/openai.rs:150-230 | One chunk: its complete lines are handled in order, the unfinished one stays buffered |
| `LlmStream.Reader.HandleLines` | voicebot/crates/agent/src/openai.rs:154-228 | The index-based scan reads line after line until no newline is left |
| `LlmStream.Reader.HandleLine` | voicebot/crates/agent/src/openai.rs:158-227 | Blank, foreign, [DONE] and unparsable lines are skipped; others add their choices |
| `LlmStream.DataLine` | voicebot/crates/agent/src/openai.rs:158-176 | Of a line that is `data: ` and a text, with any blanks around it, exactly the text behind the prefix is parsed, and all choices it parses to are kept |
| `LlmStream.DoneLine` | voicebot/crates/agent/src/openai.rs:166-168 | The [DONE] line stands for nothing |
| `LlmStream.OtherLine` | voicebot/crates/agent/src/openai.rs:161-163 | Lines that do not start with `data: ` when trimmed stand for nothing |
| `LlmStream.Reader.HandleDelta` | voicebot/crates/agent/src/openai.rs:192-224 | Growing the slots and updating one of them; indices from 32 on are skipped |
| `LlmStream.DrainsLines` | voicebot/crates/agent/src/openai.rs:156-230 | Reading line by line equals splitting the text into lines once |
| `LlmStream.SplitLinesIsExact` | voicebot/crates/agent/src/openai.rs:156-159 | The lines are exactly the newline-terminated lines of the text, in order, and the rest has no newline |
| `LlmStream.SplitLinesAppend` | voicebot/crates/agent/src/openai.rs:150-152 | Cutting the text anywhere makes no difference to its lines |
| `LlmStream.SlotsAccumulate` | voicebot/crates/agent/src/openai.rs:192-224 | Per index below 32: last id, last name, and the in-order concatenation of the argument fragments |
| `LlmStream.FragmentsByIndex` | voicebot/crates/agent/src/openai.rs:193-203 | A fragment without index belongs to call 0, one with an index from 32 on to none |
| `LlmStream.FinalizeConcat` | voicebot/crates/agent/src/openai.rs:243-255 | Final calls keep the order of their slots |
| `LlmStream.FinalizeOne` | voicebot/crates/agent/src/openai.rs:243-255 | A slot becomes a call exactly if it has an id and a name |
| `LlmStream.ResponseOfLines` | voicebot/crates/agent/src/openai.rs:178-255 | Partials are the content deltas, the text is their concatenation, and the tool calls are the identified and named slots in index order |
| `Memory.ConversationMemory.TrimToMaxTurns` | voicebot/crates/agent/src/memory.rs:125-144 | The trimming loop, as a function of the list |
| `Memory.ConversationMemory.Persist` | voicebot/crates/agent/src/memory.rs:192-203 | One save; the backend stays attached exactly if it succeeds, and then holds the list |
| `Memory.ConversationMemory.EnsureLoaded` | voicebot/crates/agent/src/memory.rs:163-190 | The list is the stored one, prompted and trimmed, or built afresh if the load fails; the backend stays attached exactly if no operation failed, then holds the list, and is written to only if loading changed the list |
| `Memory.ConversationMemory.PushLocal` | voicebot/crates/agent/src/memory.rs:52-55 | A push without loading or persisting |
| `Memory.ConversationMemory.Push` | voicebot/crates/agent/src/memory.rs:57-61 | The message is appended and the list trimmed, whether or not the backend answers; the backend stays attached exactly if no operation failed, and then holds the list |
| `Memory.ConversationMemory.Snapshot` | voicebot/crates/agent/src/memory.rs:63-66 | The list, loaded if need be; the backend stays attached exactly if no operation failed |
| `Memory.ConversationMemory.SetSystemPrompt` | voicebot/crates/agent/src/memory.rs:68-111 | The list leads with the new prompt; taking it away leaves no prompt provided there was at most one system message; the backend stays attached exactly if no operation failed, and then holds the list |
| `Memory.PromptIsGoneIff` | voicebot/crates/agent/src/memory.rs:98-109 | Setting no prompt removes the prompt if and only if no second system message with a text moves up into first place |
| `Memory.SecondPromptMovesUp` | voicebot/crates/agent/src/memory.rs:98-109 | A list with two system messages, for which setting no prompt leaves a prompt |
| `Memory.ConversationMemory.Clear` | voicebot/crates/agent/src/memory.rs:118-123 | List and prompt are gone; the backend stays attached exactly if no operation failed, and then holds nothing |
| `Memory.ConversationMemory.Local` | voicebot/crates/agent/src/memory.rs:25-34 | A fresh local memory |
| `Memory.ConversationMemory.WithBackend` | voicebot/crates/agent/src/memory.rs:36-50 | A fresh memory that will load from its backend |
| `Memory.TrimmedAfterSystem` | voicebot/crates/agent/src/memory.rs:125-144 | Behind a leading system message trimming keeps that message and the longest suffix that fits |
| `Memory.TrimmedInGeneral` | voicebot/crates/agent/src/memory.rs:125-144 | What trimming leaves of any list, whatever its system messages |
| `Memory.TrimmedPush` | voicebot/crates/agent/src/memory.rs:52-55 | Trimming after every push equals trimming once at the end |
| `Memory.ConversationKeepsSystemAndSuffix` | voicebot/crates/agent/src/memory.rs:52-61 | After any pushes onto a list led by a system message: that message and the longest suffix of the others that fits |
| `Memory.OpsContinue` | voicebot/crates/agent/src/memory.rs:52-123 | After any pushes (of other than system messages), prompt changes, snapshots and clears the list is the system message, if any, and the longest suffix of the other messages that fits; only taking the prompt away makes what it had pushed out final |
| `Memory.ListIsPromptAndSuffix` | voicebot/crates/agent/src/memory.rs:52-123 | While prompts are replaced or cleared but not taken away, the list is the system message of the current prompt and the longest suffix that fits of the messages pushed since the last clear |
| `Memory.LoadShows` | voicebot/crates/agent/src/memory.rs:146-190 | Loading a stored conversation shows it behind its own system message, or behind the configured prompt if it has none |
| `Memory.Converse` | voicebot/crates/agent/src/memory.rs:52-215 | Any operations on a memory, starting unloaded or loaded: the list is what they amount to whatever the backend does, the backend stays attached exactly if nothing it was asked has failed, and while attached its copy is the list |
| `Memory.LoadedAgain` | voicebot/crates/agent/src/memory.rs:146-190 | Preparing a stored copy of a fitting, prompted list changes nothing |
| `Memory.Reload` | voicebot/crates/agent/src/memory.rs:163-190 | A fresh memory on the same backend shows the same list if its load does not fail, and stays attached exactly if no operation fails; unless the limit is zero the load is the only operation |
| `ToolLoop.HandleTurn` | voicebot/crates/agent/src/core.rs:65-173 | At most 5 completions; the messages pushed are the user's, then per tool-calling completion the assistant message and the result of each call under its id in order, then the answer or the partial text of a cancelled turn |
| `ToolLoop.RunTools` | voicebot/crates/agent/src/core.rs:146-167 | One round of tool calls: the assistant message, then the result of each call in order and under its id |
| `ToolLoop.RoundsAreJoined` | voicebot/crates/agent/src/core.rs:146-170 | The messages of the rounds follow each other in the order of the completions |
| `ToolLoop.PartialsAreJoined` | voicebot/crates/agent/src/core.rs:102-107 | So do their partial responses |
| `ToolLoop.MessagesAre` | voicebot/crates/agent/src/core.rs:136-166 | Role, text, call ids and answered id of each kind of message |
| `ToolLoop.Receive` | voicebot/crates/agent/src/core.rs:99-117 | Collecting one completion: partials are forwarded, a final response replaces text and calls |
| `ToolLoop.PartialsPassOn` | voicebot/crates/agent/src/core.rs:102-107 | Partial responses are passed on one by one, in order |
| `ToolLoop.OneEvent` | voicebot/crates/agent/src/core.rs:102-116 | What a single streamed event contributes |
| `ToolLoop.LastFinalCounts` | voicebot/crates/agent/src/core.rs:98-117 | Text and calls of a completion are those of its last final response, extended by later partial ones; without one, the partial ones joined and no calls |
| `ToolLoop.Finish` | voicebot/crates/agent/src/core.rs:120-144 | How a turn ends that does not run out of rounds |
| `ToolLoop.OneFinalResponse` | voicebot/crates/agent/src/core.rs:134-144 | Exactly one AgentFinalResponse if some completion asks for no tools, none otherwise |
| `Analysis.BuildRegions` | voicebot/crates/loadtest/src/analysis.rs:34-58 | The region loop computes the regions of the verdicts on the windows of the recording |
| `Analysis.WindowsAreJudged` | voicebot/crates/loadtest/src/analysis.rs:37-41 | Those verdicts are the test on every window of the recording, in order, the short last one included |
| `Analysis.WindowsInPlainTerms` | voicebot/crates/loadtest/src/analysis.rs:31-37 | Which samples a window holds |
| `Analysis.RegionsComeFromRuns` | voicebot/crates/loadtest/src/analysis.rs:37-58 | The regions are the maximal runs of voiced windows, in order, none missed; a region closed by silence reaches to the end of the closing window |
| `Analysis.RegionsInPlainTerms` | voicebot/crates/loadtest/src/analysis.rs:37-58 | Region k in milliseconds: from its first voiced window to the end of the silent window behind its last, cut off at the end of the recording |
| `Analysis.RegionsInOrder` | voicebot/crates/loadtest/src/analysis.rs:37-58 | Regions are sorted, disjoint and inside the recording |
| `Analysis.VoicedWindowsAreCovered` | voicebot/crates/loadtest/src/analysis.rs:41-50 | Every voiced window lies inside one region |
| `Analysis.RecordingIsPartitioned` | voicebot/crates/loadtest/src/analysis.rs:60-65 | First start, region lengths, gaps and the rest add up to the recording: no clamp or saturation ever takes effect |
| `Analysis.MeasureGaps` | voicebot/crates/loadtest/src/analysis.rs:77-93 | Longest gap, gaps over the threshold, and stutters |
| `Analysis.CountGapsIsNumber` | voicebot/crates/loadtest/src/analysis.rs:80-93 | The counts are the numbers of gaps of at least, and below, the given lengths |
| `Analysis.FirstResponseIsFirst` | voicebot/crates/loadtest/src/analysis.rs:67-75 | The response time is that of the first region not over when the caller stopped, or none |
| `Analysis.AnalyzeReceivedAudio` | voicebot/crates/loadtest/src/analysis.rs:26-105 | The whole analysis; voiced and silent time add up to the recording |
| `TtsText.NormalizeTtsInput` | voicebot/crates/tts/src/speaches.rs:146-197 | The push-and-pop pass with its flag computes the specified text, or none |
| `TtsText.PassIsSpaced` | voicebot/crates/tts/src/speaches.rs:150-183 | Pushing spaces early and popping them again writes what a one-way rule writes that never goes back |
| `TtsText.TrimmedPass` | voicebot/crates/tts/src/speaches.rs:185 | The result has no leading, trailing or doubled space and none before closing punctuation |
| `TtsText.SpokenKeeps` | voicebot/crates/tts/src/speaches.rs:151-165 | Alphanumeric characters, and allowed punctuation, are kept in order |
| `TtsText.SpokenIsFixed` | voicebot/crates/tts/src/speaches.rs:150-183 | Normal text is left alone |
| `TtsText.NormalizedTwice` | voicebot/crates/tts/src/speaches.rs:146-197 | Normalising a result changes nothing |
| `TtsText.SpeaksIff` | voicebot/crates/tts/src/speaches.rs:185-196 | A text is spoken exactly if it keeps a character other than digits and . ) ( - / |
| `TtsText.SingleCharacters` | voicebot/crates/tts/src/speaches.rs:151-165 | Which ASCII characters are spoken, and which alone are not worth speaking |
| `TtsText.BetweenCharacters` | voicebot/crates/tts/src/speaches.rs:150-183 | What any ASCII character between two spoken ones becomes: nothing, itself, or a space unless closing punctuation follows |

## Left out

- Integer widths: times, counters and turn ids are unbounded. The detector's counters are 32 bits wide and
  would wrap only after more than two years of uninterrupted speech or silence. The codec's 16-bit arithmetic,
  with its saturation, is modelled.
- Floating point: call rates and delays are real numbers; the energy test of frames and windows is an input.
- Network, files, databases, metrics, logging, the dashboard, WAV handling, resampling and the WebSocket
  transport.
- The retry loops of `FallbackAsrProvider` and `FallbackLlmProvider`, the 640-byte framing of synthesised
  audio, and the second codec in the load-test's Asterisk backend, which repeats the first.
- Task handles and the `cancel` calls to providers when an orchestrator turn is cancelled; cancelling is
  modelled by its tokens.
- Acceptance of stale events: bus events carry no turn id, so nothing is claimed about events of an old turn that arrive
  in a state that accepts their kind. The source recorded with each log entry in `Pipeline` is
  there to state properties and is seen by no task.
- Progress of the orchestrator: it awaits a 20-slot text channel and the egress channel inside event
  handling, and nothing is claimed about when those make room.
- The fanout appears twice in `session.rs` and is modelled once.
- Guarantees.TranscriptsFollowSpeechEnded: speaks of turns closed by their flag; the side channel gets no closing
  flag when the audio stream ends, and a turn closed by that may transcribe earlier.
- Guarantees.OrchestratorTracksSpeech: speaks of runs in which no Cancel was consumed; a Cancel returns the
  orchestrator to Idle in the middle of speech.
- Pipeline.RunsKeepInv: session cancellation is modelled as the separate steps it leads to (fanout stops,
  detector stops, bus closes), and the fanout may stop at any poll, which allows more schedules than
  the program has.
- Fanout.FanoutTask.FlagArrives: the object keeps the channel of every turn in a list of turns, where
  the program hands its other end to a task.
- Vad.RunLoop: the two sends of an edge are methods of the sender object, where the program has them inline.
- Sentences.DrainSentences: drains a local copy of the buffer, which `SendSentences` then assigns; the
  scan is over characters, which finds the same cuts as the scan over bytes because all characters
  concerned are ASCII.
- Rtp.ParserAcceptsTheStandard: speaks of packets without a zero padding count, which the standard rules
  out and the parser takes as no padding.
- Campaign.RunCampaign: a soak campaign without a call count ends because the clock passes its deadline
  after finitely many readings; that is a property of the clock object.
- LlmStream.StreamCompletion: chunks are cut on character boundaries; the lossy decoding of split characters is not
  modelled. A last line without newline is never handled, as in the program.
- Memory.ConversationMemory.PushLocal: on a memory with a backend it leaves the stored copy behind; the program
  uses it only on local ones.
- Memory.Converse: nobody else writes to the backend's copy; which operations on the backend fail is an input.
- Memory.OpsContinue: pushed messages are not system messages; what trimming does with those is
  `Memory.TrimmedInGeneral`.
- Turns.RunsAreFenced: a TtsComplete names no stream, so the tasks whose tokens are in the slots
  when one is accepted count as finished, as the program treats them.
- ToolLoop.HandleTurn: collects the messages pushed in order; that the memory trims them meanwhile is the subject of
  `Memory`, which may separate tool results from their calls.
- Analysis.BuildRegions: the samples of a window enter only through the verdict on it.
- TtsText.NormalizeTtsInput: which characters above ASCII are alphanumeric is a parameter; blanks are not.
