# Voice-tutor session core in Dafny

This project models the non-UI session logic of the `App` component of a
browser voice-conversation client (`App.tsx`). The client streams microphone
audio to a realtime speech model and plays the model's audio replies. It also
keeps a live transcript of the conversation.

Everything lives in one class, `Session.SessionCore`, whose fields are the
component's refs and state:

- **Playback scheduler.**
  - `cursor` is `nextStartTimeRef`.
  - `active` is `audioSourcesRef`: the ids of the sources that are playing.
  - `plays` logs every `AudioBufferSourceNode` started: its output context, start time and duration. A source's id is its index in this log.
  - `stopped` records the sources on which `stop()` was called.
- **Transcript aggregator.** `userText` and `modelText` are the two pending buffers. `transcript` is the committed list.
- **Connection state machine.** `state` ranges over `ConnectionState` from `types.ts`.
- **Microphone gate.**
  - `muted` is the UI flag.
  - `gateMuted` is the value the capture handler captured when the session started.
  - `sent` holds the frames handed to the transport.

The object invariant `Valid()` holds on every path. It says four things:

- Every logged play belongs to an output context that has been created.
- Every active source has been started, so its id is in the log.
- The sources playing on the current output context all end by the cursor, and no two of them overlap.
- Every committed item has non-empty text with no surrounding whitespace.

Three pure modules carry the reasoning that the class methods reuse:

- `Text` models JavaScript's `trim` over the ECMAScript whitespace and line-terminator characters.
- `Transcript` holds the turn-complete commit as a function, `CommitTurn`. The method `OnTurnComplete` builds the same items step by step with pushes.
- `Playback` holds the start-time rule `Math.max(cursor, now)` and lemmas about any run of chunks scheduled without an interruption in between. `EnqueueExtendsRun` shows that the step `ScheduleChunk` performs, repeated, yields exactly that run.

Clock readings, decode outcomes, the microphone permission and message contents are all parameters:

- `now` is the output context's `currentTime`.
- `Decoding` is the outcome of `decodeAudioData`: a duration or a throw.
- `micGranted` is the outcome of `getUserMedia`.
- `millis` stands for `Date.now()`.

Behaviours of the code the model keeps:

- There is no guard against starting a session while one is active.
- `onclose` and `onerror` only set the state; they tear nothing down (App.tsx:214-221).
- `stopSession` does not close the transport.
- Any non-empty partial text is appended, including whitespace-only text.
- The mute flag is read once, when the capture handler is installed.

## Model

| member | source | states |
|---|---|---|
| `Text.Trim` | App.tsx:190-203 | the trimmed text is empty exactly when the buffer is whitespace only, and otherwise starts and ends with a non-whitespace character |
| `Text.TrimIsSlice` | App.tsx:194 | trimming removes only whitespace: the result is a slice of the buffer with nothing but whitespace before and after it |
| `Text.TrimIgnoresLeadingWhitespace` | App.tsx:184-194 | whitespace in front of a buffer never changes its trimmed form |
| `Transcript.CommitTurn` | App.tsx:188-211 | a buffer is cleared exactly when it yields an item; a whitespace-only buffer is kept unchanged; afterwards neither buffer holds non-whitespace |
| `Transcript.CommitTurnItems` | App.tsx:189-207 | one item per non-blank buffer, none when both are blank, the user's item before the model's, each tagged with its speaker and holding the trimmed, non-empty buffer |
| `Transcript.CommittedTextIsTrimmed` | App.tsx:194-203 | committed text is its own trim |
| `Transcript.KeptWhitespaceIsHarmless` | App.tsx:176-207 | whitespace-only buffers left by one commit, the user's and the model's alike, do not change the items of the next one |
| `Playback.StartAt` | App.tsx:147 | a chunk starts no earlier than the cursor and no earlier than the clock, and at one of the two |
| `Playback.RunBounds` | App.tsx:147-154 | no chunk of a run starts before its clock or the initial cursor, and the cursor ends at or after the end of every chunk |
| `Playback.RunDoesNotOverlap` | App.tsx:147-154 | no chunk of a run starts before an earlier one has ended |
| `Playback.RunIsGapless` | App.tsx:147-154 | a chunk due before the previous chunk's end starts exactly at that end |
| `Playback.EnqueueExtendsRun` | App.tsx:147-154 | one more enqueue appends `StartAt(cursor, now)` to the run's start times and moves the cursor to that chunk's end, the step `ScheduleChunk` performs |
| `Playback.SerialPlayback` | App.tsx:147-154 | over any run of chunks: none starts before its clock or the initial cursor, none overlaps an earlier one, a chunk due before the previous end starts exactly at that end, and the cursor never moves back |
| `Session.SessionCore.constructor` | App.tsx:23-46 | initial state: DISCONNECTED, unmuted, empty transcript and buffers, cursor 0, no sources, no output context |
| `Session.SessionCore.StartSession` | App.tsx:83-243 | CONNECTING with empty transcript and buffers and a new output context; then, with the microphone granted, the cursor at the new clock and the capture handler installed with the current mute flag; refused, ERROR |
| `Session.SessionCore.OnOpen` | App.tsx:133-136 | the state becomes CONNECTED and nothing else changes |
| `Session.SessionCore.OnClose` | App.tsx:214-217 | the state becomes DISCONNECTED and nothing else changes |
| `Session.SessionCore.OnError` | App.tsx:218-221 | the state becomes ERROR and nothing else changes |
| `Session.SessionCore.ToggleMute` | App.tsx:245-247 | the UI flag flips; the gate captured by the running capture handler is left as it was |
| `Session.SessionCore.OnAudioProcess` | App.tsx:226-236 | a frame is sent exactly when the capture handler is installed and was installed unmuted |
| `Session.SessionCore.ScheduleChunk` | App.tsx:147-157 | the chunk starts at `max(cursor, now)`, the cursor moves to its end, the new source joins the active set, and the playing sources still do not overlap |
| `Session.SessionCore.OnSourceEnded` | App.tsx:157 | the ended source, and only it, leaves the active set |
| `Session.SessionCore.StopActiveSources` | App.tsx:60-63 | every active source has been stopped and the active set is empty |
| `Session.SessionCore.Interrupt` | App.tsx:164-172 | every active source is stopped, the set is emptied, and the cursor is the clock, or 0 without an output context |
| `Session.SessionCore.AppendModelText` | App.tsx:176-179 | partial model text is appended to the model buffer, and the user buffer is untouched |
| `Session.SessionCore.AppendUserText` | App.tsx:182-185 | partial user text is appended to the user buffer, and the model buffer is untouched |
| `Session.SessionCore.OnTurnComplete` | App.tsx:188-211 | the transcript becomes the old transcript followed by the commit's items, and the buffers become what the commit leaves |
| `Session.SessionCore.HandlePlayback` | App.tsx:139-172 | a decode failure or a missing output context or node leaves cursor and sources as they were; with an interruption, a chunk from the same message is scheduled and then stopped |
| `Session.SessionCore.HandleTranscription` | App.tsx:174-212 | model text, then user text, then the commit on the buffers as they now are |
| `Session.SessionCore.HandleMessage` | App.tsx:137-213 | one message handled in the fixed order audio, interruption, model text, user text, turn-complete |
| `Session.SessionCore.StopSession` | App.tsx:49-81 | capture is disconnected, every active source is stopped, the set is empty, and the state is DISCONNECTED |
| `Session.SessionCore.StopSessionTwice` | App.tsx:49-81 | stopping twice leaves the same state as stopping once |

## Left out

- Audio graph and transport setup (App.tsx:91-131): creating the AudioContexts, analysers and ScriptProcessor, and the `live.connect` configuration. These are browser and SDK calls. Only the facts the core reads are kept: an output context exists, an output node exists, and the capture handler is installed.
- `base64ToUint8Array`, `createPcmBlob` and `decodeAudioData` come from `utils/audio`, which is not part of this model. Decoding is a `Decoding` parameter, and frames are sent as opaque sample sequences. No PCM quantisation or round-trip property is claimed.
- Async interleaving: `onmessage` awaits decoding, and sends are chained on the connect promise. Every handler is modelled as running to completion, one after another.
- Closing the audio contexts in `stopSession` (App.tsx:66-71) and the analyser setters are not tracked. A message that arrives after a stop still sees the old output context and node, as the refs are never cleared.
- Session.SessionCore.StartSession: the only startup failure modelled is a refused microphone. A throw from the AudioContext or SDK constructors, and a rejected connect promise, are not modelled.
- Session.SessionCore.HandlePlayback: a throw between `createBufferSource` and `source.start` (App.tsx:149-153) is not modelled. That includes connecting a new source to an output node left over from an older context. A decoded chunk is always scheduled.
- Playback.SerialPlayback: times and durations are exact non-negative reals. The code computes `Math.max` and `+=` on IEEE doubles (App.tsx:147, 154), so "no overlap" and "starts exactly at the previous end" are proved for exact sums, not for rounded ones.
- Session.SessionCore.HandleMessage: one clock reading `now` stands for both reads of `currentTime` (App.tsx:147 and 171).
- A second `startSession` without a `stopSession` leaves the first session's processor and callbacks running. Only the latest capture handler is modelled.
- Item ids and timestamps: one `millis` value stands for both `Date.now()` calls and for `new Date()`. Ids are therefore not unique across commits made in the same millisecond, as in the code.
- Rendering, scrolling, `components/Visualizer.tsx`, `constants.ts`, `Scenario` and `TutorPersona` carry no session behaviour. The scenario's system instruction only reaches the connect configuration.
