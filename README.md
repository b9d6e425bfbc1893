# Voice conversation client with speaker recognition — Dafny model

This project models the client-side core of a voice assistant page. The user
talks to a remote conversational agent over one WebSocket, and a second
WebSocket streams the same microphone audio to a speaker-recognition service.
When the recognised speaker changes, the client sends a contextual update
naming both speakers back to the agent. The model covers four small state
machines:

- `Player` (`audio_player.dfy`): the `AudioPlayer` class. It holds a FIFO
  queue of decoded PCM buffers, an `isPlaying` flag and a state-change
  callback, and chains playback on each buffer source's `ended` event. The
  model also covers the little-endian int16 decoding loop (`Pcm`, `pcm.dfy`).
- `Recognition` (`speaker_recognition.dfy`): the speaker-recognition
  client. It is a connection state machine over one socket, sends binary
  audio frames and delivers parsed recognition results.
- `Conversation` (`agent_conversation.dfy`): the orchestrator. It covers
  the agent socket's lifecycle and the dispatch of inbound agent events
  (audio, tool calls that change the displayed asset or navigate). It also
  covers forwarding microphone chunks to both sockets and the speaker-change
  step. A `Conversation` owns one `AudioPlayer` and one
  `SpeakerRecognition` and calls their operations.
- `AudioQueue` (`audio_queue.dfy`): a second, URL-based playback queue. Its
  head stays queued while it plays and is removed when it ends or fails.

`Common` (`common.dfy`) holds `Option` and WebSocket `readyState`.

## How the model is built

- Each stateful unit of the source is a class, with its fields updated in
  place. Each event the browser delivers is a method of that class: a
  socket's open, message, close and error events, a buffer source's `ended`
  event, and an audio element's `ended`/`error` events and `play()`
  rejection. A method's `requires` names the state in which the browser can
  deliver that event; for example, a message arrives only on an open socket.
- Effects on the outside world are appended to an `effects` log:
  - opening a socket, sending a frame, calling `close(code, reason)`;
  - starting and stopping microphone streaming;
  - navigation and `window.open`.

  Each object keeps its own log. The player records the buffers it starts
  (`started`), what it passes to its state-change callback (`reported`),
  and how many buffer sources are still sounding (`live`). The recognition
  client records every result it hands to its callback (`delivered`).
- Base64 decoding (`atob`) is the parameter `Decoder` (`string ->
  Option<string>`), where `None` means atob throws. The bytes of the
  decoded binary string are its character codes modulo 2^8 (`CharCodes`).
- `JSON.parse` is not modelled. Recognition frames arrive as
  `Unparsable | Parsed(result)` and agent frames arrive as an `AgentEvent`
  datatype.
- A sample scaled by `/ 32768.0` is a 16-bit integer times 2^-15. A 32-bit
  float holds that value exactly, so the model keeps it as a `real`
  (`Pcm.Normalized`).
- Each handler runs as one atomic step, in arrival order. This matches the
  single-threaded event loop; `async`/`await` inside a handler is not split
  into separate steps.

## Behaviour worth knowing (the code, as modelled)

- The player does no timestamp scheduling. Each buffer starts when the
  previous source fires `ended` (`PlaysInArrivalOrder`).
- `playNext` reports `true` at the start of every buffer, so consecutive
  `true` reports occur (`PlaysInArrivalOrder`).
- `clearQueue` reports `false` only when the player was playing; a second
  clear reports nothing (`ClearTwiceReportsOnce`).
- `clearQueue` does not stop the source already sounding. A chunk added
  right after a clear plays on top of it. When the old source ends, the
  player goes idle and reports `false` a second time, although the new
  source is still sounding (`ClearLeavesSourceSounding`).
- Malformed base64 is rejected per chunk: the player's queue is untouched
  and the recognition socket sends nothing.
- The recognition client ignores `startRecognition` from the moment a socket
  exists until its close event, including after `stopRecognition`
  (`RestartWaitsForClose`).
- In the URL queue, a `play()` rejection other than `AbortError` leaves the
  source at the head, and the next effect run tries the same source again
  (`RefusedPlayRetriesHead`).

## Model

| member | source | states |
|---|---|---|
| `Pcm.CharCodes` | src/lib/audio-player.ts:66 | the bytes of a decoded binary string: one per character, each the character code reduced to a Uint8 (modulo 256); on a binary string, as atob returns, the recognition client's loop at src/hooks/use-speaker-recognition.ts:17-21 computes the same bytes (`BinaryStringToBytes`) |
| `Pcm.CharCodesOfBinaryString` | src/hooks/use-speaker-recognition.ts:15-22 | on a binary string (every code below 256), the bytes have the string's length and byte i is char code i |
| `Pcm.CharCodesRoundTrip` | src/lib/audio-player.ts:66 | bytes turned into a binary string and back are unchanged |
| `Pcm.FromCharCodesRoundTrip` | src/lib/audio-player.ts:66 | a binary string turned into bytes and back is unchanged |
| `Pcm.Int16LE` | src/lib/audio-player.ts:76 | `getInt16(offset, true)`: the value is negative exactly when the high byte's top bit is set, and agrees with the unsigned reading lo + 256·hi modulo 2^16 |
| `Pcm.Int16RoundTrip` | src/lib/audio-player.ts:76 | reading the two little-endian two's-complement bytes of a sample gives the sample back |
| `Pcm.Int16BytesRoundTrip` | src/lib/audio-player.ts:76 | every byte pair is the encoding of the int16 value `getInt16(offset, true)` reads from it |
| `Pcm.Samples` | src/lib/audio-player.ts:70-77 | the recursive decoding yields floor(length/2) samples, and sample i is the little-endian int16 of bytes 2i and 2i+1 |
| `Pcm.DecodeEncode` | src/lib/audio-player.ts:70-77 | decoding the PCM encoding of any int16 sequence gives that sequence back |
| `Pcm.EncodeDecode` | src/lib/audio-player.ts:70-77 | re-encoding the samples of an even-length byte sequence gives those bytes back |
| `Pcm.TrailingByteIgnored` | src/lib/audio-player.ts:70-73 | a trailing odd byte changes no sample and adds none |
| `Pcm.Normalized` | src/lib/audio-player.ts:76 | a scaled sample lies in [-1, 1) and times 32768 gives the int16 value back |
| `Pcm.NormalizedMonotonic` | src/lib/audio-player.ts:76 | scaling preserves the order of samples in both directions |
| `Player.AudioPlayer.constructor` | src/lib/audio-player.ts:5-14 | a new player is idle, with an empty queue, nothing started and nothing reported |
| `Player.BufferFor` | src/lib/audio-player.ts:64-89 | whether the conversion yields a buffer: exactly when atob succeeds and the decoded string has at least two bytes, since a zero-length `createBuffer` throws |
| `Player.AudioPlayer.ConvertPcmToAudioBuffer` | src/lib/audio-player.ts:64-89 | the loop fills floor(length/2) samples, sample i being getInt16(2i, little-endian)/32768 of the decoded bytes, at 16000 Hz; equal to the specification BufferOf; fewer than two bytes give no buffer, since a zero-length buffer makes createBuffer throw |
| `Player.AudioPlayer.PlayNext` | src/lib/audio-player.ts:27-50 | on an empty queue: idle and report false; otherwise report true, start exactly the head and keep the rest in order; the started-then-queued order never changes |
| `Player.AudioPlayer.AddAudioChunk` | src/lib/audio-player.ts:16-25 | the decoded buffer goes to the tail behind every earlier buffer; when idle it is started at once (report true), when playing nothing starts; an undecodable chunk, or one of fewer than two bytes, changes nothing |
| `Player.AudioPlayer.OnSourceEnded` | src/lib/audio-player.ts:44-47 | a source's end starts the next queued buffer or, with none left, goes idle and reports false |
| `Player.AudioPlayer.ClearQueue` | src/lib/audio-player.ts:53-61 | queue empty and idle afterwards; false is reported only if the player was playing; sounding sources are not stopped |
| `Player.PlaysInArrivalOrder` | src/lib/audio-player.ts:34-47 | three chunks start in arrival order through the ended chain, with true reported three times in a row and then false |
| `Player.ClearLeavesSourceSounding` | src/lib/audio-player.ts:53-61 | clear then add leaves two sources sounding; the old source's end makes the player report idle while the new one still sounds |
| `Player.ClearTwiceReportsOnce` | src/lib/audio-player.ts:57-60 | a second clear reports nothing |
| `Player.ShortChunkRejected` | src/lib/audio-player.ts:16-19 | a chunk of fewer than two bytes throws in createBuffer before the push: nothing is queued, started or reported |
| `Recognition.BinaryStringToBytes` | src/hooks/use-speaker-recognition.ts:15-22 | the loop yields one byte per character, byte i being char code i modulo 256 (exactly the code on a binary string) |
| `Recognition.SpeakerRecognition.constructor` | src/hooks/use-speaker-recognition.ts:30-31 | no socket, not connected, nothing sent or delivered |
| `Recognition.SpeakerRecognition.StartRecognition` | src/hooks/use-speaker-recognition.ts:36-69 | a no-op while any socket reference exists; otherwise one new connecting socket to the fixed endpoint |
| `Recognition.SpeakerRecognition.OnOpen` | src/hooks/use-speaker-recognition.ts:44-47 | the open event sets connected |
| `Recognition.SpeakerRecognition.OnMessage` | src/hooks/use-speaker-recognition.ts:49-56 | a parsed result is delivered once, after all earlier ones; an unparsable frame is dropped without delivery and the socket stays as it is |
| `Recognition.SpeakerRecognition.OnClose` | src/hooks/use-speaker-recognition.ts:58-62 | the close event, whatever its cause, clears connected and the reference |
| `Recognition.SpeakerRecognition.OnError` | src/hooks/use-speaker-recognition.ts:64-66 | the error event changes no field |
| `Recognition.SpeakerRecognition.StopRecognition` | src/hooks/use-speaker-recognition.ts:74-76 | with a socket: close(1000, reason) and the socket moves to closing while the reference stays; without one: nothing |
| `Recognition.SpeakerRecognition.SendAudioChunk` | src/hooks/use-speaker-recognition.ts:82-87 | exactly one binary frame of the decoded bytes when the socket is open and the chunk decodes; otherwise nothing |
| `Recognition.RestartWaitsForClose` | src/hooks/use-speaker-recognition.ts:36-76 | after stop, a start is ignored until the close event; after it, a second socket opens |
| `AudioQueue.Enqueued` | src/hooks/use-audio-queue.ts:11-15 | a non-empty source is appended behind the unchanged queue; an empty one is ignored |
| `AudioQueue.Advanced` | src/hooks/use-audio-queue.ts:47 | `slice(1)` drops exactly the head and keeps the rest in order; empty stays empty |
| `AudioQueue.AdvanceEnqueueCommute` | src/hooks/use-audio-queue.ts:11-57 | on a non-empty queue, appending then advancing equals advancing then appending |
| `AudioQueue.AdvancedTimesDrops` | src/hooks/use-audio-queue.ts:44-57 | n advances remove exactly the first n sources |
| `AudioQueue.AudioQueue.constructor` | src/hooks/use-audio-queue.ts:4-9 | empty queue, not playing, no element |
| `AudioQueue.AudioQueue.QueueLength` | src/hooks/use-audio-queue.ts:86 | the `queueLength` the hook returns; the AddToQueue, OnEnded, OnError and ClearQueue contracts state how it changes |
| `AudioQueue.AudioQueue.AddToQueue` | src/hooks/use-audio-queue.ts:11-15 | the queue becomes Enqueued of the old one, so the reported queueLength (line 86) grows by one exactly for a non-empty source; playback state untouched |
| `AudioQueue.AudioQueue.ClearQueue` | src/hooks/use-audio-queue.ts:17-28 | empty queue, not playing, no element, from any state (so a second call changes nothing) |
| `AudioQueue.AudioQueue.Tick` | src/hooks/use-audio-queue.ts:32-70 | only when idle with a non-empty queue: play queue[0], set playing, keep the head queued; the playing element can always still end |
| `AudioQueue.AudioQueue.RunEffectAsWritten` | src/hooks/use-audio-queue.ts:32-83 | each re-run first pauses the current element, then behaves as Tick |
| `AudioQueue.AudioQueue.OnEnded` | src/hooks/use-audio-queue.ts:44-49 | not playing, element dropped, exactly the head removed, so queueLength drops by one |
| `AudioQueue.AudioQueue.OnError` | src/hooks/use-audio-queue.ts:51-57 | the same transition as OnEnded |
| `AudioQueue.AudioQueue.OnPlayRejected` | src/hooks/use-audio-queue.ts:59-69 | AbortError changes nothing; any other rejection stops playing and keeps the head queued |
| `AudioQueue.PlaysInOrder` | src/hooks/use-audio-queue.ts:34-57 | two sources play in order and the queue empties |
| `AudioQueue.RefusedPlayRetriesHead` | src/hooks/use-audio-queue.ts:59-69 | a refused play() makes the same source play again |
| `AudioQueue.CleanupStallsQueue` | src/hooks/use-audio-queue.ts:74-79 | as written, the element is paused right after it starts; the queue stays playing with no element that can end, and the second source does not start unless the paused element fires an error or the queue is cleared |
| `AudioQueue.StalledQueueMovesOnError` | src/hooks/use-audio-queue.ts:51-57 | an error on the paused element drops the head and lets the next effect run start the second source |
| `Conversation.SendMessage` | src/hooks/use-agent-conversation.ts:19-24 | a message is sent iff the socket is open, and then it is that one message |
| `Conversation.SpeakerChanged` | src/hooks/use-agent-conversation.ts:78 | the change test: the previous speaker is present, non-empty (truthy) and different from the new one |
| `Conversation.ContextMessage` | src/hooks/use-agent-conversation.ts:84 | the update text: the fixed prefix, the new speaker, the middle phrase, the previous speaker and the fixed suffix |
| `Conversation.ContextMessageNamesBoth` | src/hooks/use-agent-conversation.ts:84 | the update contains the new speaker and then the previous one at fixed offsets |
| `Conversation.ContextMessageInjective` | src/hooks/use-agent-conversation.ts:84 | pairs whose new speakers have equal length give equal updates only if the pairs are equal |
| `Conversation.ContextMessageAmbiguous` | src/hooks/use-agent-conversation.ts:84 | without that condition two different pairs can give the same update: a new speaker containing the middle phrase collides with a shorter one |
| `Conversation.RepeatedSpeakerIsSilent` | src/hooks/use-agent-conversation.ts:68-96 | a run of results naming the current speaker announces nothing |
| `Conversation.OneChangeOneAnnouncement` | src/hooks/use-agent-conversation.ts:68-96 | from no speaker, a run of a then b announces exactly one change, (b, a) |
| `Conversation.AnnouncementsAppend` | src/hooks/use-agent-conversation.ts:68-96 | one more result adds at most one announcement: the new speaker with the last one, when the change test holds |
| `Conversation.Conversation.constructor` | src/hooks/use-agent-conversation.ts:34-47 | not connected, no socket, no speakers, asset {image, null}, an idle player that has reported nothing, and a recognition client with no socket, not connected |
| `Conversation.Conversation.OnRecognitionResult` | src/hooks/use-agent-conversation.ts:63-98 | previous := old current, current := inferred speaker; one contextual update naming both is sent iff previous is non-empty, differs and the agent socket is open |
| `Conversation.Conversation.OnRecognitionResults` | src/hooks/use-agent-conversation.ts:63-98 | a run of results handled while the agent socket is open sends one update per pair of the Announcements fold, in order, and leaves the last speaker current and the one before it previous |
| `Conversation.Conversation.OnRecognitionMessage` | src/hooks/use-speaker-recognition.ts:49-56 | a parsed frame is delivered and runs the speaker step; an unparsable one changes neither the speakers nor the sends |
| `Conversation.Conversation.OnAudioChunked` | src/hooks/use-agent-conversation.ts:102-109 | the chunk reaches the agent socket only if open, and is always handed to the recognition client, which sends its bytes only on an open socket |
| `Conversation.Conversation.StartConversation` | src/hooks/use-agent-conversation.ts:113-194 | a no-op while connected or while a socket exists; otherwise recognition is started and one agent socket starts connecting |
| `Conversation.Conversation.StartConversationAsWritten` | src/hooks/use-agent-conversation.ts:113-194 | a no-op only when connected; otherwise a new connecting socket replaces the reference |
| `Conversation.Conversation.OnAgentOpen` | src/hooks/use-agent-conversation.ts:122-127 | connected, then the initiation message once, then streaming starts |
| `Conversation.Conversation.QueuesAudio` | src/hooks/use-agent-conversation.ts:160-163 | the audio guard (a non-empty payload) together with the player's acceptance: exactly the audio events whose chunk ends up in the player's queue |
| `Conversation.Conversation.OnAgentMessage` | src/hooks/use-agent-conversation.ts:129-165 | non-empty audio that decodes to at least two bytes is queued behind earlier audio, started at once with a true report when the player was idle and only queued when it was playing; other audio leaves the player unchanged; image/video tools set the asset to {kind, url}; the robots tool navigates then opens the site; every other event or tool leaves asset and effects unchanged |
| `Conversation.Conversation.OnAgentClose` | src/hooks/use-agent-conversation.ts:167-178 | reference cleared, not connected, streaming stopped, queue cleared and idle with false reported only if it was playing, sounding sources untouched, recognition asked to close without losing its connected flag or deliveries, asset reset |
| `Conversation.Conversation.OnAgentClosing` | src/hooks/use-agent-conversation.ts:167-178 | a close started by the agent server moves the socket to closing and changes nothing else; only the later close event runs this handler |
| `Conversation.Conversation.OnAgentError` | src/hooks/use-agent-conversation.ts:180-182 | the error event changes no field |
| `Conversation.Conversation.StopConversation` | src/hooks/use-agent-conversation.ts:196-204 | recognition asked to close (its connected flag and deliveries unchanged), asset reset, the agent socket closed with 1000 if present; safe with none |
| `Conversation.DoubleStartAsWritten` | src/hooks/use-agent-conversation.ts:114 | as written, two starts before the socket opens open two sockets |
| `Conversation.DoubleStartOpensOnce` | src/hooks/use-agent-conversation.ts:114 | with the corrected guard, a second start opens nothing while connecting, open or closing |
| `Conversation.StopTearsDown` | src/hooks/use-agent-conversation.ts:167-204 | stop from an active session followed by the close event leaves everything idle and reset, with nothing reported by a player that never played |
| `Conversation.StopWhileSpeaking` | src/hooks/use-agent-conversation.ts:167-178 | ending the session while agent audio plays reports true then false, but the started source keeps sounding |
| `Conversation.SpeakerChangeAnnouncedOnce` | src/hooks/use-agent-conversation.ts:68-96 | results a, a, b (with an unparsable frame between) send exactly one update naming b and a |
| `Conversation.ChangeBeforeAgentOpensIsDropped` | src/hooks/use-agent-conversation.ts:86-96 | with recognition open and the agent socket still connecting, a change updates the speakers but sends nothing |
| `Conversation.ChangeWhileAgentClosingIsDropped` | src/hooks/use-agent-conversation.ts:86-96 | after the agent server starts closing, a change delivered by the still-open recognition socket updates the speakers but sends nothing |

## Findings

| source | as written | input that shows it | evidently intended | confidence | as-written member | corrected member |
|---|---|---|---|---|---|---|
| src/hooks/use-agent-conversation.ts:114 | the guard tests only `isConversationConnected`, which the open event sets; the start button is enabled until then (src/components/conversation.tsx:52) | two start calls before the agent socket opens | start is a no-op while a session's socket exists | medium (not executed) | `Conversation.DoubleStartAsWritten` | `Conversation.DoubleStartOpensOnce` |
| src/hooks/use-audio-queue.ts:74-79 | the effect's cleanup pauses `audioRef.current`, and React runs it before every re-run caused by a change of `queue` or `isPlaying` | add one source to an idle queue: the effect starts it, sets playing, the re-run's cleanup pauses it | cleanup only on unmount, so the element plays to its end | high (not executed) | `AudioQueue.CleanupStallsQueue` | `AudioQueue.PlaysInOrder` |

The corrected behaviour is what the rest of the model uses:
`StartConversation` for the first row and `Tick` for the second.
`StartConversationAsWritten` and `RunEffectAsWritten` model the code as
written.

## Left out

- Web Audio API (`AudioContext`, `createBufferSource`, `createBuffer`, `copyToChannel`, `start`): foreign calls. Starting a buffer is a log entry and its end is an event.
- The `sampleRate` parameter of the PCM conversion: the only caller passes none, so the model uses the default 16000.
- The WebSocket transport: sockets are reduced to their `readyState` and a log of effects. A close event is taken to follow every socket, including one that never opened.
- `atob` and `JSON.parse`: foreign. They are the `Decoder` parameter and the parsed datatypes. An agent frame that fails to parse throws before any effect, which is the same as an ignored event. A tool call whose `parameters` is null would throw; it is not modelled, and the parameters are reduced to their `url`.
- The `Decoder` parameter is not constrained to return binary strings, although atob always does. On a string with a code above 255, `Uint8Array.from` (which iterates code points) and the `charCodeAt` loop can disagree; the model follows the loop, one byte per character.
- No check is made that a parsed recognition frame has the result's shape; every parsed frame is a `SpeakerRecognitionResult`.
- Microphone capture, `navigate` and `window.open`: recorded only as effects.
- React: state batching, effect scheduling (except in the second finding), and closure capture are not modelled. The speaker step reads a stale `currentSpeaker` from the render closure; the model uses the value stored by the previous step instead.
- Unmount clean-ups: the recognition socket closed without a code (src/hooks/use-speaker-recognition.ts:93-97), stopConversation on unmount and the player hook's clearQueue are lifecycle glue.
- The `useAudioPlayer` wrapper (src/hooks/use-audio-player.ts): it only forwards to `AudioPlayer` and mirrors `isPlaying`. The orchestrator calls the player directly.
- Conversation.Conversation.OnAgentClose: the order of its steps across collaborators is not stated. Stop streaming, clear the queue, stop recognition and reset the asset each land in a different object's log.
- Conversation.Conversation.StartConversation: that recognition starts before the agent socket is created is not stated. The two calls land in different objects' logs.
- Conversation.Conversation.StartConversationAsWritten: the first socket is forgotten rather than kept. Its still-attached handlers are not modelled.
- AudioQueue.AudioQueue.OnPlayRejected: only covers a rejection on the attached element. A rejection arriving for an element already detached by clearQueue is not modelled.
- Logging (`console.*`) and the interruption event, which is only logged.
