# Duplex translation session: a verified model

This project models the core of `backend/main.py`, the FastAPI backend of a
duplex speech translation service. It covers two pieces.

- **The translation-pipeline cache** (`PipelineManager`). It is a process-wide
  dictionary from a Hugging Face model name, `Helsinki-NLP/opus-mt-<source>-<target>`,
  to a loaded translator. It is filled on the first request for a language
  pair and never evicted. A failed load returns nothing and records nothing.
- **One session of the `/ws/translate_stream` endpoint** (`websocket_endpoint`).
  - The first message must be a JSON `start` event that names both languages.
  - Each turn collects binary PCM chunks until an `end_of_speech` event.
  - The turn then sends exactly one message: `no_speech_detected`,
    `final_translation` or `error`.
  - After every turn the source and target languages are exchanged.

The models stand in as oracles carried by `SessionSpec.Env`:

- Whisper transcription takes the raw audio, the sampling rate and the language hint.
- The translator loader answers per turn, so a failed load can later succeed.
- Running a loaded translator.

The WebSocket is replaced by a sequence of inbound messages, `Protocol.Inbound`.
The frames the endpoint sends are recorded, in order, in an outbox.

Modules, in dependency order:

- `Optional`: the `Option` type.
- `Text`: Python's `str.strip()` with no argument, over the characters for
  which `str.isspace()` holds.
- `Pipelines`: the cache. `Acquire` is one request stated on values.
  `PipelineManager.GetTranslationPipeline` is the imperative method, proved to
  compute `Acquire`.
- `Protocol`: inbound and outbound messages and the protocol constants
  (close code 1003, the close reasons, the error text, 16 kHz).
- `SessionSpec`: the session as a state machine on values. `Step` handles one
  inbound message and `Run` a whole stream. The lemmas here state what the
  endpoint guarantees.
- `Endpoint`: the `Session` class. Its fields are the endpoint's loop
  variables (the phase, the two languages and the audio buffer), the outbox
  of sent frames, and a turn counter that the source does not keep. Its
  methods follow the source's nested loops: `Serve` runs the outer
  `while True`, one `ServeTurn` per turn, and `ReceiveTurn` runs the inner
  receive loop. `Configure`, `Receive`, `ProcessTurn` and `SwapRoles` are
  proved to compute `SessionSpec.Configure`, `SessionSpec.Absorb`,
  `SessionSpec.ProcessTurn` and `SessionSpec.EndTurn` on the whole state.
  `FinishTurn` computes `SessionSpec.CompleteTurn` up to the buffer, which
  the next turn resets. `ReceiveTurn` states its effect field by field.
  `ServeTurn` and `CloseTurn` leave the state `SessionSpec.Run` gives for the
  messages read so far, up to that same buffer reset. `Serve` is proved to
  compute `SessionSpec.Run` on the whole stream.

What the code does, in the places where a reader might expect otherwise:

- **No RMS or duration check.** A turn is skipped only when its buffer is
  empty (line 97).
- **Roles swap after every turn.** This includes a skipped turn (line 125).
- **Only a JSON object gets close code 1003.** Every other first message ends
  the session without the endpoint sending a close frame. A binary or non-JSON message makes
  `receive_json` raise (line 60), and a JSON value that is not an object makes
  `.get` raise (line 62); the generic handler catches both (lines 130-131). A
  disconnect makes `receive_json` raise `WebSocketDisconnect`, which its own
  handler catches (lines 128-129).
- **A JSON value other than an object ends the session mid-turn.** During
  reception, `.get` on such a value raises `AttributeError`, which the
  `JSONDecodeError` handler does not catch (lines 88-94).
- **A disconnect mid-turn ends the session.** The disconnect message has
  neither `bytes` nor `text`. The next `receive()` then raises (lines 79-94).
- **A buffer of odd length ends the session.** `np.frombuffer(..., dtype=np.int16)`
  raises on a partial sample. No message is sent and the roles are not
  exchanged (line 102).

## Model

| member | source | states |
|---|---|---|
| Text.IsSpace | backend/main.py:106 | defines the characters `str.isspace()` accepts, which `strip()` removes; `Text.Strip` and `Text.StripEmptyIffBlank` state what stripping them means |
| Text.TrimStart | backend/main.py:106 | the result is a suffix of the input, everything removed is whitespace, and the result does not start with whitespace |
| Text.TrimEnd | backend/main.py:106 | the result is a prefix of the input, everything removed is whitespace, and the result does not end with whitespace |
| Text.Strip | backend/main.py:106 | `strip()` returns the slice of the input that whitespace frames on both sides, and that slice neither starts nor ends with whitespace |
| Text.StripEmptyIffBlank | backend/main.py:106-110 | the stripped transcript is empty exactly when the raw transcript is whitespace only, so `if not original_text` means "blank" |
| Text.StripIdempotent | backend/main.py:106 | stripping an already stripped transcript changes nothing |
| Pipelines.PipelineName | backend/main.py:31 | defines the cache key and model name `Helsinki-NLP/opus-mt-<source>-<target>`; `Pipelines.PipelineNameInjective` and `Pipelines.PipelineNameCollides` state when it separates pairs |
| Pipelines.TaskName | backend/main.py:39 | defines the task string `translation_<source>_to_<target>` handed to the loader; `Pipelines.Acquire` states that a miss consults the loader with it |
| Pipelines.Acquire | backend/main.py:30-45 | the keys only grow, and by at most the requested name. No entry is removed or replaced. A translator is returned exactly when the name is now cached, and it is the cached one. A hit returns the stored translator. A miss returns the loader's translator for the task and model names when the load succeeds, and nothing when it fails |
| Pipelines.HitIgnoresLoader | backend/main.py:32-45 | on a hit the result does not depend on the loader, and the cache is unchanged |
| Pipelines.LoadsOnce | backend/main.py:32-45 | after a successful request, repeating it returns the same translator and changes nothing, whatever the loader would now do |
| Pipelines.RetriesAfterFailure | backend/main.py:37-44 | a failed load leaves the cache unchanged, so the next request for the pair consults the loader again and returns what it yields |
| Pipelines.PipelineNameInjective | backend/main.py:31 | two pairs with the same cache key are the same pair, provided the source codes contain no '-' |
| Pipelines.PipelineNameCollides | backend/main.py:31 | without that proviso two distinct pairs share one key |
| Pipelines.PipelineManager.constructor | backend/main.py:27-28 | the cache starts empty |
| Pipelines.PipelineManager.GetTranslationPipeline | backend/main.py:30-45 | the returned translator and the new cache are those of `Acquire` on the old cache. The loader is called exactly on a miss |
| Protocol.Truthy | backend/main.py:65 | defines Python truthiness of a language field: present, not `null`, and not the empty string; `SessionSpec.Configure` states the gate built on it |
| Protocol.IsValidStart | backend/main.py:62-65 | defines the first message that opens the session: a JSON object whose event is "start" and whose two languages are truthy; `SessionSpec.Configure` states that the session opens exactly on it |
| Protocol.KeepsReceiving | backend/main.py:83-94 | defines the messages after which the receive loop goes on: a binary frame, non-JSON text, or a JSON object whose event is not "end_of_speech"; `SessionSpec.Absorb` states that the session keeps receiving exactly on them |
| Protocol.Chunks | backend/main.py:83-86 | defines the audio a sequence of messages carries: its binary frames' bytes concatenated in arrival order; `SessionSpec.ReceiveLoopBuffers` states that the buffer gains exactly it |
| Protocol.IsEndOfSpeech | backend/main.py:88-90 | defines the message that ends a turn's reception: a JSON object whose event is "end_of_speech"; `Endpoint.Session.Receive` and `SessionSpec.TurnProcessesItsChunks` state its effect |
| SessionSpec.Step | backend/main.py:60-125 | defines the effect of one inbound message by phase: the configuration gate, a turn's end, a received message, or nothing once the session has ended; `SessionSpec.TerminatedIsFinal`, `SessionSpec.ReceiveLoopBuffers` and `SessionSpec.RolesAlternate` state its properties |
| SessionSpec.Run | backend/main.py:50-133 | defines the session over a whole stream as one `Step` per message, in order; `Endpoint.Session.Serve` is proved to compute it, and every session lemma below states a property of it |
| SessionSpec.Initial | backend/main.py:52-56 | defines an accepted connection: waiting for its configuration, no languages yet, an empty buffer, nothing sent, and the process's cache; `Endpoint.Session.constructor` is proved to build it and `SessionSpec.RejectedSessionIgnoresRest` and `SessionSpec.RolesAlternate` start from it |
| SessionSpec.Configure | backend/main.py:60-70 | the session opens exactly on a `start` event with both languages non-empty, with those languages as the roles. Otherwise it ends. A JSON object that fails the gate gets close 1003 with "Falta source_lang o target_lang" or "El primer mensaje debe ser 'start'". Any other first message sends nothing. The buffer is unchanged |
| SessionSpec.Absorb | backend/main.py:79-94 | a message other than `end_of_speech` sends nothing and keeps the roles. It keeps the session receiving exactly when it is binary, non-JSON text or a JSON object. The buffer gains exactly its binary chunk, and the buffer is unchanged when the session ends |
| SessionSpec.ProcessTurn | backend/main.py:97-122 | the roles and the buffer are kept. The session ends exactly when the buffer has odd length, and then nothing is sent and the cache is untouched. Otherwise exactly one message is appended, and the cache is the one the turn's translator request leaves when the buffer is non-empty and the transcript non-blank, and the old cache otherwise |
| SessionSpec.EndTurn | backend/main.py:125 | the roles are exchanged and the turn is counted; the phase, the buffer, the sent messages and the cache are kept |
| SessionSpec.CompleteTurn | backend/main.py:96-125 | after a completed turn the roles are exchanged, the buffer is empty for the next turn, and exactly one message was sent. Otherwise the session ended with nothing sent. In both cases the sent messages and the cache are those processing the turn leaves, so `SessionSpec.TurnOutcomes` says which message a completed turn sent |
| SessionSpec.Transcript | backend/main.py:102-106 | defines the turn's text: the turn's audio transcribed at 16 kHz with the current source language as hint, then stripped; `SessionSpec.TurnOutcomes` states that it decides `no_speech_detected` and is the `original_text` sent |
| SessionSpec.Request | backend/main.py:112 | defines the turn's translator request: the current (source, target) pair asked of the shared cache, with the loader as it answers in this turn; `SessionSpec.TurnOutcomes` states that it decides between the error and the translation, and `SessionSpec.ProcessTurn` that the cache after the turn is the one it leaves |
| SessionSpec.TerminatedIsFinal | backend/main.py:128-133 | once the session has ended, no later message changes anything |
| SessionSpec.RejectedSessionIgnoresRest | backend/main.py:60-70 | after a rejected configuration the session has ended: later messages are not read, no audio is buffered, no oracle is consulted (any two oracles give the same outcome), and the only frame ever sent is a 1003 close |
| SessionSpec.RolesAlternate | backend/main.py:73-125 | in an open session every completed turn has sent exactly one message. The roles are the configured pair after an even number of turns and the exchanged pair after an odd number |
| SessionSpec.ReceiveLoopBuffers | backend/main.py:75-94 | while no message ends the turn or the session, the buffer is the old buffer followed by the binary chunks in arrival order, and nothing else changes |
| SessionSpec.TurnProcessesItsChunks | backend/main.py:75-105 | a turn that starts with an empty buffer processes exactly the chunks received before `end_of_speech` |
| SessionSpec.TurnOutcomes | backend/main.py:97-122 | the one message of a processed turn is: `no_speech_detected` exactly when the buffer is empty or the stripped transcript is empty; an error with "Translation model failed to load" exactly when the translator is unavailable; otherwise `final_translation` with the stripped transcript and the output of the translator now cached under the current pair's key |
| SessionSpec.EmptyTurnConsultsNoModel | backend/main.py:97-99 | an empty turn sends `no_speech_detected`, consults no oracle and leaves the cache alone |
| SessionSpec.BlankTranscriptRequestsNoTranslator | backend/main.py:105-110 | a blank transcript sends `no_speech_detected` and consults neither the loader nor the translator, whatever they would do |
| SessionSpec.HistoryOnlyGrows | backend/main.py:26-125 | over any stream, sent messages are never retracted, and cached translators are never dropped or replaced |
| Endpoint.Session.constructor | backend/main.py:52-56 | an accepted connection waits for its configuration with an empty buffer and nothing sent |
| Endpoint.Session.Configure | backend/main.py:60-70 | the configuration read computes `SessionSpec.Configure` |
| Endpoint.Session.Receive | backend/main.py:79-94 | one iteration of the receive loop reports `end_of_speech` exactly when the message is that event, and then changes nothing. Otherwise it computes `SessionSpec.Absorb` |
| Endpoint.Session.ProcessTurn | backend/main.py:97-122 | processing the turn, including the request to the shared cache object, computes `SessionSpec.ProcessTurn` |
| Endpoint.Session.SwapRoles | backend/main.py:125 | the role swap computes `SessionSpec.EndTurn` |
| Endpoint.Session.FinishTurn | backend/main.py:96-125 | processing followed by the swap computes `SessionSpec.CompleteTurn`, up to the buffer reset at the next turn's start |
| Endpoint.Session.ReceiveTurn | backend/main.py:78-94 | the receive loop stops at `end_of_speech`, when the session ends, or when the stream is used up. Every message it kept receiving on was binary, non-JSON or a non-ending JSON object. The buffer gained exactly their chunks, and the roles, the outbox and the turn count are unchanged |
| Endpoint.Session.ServeTurn | backend/main.py:74-125 | one iteration of the turn loop advances the session exactly as `SessionSpec.Run` does over the messages it read |
| Endpoint.Session.CloseTurn | backend/main.py:96-125 | the end of a turn reached by `end_of_speech` leaves the state `SessionSpec.Run` gives for the stream read so far |
| Endpoint.Session.Serve | backend/main.py:50-133 | the whole endpoint, over any stream of inbound messages, ends in the state `SessionSpec.Run` gives for that stream. It reads every message unless the session ended first |

## Left out

- Transport: accepting the WebSocket, JSON-encoding outbound frames and sending the close frame are not modelled. The outbox records the message values.
- `print` logging is not modelled.
- Device selection and loading Whisper at start-up (lines 12-24) are not modelled.
- Concurrency is not modelled. `get_translation_pipeline` is a coroutine and awaits the load in an executor. Two sessions that miss the same key at once can both load it, and the later assignment wins. The model runs one request at a time, so it cannot show this gap, and "at most one load per key" is proved only for requests in sequence (`Pipelines.LoadsOnce`). Sessions that interleave on the shared cache are not modelled either: `Serve` runs one session.
- Audio conversion is not modelled. The model does not convert PCM to floats (`np.frombuffer(...).astype(np.float32) / 32768.0`), because that is floating-point numerics. The transcription oracle receives the raw bytes. Only the conversion's failure on a partial 16-bit sample is modelled.
- Oracle failures are not modelled. The model assumes transcription and running a translator return a value. If either raised, the source's generic handler would end the session. A failed translator load is modelled.
- The language fields are modelled only as absent, null or a string. A JSON number, list or object there is not modelled.
- A stream that ends without a disconnect is a modelling device. `Serve` stops when the message sequence runs out, where the real endpoint would keep waiting.
- Pipelines.PipelineNameInjective: holds only when the source codes contain no '-'. The key `opus-mt-<source>-<target>` does not separate the two codes. `Pipelines.PipelineNameCollides` shows two distinct pairs that share one cache entry.
- The RMS, duration and byte-count heuristics, voice-activity detection, diarization, speech synthesis and the language-code mapper are not part of this model. `backend/main.py` has no code for them.
- The turn counter `turns` of `SessionSpec.State` and `Endpoint.Session` is not in the source. It selects the loader's answer for each turn (`SessionSpec.Env.load`), so that a failed load can succeed later, and it states the role parity in `SessionSpec.RolesAlternate`.
