# pipecheetah voice bot: serializer, recording dump and client streamer in Dafny

This project models the two pieces of the pipecheetah voice bot that carry logic of their own.
The rest of the bot composes an external pipeline framework with speech-to-text, language-model
and text-to-speech services.

- **The server's raw-PCM frame serializer** (`RawPCMSerializer` in `bot.py`). It is a two-field
  state machine over the negotiated input sample rate and channel count, which start at 16000 and 1.
  - A binary WebSocket payload becomes an input-audio frame tagged with the current parameters.
  - A JSON `{"type": "start", ...}` text payload replaces the parameters and yields a start frame.
    A key that is absent keeps its old value.
  - Malformed JSON, a JSON object of another type, and a payload of any other kind yield nothing
    and change nothing.
  - Outgoing audio frames are sent as their raw bytes. Every other frame is dropped.
  - `setup` adopts the pipeline's input sample rate when it is truthy, using Python `or`.
  - Module `PcmSerializer` (`serializer.dfy`) has the pure transition function `Transition`, its
    fold `Run` over a sequence of payloads, the lemmas about traces, and the class
    `RawPcmSerializer`. The class's methods update the two fields exactly as `Transition` and
    `AfterSetup` say.
- **The post-session WAV dump** (`save_audio` and `on_audio_data` in `bot.py`), in module
  `Recording` (`recording.dfy`).
  - Nothing is written for an empty buffer.
  - Otherwise the container has sample width 2, the caller's channel count and rate, and the audio
    as its data.
  - The file is named `server_<port>_recording_<YYYYMMDD_HHMMSS>.wav`.
  - Each name format has a parser, proved to recover the port and the clock reading.
- **The test client's duplex streamer** (`audio_stream` in `client/python/test_client.py`), in
  module `StreamClient` (`client.dfy`). The class `AudioStream` holds:
  - the outbound queue (capacity 100, a chunk is dropped silently when the queue is full);
  - the log of chunks sent;
  - the log of buffers played;
  - the count of printed device-overflow warnings;
  - a ghost log of accepted chunks.

  Its invariant `Valid()` says that the queue never holds more than 100 chunks. It also says that
  the sent log followed by the queue is exactly the accepted log. That gives FIFO order, with each
  accepted chunk sent exactly once. The receive loop is specified by the function `Receive` and
  related to a plain filter, `PlayableFrames`.

JSON decoding is taken as already done. A text payload arrives as `Malformed` (the
`JSONDecodeError` case) or as the decoded `Json` value. The serializer's fields hold whatever
Python value the decoding produced, because the source stores the result of `obj.get` unchecked
(`{"type": "start", "audio_in_sample_rate": null}` sets the rate to `None`). The clock reading
for the file name is a parameter.

Behaviour of the code that the model keeps, edge cases included:
- Every start message is applied, not only the first, so `TaggedSinceLastStart` speaks of the
  most recent one (bot.py:108-114).
- Only `JSONDecodeError` is caught. JSON that decodes to something other than a dict makes
  `obj.get` raise `AttributeError`, and the state is left untouched (bot.py:107-108, 115).
  `Transition` returns `RaisedAttributeError` for this case.
- `save_audio` writes the channel count it is given, which need not be 1 (bot.py:50).
- `np.frombuffer(..., dtype=np.int16)` raises `ValueError` on a received buffer of odd length,
  and nothing catches it (client/python/test_client.py:46-47, 51-54). The receive loop then
  ends with `BadSampleBuffer`, and `StopsAtFirstEnd` states it.
- The `type` property of the serializer is modelled as `RawPcmSerializer.Type`, a constant
  `BinaryFrames` without a contract (bot.py:75-78).

## Model

| member | source | states |
|---|---|---|
| `PcmSerializer.RawPcmSerializer.constructor` | bot.py:70-72 | the serializer starts with the given rate and channels, 16000 and 1 by default |
| `PcmSerializer.NewSerializerDefaults` | bot.py:70-72 | a serializer built with no arguments, as the transport's is, has rate 16000 and one channel |
| `PcmSerializer.AfterSetup` | bot.py:80-82 | setup never changes the channel count; it replaces the rate by the start frame's rate exactly when that value is truthy, and otherwise keeps the state |
| `PcmSerializer.RawPcmSerializer.Setup` | bot.py:80-82 | the fields after `setup` are those `AfterSetup` gives for the old fields |
| `PcmSerializer.RawPcmSerializer.Serialize` | bot.py:84-91 | bytes are returned exactly for audio frames, and they are the frame's audio unchanged; any other frame gives nothing |
| `PcmSerializer.Transition` | bot.py:93-117 | binary data yields an audio frame equal to the payload, tagged with the current state, state unchanged; only a start message changes the state or yields a start frame; a start message takes each present key and keeps each absent one, and its start frame carries the new state; a decoded non-object raises, state unchanged; malformed JSON, a non-start object or another payload kind return nothing |
| `PcmSerializer.RawPcmSerializer.Deserialize` | bot.py:93-117 | the new fields and the outcome are those `Transition` gives for the old fields and the payload |
| `PcmSerializer.Run` | bot.py:93-117 | a sequence of payloads gives one outcome per payload, and a final state different from the initial one only if some payload was a start message |
| `PcmSerializer.NoStartKeepsParams` | bot.py:97-117 | with no start message in a sequence, the state never changes, every binary payload gets an audio frame tagged with that state, and no start frame appears |
| `PcmSerializer.TaggedSinceLastStart` | bot.py:97-114 | after a start message, the state is the one the message negotiated, its start frame carries it, and every binary payload up to the next start message is tagged with it |
| `PcmSerializer.StartThenBinary` | bot.py:97-114 | a start message with rate 8000 and one channel followed by a binary payload gives an audio frame at 8000 Hz, one channel, whatever the earlier state |
| `PcmSerializer.WireRoundTrip` | bot.py:84-102 | the raw-PCM format has no header in either direction: the bytes `serialize` emits for an audio frame are exactly what `deserialize` wraps as audio, tagged with the negotiated parameters |
| `Recording.PaddedValue` | bot.py:45 | a zero-padded field of `strftime` has exactly its width in digits and denotes the number it was made from |
| `Recording.DecimalValue` | bot.py:204 | the decimal text of a port is a non-empty digit string without leading zeros that denotes the port |
| `Recording.ServerNameRoundTrip` | bot.py:204 | the port can be read back from `server_<port>` |
| `Recording.ServerNameInjective` | bot.py:204 | two ports with the same server name are equal |
| `Recording.StrftimeRoundTrip` | bot.py:45 | the `%Y%m%d_%H%M%S` text of a clock reading is 15 characters long and parses back to the same reading |
| `Recording.RecordingNameRoundTrip` | bot.py:44-46 | the server name and the clock reading can be recovered from the file name `<server>_recording_<timestamp>.wav`, even when the server name itself contains `_recording_` |
| `Recording.SaveAudio` | bot.py:42-57 | a file is produced exactly when the buffer is non-empty; it has sample width 2, the given channel count and rate, the buffer as its data, and a name that splits back into the given server name and clock reading |
| `Recording.OnAudioData` | bot.py:202-205 | the dump for a connection is written exactly when audio was captured, with the given parameters and data, and its name identifies the client's port and the clock reading |
| `StreamClient.Offer` | client/python/test_client.py:34-36 | `safe_put` either leaves the queue alone or appends the chunk at the tail; it leaves it alone exactly when the queue is full; it never takes a queue past capacity 100 |
| `StreamClient.BurstAcceptance` | client/python/test_client.py:11-37 | of chunks captured while the sender does not run, exactly the first `min(n, 100 - queued)` are accepted, in order, and the rest are dropped |
| `StreamClient.AudioStream.constructor` | client/python/test_client.py:11 | the streamer starts with an empty queue and empty logs |
| `StreamClient.AudioStream.SafePut` | client/python/test_client.py:34-36 | the queue becomes `Offer` of the old queue; the chunk joins the accepted log exactly when the queue was not full; nothing else changes, and in particular no overflow is reported; the invariant is kept |
| `StreamClient.AudioStream.MicCallback` | client/python/test_client.py:29-37 | an overflow warning is reported exactly when the device flags `input_overflow`, whatever the queue holds; the chunk is then offered to the queue as by `safe_put` |
| `StreamClient.AudioStream.SenderStep` | client/python/test_client.py:17-23 | the sender removes exactly the head chunk and appends it to the sent log, or does nothing while the queue is empty; the sent log followed by the queue stays equal to the accepted log |
| `StreamClient.AudioStream.Sender` | client/python/test_client.py:17-23 | running the sender until it waits sends every queued chunk once, in queue order, and empties the queue |
| `StreamClient.Receive` | client/python/test_client.py:42-50 | the loop is still waiting exactly when no frame ended it; it stops cleanly only because of a clean close; every buffer it plays is non-empty and made of whole 16-bit samples |
| `StreamClient.ReceiveBeforeEnd` | client/python/test_client.py:43-47 | until a frame ends the loop, the loop plays exactly the non-empty binary frames, in arrival order |
| `StreamClient.PlaysFilteredFrames` | client/python/test_client.py:43-47 | on a stream with no close and only whole-sample buffers, what is played equals the frames filtered to binary and non-empty, in order |
| `StreamClient.StopsAtFirstEnd` | client/python/test_client.py:42-54 | the first frame that ends the loop decides how it ends: a clean close ends it normally; a `ConnectionClosedError` or an odd-length buffer raises out of it; exactly the non-empty binary frames before that frame are played, and nothing after it |
| `StreamClient.CleanCloseStops` | client/python/test_client.py:45-50 | a clean close ends the loop normally, and no frame after it is played |
| `StreamClient.AudioStream.ReceiveLoop` | client/python/test_client.py:42-50 | the speaker log grows by exactly what `Receive` plays, the exit is the one `Receive` gives, and the send side is untouched |

## Left out

- Real JSON parsing (`json.loads`): a text payload is given as its decoded value or as `Malformed`. Non-finite floats (`NaN`, `Infinity`) are not among the values represented.
- The `wave` module's byte encoding, its own checks on the channel count and frame rate, the `aiofiles` write and the log lines: the model describes the container by the parameters and data handed to `wave`. The `wave` module is not part of this model.
- `datetime.now()`: the clock reading is a parameter. `%Y` is modelled as four zero-padded digits. For years below 1000 the platform may print fewer digits. Day-of-month validity per month is not checked.
- `websocket_client.client` being `None` (no peer address): the port is taken as a given number.
- Everything in `bot.py` from line 119 on except the server name: the pipeline, the STT/LLM/TTS service clients, VAD, the context aggregators, the runner and the event handlers. These are foreign framework calls and network services. The same goes for what the transport does with an exception raised by `deserialize`. `Run` keeps going after a raise, with the state untouched.
- `server.py`: HTTP and WebSocket routing, with no logic of its own.
- `AudioStream.MicCallback`: the `call_soon_threadsafe` hand-off is modelled as running `safe_put` at once. Other callbacks or sender turns cannot come in between.
- The interleaving of capture, sender and receiver: each is a separate sequential call on the same object, in whatever order a caller chooses.
- `AudioStream.SenderStep`: `websocket.send` is assumed to succeed. A send failure, which ends the sender task and resurfaces when the task is awaited at shutdown, is not modelled. Neither is `queue.task_done()`'s unfinished-task counter, which nothing waits on.
- Task cancellation at shutdown, `CancelledError` and `KeyboardInterrupt` handling, the sounddevice streams, `np.frombuffer`'s decoding of samples (only its failure on an odd-length buffer is modelled), the connection's ping settings and other console output: device I/O and concurrency.
- The argparse command line of the client.
