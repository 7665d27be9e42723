# Audio transcriber: a verified model of its window logic

The repository holds six desktop programs that turn microphone speech
into a running transcript:

- five Python/Tkinter variants:
  - `audio_transcriber.py`, which uses speech_recognition and Google with a Sphinx fallback;
  - `audio_transcriber_fixed.py`, speech_recognition with a microphone picker and a microphone test;
  - `audio_transcriber_vosk.py`, offline Vosk;
  - `audio_transcriber_whisper.py`, the OpenAI Whisper API;
  - `audio_transcriber_whisper_local.py`, a local Whisper model;
- one Java/Swing program, `AudioTranscriberApp.java`.

Every Python variant has the same structure. A worker thread records
and recognises speech and puts `(type, msg)` pairs on a `text_queue`.
The Tk thread polls `process_queue`: a `text` message is appended to
the transcript, a `status` message replaces the status label when the
variant's condition allows it, and an `error` message shows itself and
stops listening. The Start/Stop buttons guard and flip the
`is_listening` flag. Each PyAudio variant filters the enumerated audio
devices down to microphones, shows them as `"[i] name"` and parses the
index back out of the chosen label.

The Dafny project models these parts:

- `Strings`: the Python and Java string operations the programs rely on. These are `lower`, `strip`, `split(c)[0]`, `replace(c, '')`, `int()`, `f"{n}"`, `in` and `indexOf`, and the Java `StringBuilder` that joins the reply's lines.
- `Devices`: the microphone filter of `load_microphones` in both of its forms (PyAudio device records, or speech_recognition names), the combobox label, and the label parse of `start_listening`.
- `Messages`: the queue messages, the window state `process_queue` writes (`Ui`), `start_listening`/`stop_listening` as state transformers, and `Drain`, the fold of one `process_queue` pass over a queue. The per-variant status rule is a parameter.
- `Utterances`: what one pass of each worker loop enqueues, and whether it breaks. The input is the outcome the recogniser produced: text, an exception, or a partial result. The module also covers the Whisper chunk recording loop (`RecordChunk`), the messages before and after the loop, and the `test_mic` thread.
- `Transcriber`: the start guard, the per-variant texts, the model-size table, and the class `Transcriber`. Its fields are the ones the Python handlers update. Its methods are the button handlers, `Listen` (the worker putting a run of passes on the queue) and `ProcessQueue` (a loop proved against `Drain`).
- `JavaApp`: the JSON transcript scan of `recognizeSpeech`, the append rule of `listenContinuously` (proved against `Run`, a fold over the recorded chunks), and the class `App`.

Threads are interleaved method calls:

- A worker thread is `Transcriber.Transcriber.Listen` or `Put`.
- The Tk polling is `ProcessQueue`.
- A Java worker's `invokeLater` updates land in the order they were posted.

Libraries are oracles. What the recogniser returned, which exception
it raised, what `is_listening` read at each check of the recording
loop, and the `time.strftime` timestamp are all parameters.

## Model

| member | source | states |
|---|---|---|
| Strings.IndexOf | AudioTranscriberApp.java:222-223 | Java `indexOf(pat, from)`: the result is -1 or an occurrence at or after `from`, and no occurrence lies between `from` and the result (anywhere past `from` when the result is -1). |
| Strings.IndexOfFindsContains | AudioTranscriberApp.java:221-222 | `indexOf(pat) >= 0` exactly when `contains(pat)`. |
| Strings.ContainsPrefixOf | AudioTranscriberApp.java:221-222 | Wherever a string occurs, its prefixes occur too. |
| Strings.ContainsStart | audio_transcriber_whisper_local.py:319 | A string contains whatever it starts with, so `"Ready" in msg` holds for a message that begins with "Ready". |
| Strings.Lower | audio_transcriber_whisper_local.py:151-152 | `name.lower()` keeps the length and leaves no ASCII capital. Every other character stays where it was, and each capital becomes the letter 32 code points above it. |
| Strings.LowerIdempotent | audio_transcriber_whisper_local.py:151-152 | Lower-casing an already lower-cased name changes nothing. |
| Strings.SpanLeft | audio_transcriber_whisper.py:151 | The leading whitespace run: every character in it is whitespace and the next one is not. |
| Strings.SpanRight | audio_transcriber_whisper.py:151 | The trailing whitespace run, the same way from the end. |
| Strings.Strip | audio_transcriber_whisper.py:151-152 | `strip()` is empty exactly when every character is whitespace. Otherwise it neither starts nor ends with whitespace. A string with no whitespace at either end is unchanged. |
| Strings.StripMiddle | audio_transcriber_whisper.py:151-152 | The input is whitespace, then `strip()`'s result, then whitespace: only the two ends are removed. |
| Strings.BeforeFirst | audio_transcriber_whisper_local.py:208 | `split(']')[0]` is the prefix before the first `]`: it contains no `]`, and the character after it is `]` when the string has one. |
| Strings.RemoveAll | audio_transcriber_whisper_local.py:208 | `replace('[', '')` has no `[`. Counted with multiplicity, it holds the other characters of its input, each as often as the input does. |
| Strings.RemoveAllAppend | audio_transcriber_whisper_local.py:208 | Removal distributes over concatenation, so the characters that remain keep their order. |
| Strings.RemoveAllAbsent | audio_transcriber_whisper_local.py:208 | Removing a character that does not occur changes nothing. |
| Strings.DigitChar | audio_transcriber_whisper_local.py:157 | A digit's character is a decimal digit of that value. |
| Strings.Decimal | audio_transcriber_whisper_local.py:157 | `f"{i}"` is a non-empty run of decimal digits. |
| Strings.DecimalValue | audio_transcriber_whisper_local.py:157 | The digits of `f"{i}"` have value `i`. |
| Strings.ParseDecimal | audio_transcriber_whisper_local.py:208 | `int(f"{i}") == i`: the index written into the label at line 157 parses back to itself. |
| Devices.FilterDevices | audio_transcriber_whisper_local.py:145-153 | The enumeration loop of the PyAudio variants builds exactly `KeptDevices(ds)`. |
| Devices.FilterNames | audio_transcriber_fixed.py:124-128 | The enumeration loop of audio_transcriber_fixed.py builds exactly `KeptNames(names)`. |
| Devices.KeptDevicesMembers | audio_transcriber_whisper_local.py:147-153 | `(i, name)` is kept iff device `i` has that name, at least one input channel, a keyword in its lower-cased name, and neither "output" nor "speaker". The filter of audio_transcriber_whisper.py:131-137 and audio_transcriber_vosk.py:98-104 is the same. |
| Devices.KeptNamesMembers | audio_transcriber_fixed.py:125-128 | `(i, name)` is kept iff the `i`-th name is `name` and it passes the keyword test, with no channel check. |
| Devices.KeptDevicesOrdered | audio_transcriber_whisper_local.py:147-153 | Kept devices have in-range, strictly increasing indices: enumeration order is kept. |
| Devices.KeptNamesOrdered | audio_transcriber_fixed.py:125-128 | The same for the name list. |
| Devices.KeptDevicesFirst | audio_transcriber_whisper_local.py:158-160 | The first kept entry, which becomes `selected_mic_index`, is a qualifying device, and no lower-numbered device qualifies. |
| Devices.KeptDevicesNoneBefore | audio_transcriber_whisper_local.py:147-160 | Every qualifying device's index is at least the first kept one's. |
| Devices.KeptNamesFirst | audio_transcriber_fixed.py:131-133 | The same for audio_transcriber_fixed.py's name list. |
| Devices.KeptNamesNoneBefore | audio_transcriber_fixed.py:125-133 | Every qualifying name's index is at least the first kept one's. |
| Devices.KeptDevicesWithinNames | audio_transcriber_fixed.py:125-128 | Everything the PyAudio filter keeps, the name-only filter keeps too. When every device has an input channel, the two lists are equal. |
| Devices.BeforeFirstOf | audio_transcriber_whisper_local.py:208 | `split(c)[0]` of `a + c + b` is `a` when `a` has no `c`. |
| Devices.LabelRoundTrip | audio_transcriber_whisper_local.py:208 | For every index and every name in a label built as at line 157, even one holding `]` or `[`, `int("[i] name".split(']')[0].replace('[', ''))` is `i`. The same holds at audio_transcriber_whisper.py:141,178, audio_transcriber_fixed.py:130,181 and audio_transcriber_vosk.py:108,170. |
| Messages.Start | audio_transcriber_whisper_local.py:210-214 | After `start_listening` passes its guards the window is listening, the buttons (and combobox) agree with the flag, and the transcript is untouched. The status reads "Status: Listening...". |
| Messages.Stop | audio_transcriber_fixed.py:193-198 | Whatever the prior state, `stop_listening` leaves the flag False and the buttons and combobox consistent, and keeps the transcript. The status reads "Status: Stopped". |
| Messages.TextLinesAppend | audio_transcriber_whisper_local.py:310-325 | The text messages of `a + b` are those of `a` followed by those of `b`. |
| Messages.DrainSnoc | audio_transcriber_whisper_local.py:312-323 | Draining `q + [m]` is draining `q` and then handling `m`. |
| Messages.DrainText | audio_transcriber_whisper_local.py:315-316 | After the queue is drained, the transcript is the old transcript followed by the bodies of the text messages, in FIFO order. Every variant does the same (audio_transcriber.py:172-174, audio_transcriber_whisper.py:293-295, audio_transcriber_fixed.py:241-243, audio_transcriber_vosk.py:244-246). |
| Messages.DrainListening | audio_transcriber_whisper_local.py:321-323 | After a drain the window is still listening iff it was listening before and the queue held no error message. |
| Messages.DrainCoherent | audio_transcriber_whisper_local.py:310-325 | Draining keeps the buttons and combobox in agreement with the flag. |
| Messages.DrainEndingInError | audio_transcriber_whisper_local.py:321-323 | When the last message is an error, listening has stopped and the label reads "Status: Stopped", overwriting the error text. |
| Messages.DrainVariantsAgree | audio_transcriber.py:167-182 | Any two variants' `process_queue`, started from the same window, end with the same transcript, flag and Start/Stop buttons. Their comboboxes also agree unless only one of the variants has a combobox. The status label may differ. |
| Messages.DrainOnlyText | audio_transcriber.py:172-174 | A queue of only `text` messages appends their bodies to the transcript in order and leaves the rest of the window as it was. |
| Messages.StatusRulesNest | audio_transcriber_vosk.py:247-248 | audio_transcriber.py and audio_transcriber_whisper.py have the same status rule, and it is the strictest. The Vosk rule, which always shows the message, is the loosest. |
| Messages.StatusShownWhileListening | audio_transcriber.py:175-177 | While listening, every variant shows a status message as `"Status: " + msg`. |
| Messages.StatusDroppedWhenIdle | audio_transcriber_whisper.py:296-298 | When idle, audio_transcriber.py and audio_transcriber_whisper.py leave the window unchanged on a status message. |
| Messages.ReadyShownWhileIdle | audio_transcriber_whisper_local.py:319-320 | The Vosk and local Whisper variants show the model-ready status their loader enqueues (line 190) even while idle. |
| Utterances.BasicStep | audio_transcriber.py:132-162 | Every pass of audio_transcriber.py starts by enqueueing the Listening status and never breaks the loop. |
| Utterances.FixedStep | audio_transcriber_fixed.py:211-231 | Every pass of audio_transcriber_fixed.py starts by enqueueing the Listening status. |
| Utterances.VoskStep | audio_transcriber_vosk.py:208-223 | A pass of the Vosk loop never breaks it. |
| Utterances.RecordChunk | audio_transcriber_whisper_local.py:254-261 | A chunk holds at most `int(16000 / 1024 * d)` blocks, each read while the flag was up, in stream order. A short chunk means the flag was seen False. The chunk goes on to transcription iff it is full and the check after the loop sees the flag up. The same loop is at audio_transcriber_whisper.py:224-231. |
| Utterances.LocalChunk | audio_transcriber_whisper_local.py:247-261 | A local Whisper pass breaks exactly when the chunk was not recorded. |
| Utterances.CloudChunk | audio_transcriber_whisper.py:217-231 | A cloud Whisper pass breaks exactly when the chunk was not recorded. |
| Utterances.PreambleDrained | audio_transcriber.py:127-130 | What a worker enqueues before its loop is only transcript text, so draining it leaves the flag, the buttons and the status label as they were. The same holds for audio_transcriber_fixed.py:206-209 and the one line at audio_transcriber_vosk.py:206, audio_transcriber_whisper.py:215 and audio_transcriber_whisper_local.py:245. |
| Utterances.WorkerFailed | audio_transcriber_whisper_local.py:307-308 | The worker's outer `except` always enqueues an error message: "Microphone error: …" in audio_transcriber.py:164-165 and audio_transcriber_fixed.py:233-234, "Error: …" in the other three. |
| Utterances.ProducedWithoutBreak | audio_transcriber_fixed.py:211-231 | A run of passes that never breaks enqueues every message of every pass. |
| Utterances.ProducedUpToBreak | audio_transcriber_fixed.py:227-229 | After a `break`, none of the later passes enqueue anything. |
| Utterances.HasErrorAppend | audio_transcriber.py:149 | `a + b` holds an error message iff `a` or `b` does. |
| Utterances.ProducedNoError | audio_transcriber_fixed.py:211-231 | Passes that carry no error message produce none. |
| Utterances.BasicStepOutcome | audio_transcriber.py:143-162 | A pass that heard text adds the one `[ts] text` line, a not-understood pass adds `[Could not understand]`, and a failed `listen` or recognition adds its `[Error: …]` line. |
| Utterances.BasicTimeoutSilent | audio_transcriber.py:159-160 | A `listen` timeout enqueues only the Listening status and adds nothing to the transcript. |
| Utterances.BasicErrorOnlyOnRequestFailure | audio_transcriber.py:146-162 | A pass of audio_transcriber.py enqueues an error message iff `recognize_google` raised RequestError. |
| Utterances.BasicRequestFailureDrained | audio_transcriber.py:148-157 | A RequestError pass, once drained, stops listening and leaves "Status: Stopped". The transcript still gets "Trying offline recognition" and then either the Sphinx line or "[Offline recognition also failed]". |
| Utterances.FixedStepOutcome | audio_transcriber_fixed.py:213-231 | A pass of audio_transcriber_fixed.py breaks iff the request failed and never enqueues an error. It adds exactly one transcript line: the timestamped text, `[?]` when the speech was not understood, the API error line, or `[Error: …]`. |
| Utterances.FixedRunKeepsListening | audio_transcriber_fixed.py:211-231 | For any sequence of recogniser outcomes, one pass each (`FixedSteps`), draining what audio_transcriber_fixed.py's loop enqueues never changes the listening flag. |
| Utterances.VoskStepDrained | audio_transcriber_vosk.py:211-223 | An accepted waveform with text appends exactly its timestamped line and changes nothing else. A partial result never touches the transcript; with text, it shows `🎤 partial...` on the label. A pass enqueues at most one message. |
| Utterances.VoskFinalLines | audio_transcriber_vosk.py:226-230 | After the loop, the final result adds exactly one line when it has text, and none otherwise. |
| Utterances.LocalLinesShape | audio_transcriber_whisper_local.py:283-291 | A transcript that is blank after stripping gives no line. Otherwise there is one line carrying the stripped text, with `[lang]` (defaulting to "unknown") exactly in auto mode. |
| Utterances.CloudLinesShape | audio_transcriber_whisper.py:265-269 | A blank stripped transcript gives no line; otherwise there is exactly one `"[ts] text\n"` line. |
| Utterances.WhisperVariantsAgree | audio_transcriber_whisper.py:217-272 | For a failed transcription the two Whisper variants enqueue the same messages in every language mode (`[Transcription error: …]`, also at audio_transcriber_whisper_local.py:294). For a successful transcript they agree outside auto mode. |
| Utterances.RecordFullChunk | audio_transcriber_whisper_local.py:254-258 | With the flag up throughout, a chunk is recorded in full, with exactly `BlocksPerChunk(d)` blocks. |
| Utterances.BlocksPerChunkRange | audio_transcriber_whisper_local.py:254 | The chunk slider's (line 79) 3 to 10 seconds give 46 to 156 blocks; the default 5 gives 78. |
| Utterances.TestNeverStops | audio_transcriber_fixed.py:152-170 | The `test_mic` thread never enqueues an error, whatever happens. |
| Utterances.TestHeardDrained | audio_transcriber_fixed.py:156-163 | A successful test shows "Status: Test successful!" even while idle, since the status rule at line 245 lets "Test" through. The transcript gets the noise line, the byte count and the recognised text. |
| Transcriber.StartGuards | audio_transcriber_whisper_local.py:199-208 | The guard order of `start_listening`. Listening starts iff: the variant is audio_transcriber.py; or the model or client is present (where the variant needs one), the selection is non-empty, and its index parses. A missing model or client wins over every other check. |
| Transcriber.StartFromLabel | audio_transcriber_vosk.py:161-170 | With the engine ready, a label from the combobox always starts listening, on the device it was made from. |
| Transcriber.ModelInfoKnown | audio_transcriber_whisper_local.py:132-140 | `update_model_info` gives a non-empty description exactly for the five known sizes, and "" for any other. |
| Transcriber.Transcriber.constructor | audio_transcriber_whisper_local.py:20-23 | A new window is idle, with an empty transcript and the variant's initial status (line 108 here). No engine, selection or device is set, the model label shows the "base" description (line 52), and the queue is empty. |
| Transcriber.Transcriber.ShowMicrophones | audio_transcriber_whisper_local.py:157-162 | The combobox holds one label per kept microphone. When there is one, the first is selected and its index recorded, and the count and name are appended to the transcript. Otherwise the selection and transcript are unchanged. |
| Transcriber.Transcriber.LoadMicrophones | audio_transcriber_whisper_local.py:142-162 | `load_microphones` of the PyAudio variants: the same, over `KeptDevices`. Also audio_transcriber_whisper.py:126-146 and audio_transcriber_vosk.py:93-113. |
| Transcriber.Transcriber.LoadMicrophoneNames | audio_transcriber_fixed.py:120-135 | `load_microphones` of audio_transcriber_fixed.py: the same, over `KeptNames`, with the "input microphone(s)" wording. |
| Transcriber.Transcriber.Choose | audio_transcriber_whisper_local.py:66 | Picking a combobox entry changes only the selection. |
| Transcriber.Transcriber.ModelLoaded | audio_transcriber_whisper_local.py:186 | The loader thread sets the model and nothing else. |
| Transcriber.Transcriber.UpdateModelInfo | audio_transcriber_whisper_local.py:132-140 | The model label becomes `ModelInfo(size)`, and nothing else changes. |
| Transcriber.Transcriber.SetApiKey | audio_transcriber_whisper.py:150-166 | A key that is blank after stripping is refused and nothing changes. Any other key becomes the client. The label then reads "validated" and the transcript gets the ready notice when the test call succeeds; otherwise the label reads "Invalid API key" and the client stays set. |
| Transcriber.Transcriber.StartListening | audio_transcriber_whisper_local.py:198-214 | The result follows `StartCheck` on the engine and selection. Once started, the state is `Start` of the old state, `selected_mic_index` is the parsed index, and the window is coherent. At a guard nothing changes. Also audio_transcriber.py:94-98, audio_transcriber_whisper.py:168-184, audio_transcriber_fixed.py:174-187 and audio_transcriber_vosk.py:160-176. |
| Transcriber.Transcriber.SwitchToListening | audio_transcriber_whisper_local.py:210-214 | The post-guard part of `start_listening`: the state becomes `Start` of the old state, and the window is coherent. |
| Transcriber.Transcriber.StopListening | audio_transcriber_whisper_local.py:219-224 | `stop_listening` gives `Stop` of the old state: not listening, "Status: Stopped", coherent. Also audio_transcriber.py:104-108. |
| Transcriber.Transcriber.ClearText | audio_transcriber_whisper_local.py:226-227 | Clear empties the transcript and changes nothing else. |
| Transcriber.Transcriber.TestMic | audio_transcriber_fixed.py:143-150 | Without a selected microphone, `test_mic` changes nothing. Otherwise it appends the testing notice and sets the testing status. |
| Transcriber.Transcriber.Put | audio_transcriber_whisper_local.py:245 | `text_queue.put` appends at the back. |
| Transcriber.Transcriber.Listen | audio_transcriber_whisper_local.py:229-308 | The worker adds, in order: its preamble (`Utterances.Preamble` on a normal start, see `PreambleDrained`); while the flag is up, the messages of its passes up to and including the first that breaks; and its epilogue. The same shape is at audio_transcriber.py:124-165, audio_transcriber_whisper.py:199-286, audio_transcriber_fixed.py:203-234 and audio_transcriber_vosk.py:191-237. |
| Transcriber.Transcriber.ProcessQueue | audio_transcriber_whisper_local.py:310-325 | `process_queue` empties the queue. The new state is `Drain` of the old state over the old queue, and coherence is kept. Also audio_transcriber.py:167-182, audio_transcriber_whisper.py:288-303, audio_transcriber_fixed.py:236-250 and audio_transcriber_vosk.py:239-253. |
| JavaApp.ExtractSound | AudioTranscriberApp.java:221-225 | A transcript the scan returns starts 14 characters after the first `"transcript":"`, is followed by a `"`, is non-empty and contains no `"`. |
| JavaApp.ExtractComplete | AudioTranscriberApp.java:221-225 | Conversely, a first marker followed by non-empty quote-free text and a `"` yields exactly that text. |
| JavaApp.ExtractNeedsMarker | AudioTranscriberApp.java:221-233 | Without `"transcript":"` (for example with a space before the value) the scan gives null. |
| JavaApp.ExtractEmptyValue | AudioTranscriberApp.java:222-224 | `"transcript":""` gives null, because `end > start` fails. |
| JavaApp.ExtractKeyTestRedundant | AudioTranscriberApp.java:221-222 | A reply without `"transcript":` has no `"transcript":"` either, so the `contains` test never decides the outcome alone. |
| JavaApp.RecognizeSpeech | AudioTranscriberApp.java:209-233 | Only a 200 reply can give a transcript, and a returned transcript is non-empty and free of `"`. |
| JavaApp.Appended | AudioTranscriberApp.java:167-170 | The text area grows by `text + " "` when the text is non-null and non-empty, and by nothing otherwise. |
| JavaApp.StartState | AudioTranscriberApp.java:108-112 | `startListening`: listening, Start disabled, Stop enabled, the text kept. |
| JavaApp.StopState | AudioTranscriberApp.java:118-122 | `stopListening`: the reverse. |
| JavaApp.RunText | AudioTranscriberApp.java:145-172 | While listening, the loop adds exactly the appended transcripts of the chunks before the first Stop. |
| JavaApp.RunStops | AudioTranscriberApp.java:145-158 | The loop ends listening iff Stop was pressed, and then the label says "Status: Stopped". Otherwise it ends on "Status: Processing...". |
| JavaApp.RunCoherent | AudioTranscriberApp.java:145-172 | The loop keeps the buttons in agreement with the flag. |
| JavaApp.ListenedErrorsOverwritten | AudioTranscriberApp.java:175-180 | An unsupported line (lines 130-135), or an exception after the chunks, leaves the app not listening. When the app was listening, the label always ends on "Status: Stopped": `stopListening` runs right after the error text is set, and a Stop press also ends on it. An unsupported line keeps the text area. |
| JavaApp.App.constructor | AudioTranscriberApp.java:14 | A new app is idle, with Start enabled, Stop disabled (line 52), "Status: Idle" (line 66) and an empty text area. |
| JavaApp.App.StartListening | AudioTranscriberApp.java:108-116 | The new state is `StartState` of the old one. |
| JavaApp.App.StopListening | AudioTranscriberApp.java:118-124 | The new state is `StopState` of the old one. |
| JavaApp.App.Clear | AudioTranscriberApp.java:59 | Clear sets the text area to "" and changes nothing else. |
| JavaApp.App.ListenContinuously | AudioTranscriberApp.java:126-182 | The loop over the chunks ends in exactly `Listened(old state, …)`, each chunk paired with its Stop press and with what `recognizeSpeech` made of its reply (`Recognized`). `RunText`, `RunStops` and `RunCoherent` above say what that state is. |

## Left out

- Widget layout, colours, fonts, `see(END)`, caret movement and every `messagebox`. Only the state the handlers write is modelled: the flag, buttons, combobox, status text, transcript and selection.
- pyaudio, speech_recognition, Vosk, Whisper/torch, OpenAI and `javax.sound` calls. Their outcomes are parameters: `SrOutcome`, `VoskRead`, `Transcription`, `CloudTranscript`, `TestOutcome`, `Reply`, the device list, and the flag readings of `RecordChunk`.
- Threads, `root.after(100, …)` polling, the Java executor and `volatile`. Concurrency is modelled as interleaved calls of `Listen`/`Put` and `ProcessQueue`. A worker's run is a fixed sequence of passes: the flag is read at the top of each pass, and only the Tk thread changes it.
- Transcriber.Transcriber.Listen: the model takes the first `|steps|` passes; a loop that would run longer is a longer `steps`. It does not model a flag that drops between passes other than through `ProcessQueue`.
- Temp files, WAV writing and unlinking, the HTTP POST to Google, the Vosk model download and unzip. These are I/O. A failure in them reaches the queue only through `WorkerFailed`.
- Energy thresholds, `update_sensitivity`'s `int(float(value))`, the `%.2f` formatting and the Java `currentTimeMillis` three-second loop. These are floating point and timing; formatted energy and noise levels are opaque strings.
- `time.strftime` timestamps and the Java chunk's bytes. These are opaque parameters.
- Strings.Lower: only ASCII letters are lower-cased; Python's full Unicode case mapping is not modelled.
- Strings.ParseInt: no `_` digit separators and no non-ASCII digits in `int()`.
- Utterances.RecordChunk: after an early `break` the model takes the flag to be still False at the check that follows. A Stop-and-restart landing between the two reads is not modelled.
- Transcriber.Transcriber.SetApiKey: an exception from the `OpenAI(...)` constructor itself, which would leave the old client in place, is not modelled. `validates` stands for the outcome of construction plus `models.list()`.
- The `load_model` threads of the Vosk and local Whisper variants: only the model assignment (`ModelLoaded`) and the ready status (`ReadyShownWhileIdle`) are modelled. Their progress text, and the "Loading model" label set before the thread starts, are not.
- The `test_microphone` method of audio_transcriber.py, which lists the microphone names at start-up. It is a listing through the same queue and is not part of this model.
- JavaApp.App.ListenContinuously: an exception is modelled only after the last chunk, not in the middle of the loop.
- test_microphone.py, a console script made of library calls and prints, is not part of this model.
