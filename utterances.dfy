/**
 * What the worker thread of each variant puts on the queue, one pass of
 * its `while self.is_listening` loop at a time.  The recogniser, the
 * microphone stream and `time.strftime` are outside the model: a pass is
 * described by the outcome the libraries produced (which exception was
 * raised, what text came back) and by the timestamp string, and the
 * functions here give the messages that pass enqueues and whether it
 * leaves the loop with `break`.
 */
module Utterances {
  import opened Wrappers
  import opened Strings
  import opened Messages

  /** The messages one pass of a producer loop enqueues, and whether it breaks. */
  datatype Step = Step(msgs: seq<Msg>, stop: bool)

  /** The messages a run of passes enqueues: everything up to and including the first break. */
  function Produced(steps: seq<Step>): seq<Msg> {
    if steps == [] then []
    else steps[0].msgs + (if steps[0].stop then [] else Produced(steps[1..]))
  }

  /** Every message of every pass, the loop never breaking. */
  function AllMessages(steps: seq<Step>): seq<Msg> {
    if steps == [] then [] else steps[0].msgs + AllMessages(steps[1..])
  }

  predicate NoBreak(steps: seq<Step>) {
    forall k :: 0 <= k < |steps| ==> !steps[k].stop
  }

  predicate NoErrorIn(steps: seq<Step>) {
    forall k :: 0 <= k < |steps| ==> !HasError(steps[k].msgs)
  }

  // ---------------------------------------------------------------- strings the loops emit

  const ListeningStatus := "\U{1F3A4} Listening..."
  const ProcessingStatus := "\U{2699}\U{FE0F} Processing..."
  const RecordingStatus := "\U{1F3A4} Recording..."
  const TranscribingStatus := "\U{2699}\U{FE0F} Transcribing..."

  /** `f"[{timestamp}] {text}\n"`. */
  function Line(timestamp: string, text: string): string {
    "[" + timestamp + "] " + text + "\n"
  }

  // ---------------------------------------------------------------- speech_recognition variants

  /** How `recognize_sphinx` ended in audio_transcriber.py's fallback. */
  datatype Fallback = FallbackHeard(timestamp: string, text: string) | FallbackFailed

  /**
   * How one pass of the speech_recognition loop ended: `listen` timed out
   * or raised something else, or `recognize_google` returned text, raised
   * UnknownValueError, RequestError, or something else.
   */
  datatype SrOutcome =
    | Heard(timestamp: string, text: string)
    | NotUnderstood
    | RequestFailed(error: string, fallback: Fallback)
    | ListenTimedOut(error: string)
    | ListenFailed(error: string)
    | RecognizeFailed(error: string)

  /** One pass of `listen_continuously` in audio_transcriber.py. */
  function BasicStep(o: SrOutcome): (s: Step)
    ensures !s.stop
    ensures s.msgs != [] && s.msgs[0] == Status(ListeningStatus)
  {
    var listening := Status(ListeningStatus);
    var processing := Status(ProcessingStatus);
    match o
    case ListenTimedOut(_) => Step([listening], false)
    case ListenFailed(e) => Step([listening, Text("[Error: " + e + "]\n")], false)
    case Heard(ts, text) => Step([listening, processing, Text(Line(ts, text))], false)
    case NotUnderstood => Step([listening, processing, Text("[Could not understand]\n")], false)
    case RequestFailed(e, fb) =>
      var offline := match fb
        case FallbackHeard(ts, text) => Line(ts, text)
        case FallbackFailed => "[Offline recognition also failed]\n";
      Step([listening, processing, Error("API error: " + e),
            Text("\n[Trying offline recognition...]\n"), Text(offline)], false)
    case RecognizeFailed(e) => Step([listening, processing, Text("[Error: " + e + "]\n")], false)
  }

  /** One pass of `listen_continuously` in audio_transcriber_fixed.py. */
  function FixedStep(o: SrOutcome): (s: Step)
    ensures s.msgs != [] && s.msgs[0] == Status(ListeningStatus)
  {
    var listening := Status(ListeningStatus);
    var processing := Status(ProcessingStatus);
    match o
    case ListenTimedOut(e) => Step([listening, Text("[Error: " + e + "]\n")], false)
    case ListenFailed(e) => Step([listening, Text("[Error: " + e + "]\n")], false)
    case Heard(ts, text) => Step([listening, processing, Text(Line(ts, text))], false)
    case NotUnderstood => Step([listening, processing, Text("[?]\n")], false)
    case RequestFailed(e, _) => Step([listening, processing, Text("[API Error: " + e + "]\n")], true)
    case RecognizeFailed(e) => Step([listening, processing, Text("[Error: " + e + "]\n")], false)
  }

  /** The line a pass of audio_transcriber_fixed.py adds to the transcript. */
  function FixedLine(o: SrOutcome): string {
    match o
    case ListenTimedOut(e) => "[Error: " + e + "]\n"
    case ListenFailed(e) => "[Error: " + e + "]\n"
    case Heard(ts, text) => Line(ts, text)
    case NotUnderstood => "[?]\n"
    case RequestFailed(e, _) => "[API Error: " + e + "]\n"
    case RecognizeFailed(e) => "[Error: " + e + "]\n"
  }

  // ---------------------------------------------------------------- Vosk

  /** What one `AcceptWaveform` pass of the Vosk loop read back from the recogniser. */
  datatype VoskRead = Accepted(text: string, timestamp: string) | Partial(partial: string)

  /** One pass of the Vosk loop. */
  function VoskStep(r: VoskRead): (s: Step)
    ensures !s.stop
  {
    match r
    case Accepted(text, ts) => Step(if text != "" then [Text(Line(ts, text))] else [], false)
    case Partial(p) => Step(if p != "" then [Status("\U{1F3A4} " + p + "...")] else [], false)
  }

  /** What the Vosk worker enqueues from `FinalResult` once its loop has ended. */
  function VoskFinal(text: string, timestamp: string): seq<Msg> {
    if text != "" then [Text(Line(timestamp, text))] else []
  }

  // ---------------------------------------------------------------- Whisper

  /** `int(RATE / CHUNK * chunk_duration)` with RATE 16000 and CHUNK 1024. */
  function BlocksPerChunk(duration: nat): nat {
    16000 * duration / 1024
  }

  /** The `k`-th reading of `is_listening` during a chunk; a missing one reads False. */
  predicate Observed(flags: seq<bool>, k: nat) {
    k < |flags| && flags[k]
  }

  /**
   * The recording of one chunk in either Whisper variant: up to
   * `BlocksPerChunk(duration)` blocks are read from the stream, the loop
   * leaving early at the first reading of `is_listening` that is False;
   * `recorded` is the test after the loop, which lets the chunk go on to
   * transcription.  `flags[k]` is what the `k`-th reading of the flag saw,
   * the last one being the test after the loop.
   */
  method RecordChunk<T>(duration: nat, flags: seq<bool>, read: nat -> T) returns (frames: seq<T>, recorded: bool)
    ensures |frames| <= BlocksPerChunk(duration)
    ensures forall k :: 0 <= k < |frames| ==> frames[k] == read(k) && Observed(flags, k)
    ensures |frames| < BlocksPerChunk(duration) ==> !Observed(flags, |frames|)
    ensures recorded <==> |frames| == BlocksPerChunk(duration) && Observed(flags, |frames|)
  {
    var n := BlocksPerChunk(duration);
    frames := [];
    var i := 0;
    var broke := false;
    while i < n
      invariant 0 <= i <= n
      invariant |frames| == i
      invariant forall k :: 0 <= k < i ==> frames[k] == read(k) && Observed(flags, k)
      invariant broke ==> i < n && !Observed(flags, i)
    {
      if !Observed(flags, i) {
        broke := true;
        break;
      }
      frames := frames + [read(i)];
      i := i + 1;
    }
    // After a break the flag is read again; it is still False then.
    recorded := !broke && Observed(flags, i);
  }

  /** The result of `model.transcribe` in the local variant; a raised exception is TranscribeFailed. */
  datatype Transcription = Transcribed(text: string, language: Option<string>) | TranscribeFailed(error: string)

  /** The result of the OpenAI transcription call in the cloud variant. */
  datatype CloudTranscript = Transcript(text: string) | TranscriptFailed(error: string)

  /** `result.get("language", "unknown")`. */
  function DetectedLanguage(lang: Option<string>): string {
    if lang.Some? then lang.value else "unknown"
  }

  /** The text message the local variant enqueues for a transcribed chunk, if any. */
  function LocalLines(language: string, t: Transcription, timestamp: string): seq<Msg> {
    match t
    case TranscribeFailed(e) => [Text("[Transcription error: " + e + "]\n")]
    case Transcribed(raw, detected) =>
      var text := Strip(raw);
      if text == "" then []
      else if language == "auto" then [Text("[" + timestamp + "] [" + DetectedLanguage(detected) + "] " + text + "\n")]
      else [Text(Line(timestamp, text))]
  }

  /** The text message the cloud variant enqueues for a transcribed chunk, if any. */
  function CloudLines(t: CloudTranscript, timestamp: string): seq<Msg> {
    match t
    case TranscriptFailed(e) => [Text("[Transcription error: " + e + "]\n")]
    case Transcript(raw) =>
      var text := Strip(raw);
      if text == "" then [] else [Text(Line(timestamp, text))]
  }

  /** One pass of the local Whisper loop, given the outcome of `RecordChunk`. */
  function LocalChunk(recorded: bool, language: string, t: Transcription, timestamp: string): (s: Step)
    ensures s.stop <==> !recorded
  {
    if !recorded then Step([Status(RecordingStatus)], true)
    else Step([Status(RecordingStatus), Status(TranscribingStatus)] + LocalLines(language, t, timestamp), false)
  }

  /** One pass of the cloud Whisper loop, given the outcome of `RecordChunk`. */
  function CloudChunk(recorded: bool, t: CloudTranscript, timestamp: string): (s: Step)
    ensures s.stop <==> !recorded
  {
    if !recorded then Step([Status(RecordingStatus)], true)
    else Step([Status(RecordingStatus), Status(TranscribingStatus)] + CloudLines(t, timestamp), false)
  }

  // ---------------------------------------------------------------- around the loop

  /** What a worker enqueues before its loop; `energy` is the formatted energy threshold. */
  function Preamble(v: Variant, energy: string): seq<Msg> {
    match v
    case Basic =>
      [Text("[Adjusting for ambient noise... Please wait]\n"),
       Text("[Energy threshold set to: " + energy + "]\n"),
       Text("[Ready! Start speaking...]\n\n")]
    case Fixed =>
      [Text("[Adjusting for ambient noise...]\n"),
       Text("[Energy threshold: " + energy + "]\n"),
       Text("[Ready! Start speaking...]\n\n")]
    case _ => [Text("[Listening... Speak now!]\n\n")]
  }

  /**
   * What a worker puts on the queue before its loop is only transcript
   * text: draining it leaves the flag, the buttons and the status label
   * as they were, and the transcript gains the lines in order.
   */
  lemma PreambleDrained(v: Variant, u: Ui, energy: string)
    ensures |Preamble(v, energy)| >= 1 && !HasError(Preamble(v, energy))
    ensures Drain(v, u, Preamble(v, energy))
            == u.(text := u.text + Concat(TextLines(Preamble(v, energy))))
  {
    DrainOnlyText(v, u, Preamble(v, energy));
  }

  /** The message a worker's outer `except` enqueues when the microphone fails. */
  function WorkerFailed(v: Variant, e: string): (m: Msg)
    ensures m.Error?
  {
    if v.Basic? || v.Fixed? then Error("Microphone error: " + e) else Error("Error: " + e)
  }

  // ---------------------------------------------------------------- the microphone test

  /** How the `test_mic` thread of audio_transcriber_fixed.py got on. */
  datatype TestOutcome =
    | TestOpenFailed(error: string)
    | TestTimedOut(noise: string)
    | TestListenFailed(noise: string, error: string)
    | TestNotRecognized(noise: string, bytes: nat, error: string)
    | TestHeard(noise: string, bytes: nat, text: string)

  const TestSucceeded := "Test successful!"

  function NoiseLine(noise: string): Msg {
    Text("[Ambient noise level: " + noise + "]\n")
  }

  function RecordedLine(bytes: nat): Msg {
    Text("[Recorded " + Decimal(bytes) + " bytes]\n")
  }

  function SuccessLine(text: string): string {
    "[TEST SUCCESS] You said: '" + text + "'\n\n"
  }

  /** The messages the test thread enqueues. */
  function TestMessages(o: TestOutcome): seq<Msg> {
    match o
    case TestOpenFailed(e) => [Text("[TEST ERROR] " + e + "\n\n")]
    case TestTimedOut(noise) =>
      [NoiseLine(noise),
       Text("[TEST FAILED] No speech detected. Try:\n"),
       Text("  1. Speak louder\n"),
       Text("  2. Lower the sensitivity slider\n"),
       Text("  3. Select a different microphone\n\n")]
    case TestListenFailed(noise, e) => [NoiseLine(noise), Text("[TEST ERROR] " + e + "\n\n")]
    case TestNotRecognized(noise, bytes, e) =>
      [NoiseLine(noise), RecordedLine(bytes), Text("[TEST ERROR] " + e + "\n\n")]
    case TestHeard(noise, bytes, text) =>
      [NoiseLine(noise), RecordedLine(bytes),
       Text(SuccessLine(text)), Status(TestSucceeded)]
  }

  // ================================================================ lemmas

  // ---------------------------------------------------------------- runs of passes

  /** A run that never breaks enqueues every message of every pass. */
  lemma {:induction false} ProducedWithoutBreak(steps: seq<Step>)
    requires NoBreak(steps)
    ensures Produced(steps) == AllMessages(steps)
  {
    if steps != [] {
      ProducedWithoutBreak(steps[1..]);
    }
  }

  /** A break ends the run: nothing from the passes after it is enqueued. */
  lemma {:induction false} ProducedUpToBreak(before: seq<Step>, s: Step, after: seq<Step>)
    requires NoBreak(before) && s.stop
    ensures Produced(before + [s] + after) == AllMessages(before) + s.msgs
  {
    if before == [] {
      assert before + [s] + after == [s] + after;
    } else {
      assert (before + [s] + after)[1..] == before[1..] + [s] + after;
      ProducedUpToBreak(before[1..], s, after);
    }
  }

  lemma HasErrorAppend(a: seq<Msg>, b: seq<Msg>)
    ensures HasError(a + b) <==> HasError(a) || HasError(b)
  {
    if HasError(a + b) {
      var i :| 0 <= i < |a + b| && (a + b)[i].Error?;
      if i >= |a| {
        assert b[i - |a|].Error?;
      }
    }
    if HasError(a) {
      var i :| 0 <= i < |a| && a[i].Error?;
      assert (a + b)[i].Error?;
    }
    if HasError(b) {
      var i :| 0 <= i < |b| && b[i].Error?;
      assert (a + b)[|a| + i].Error?;
    }
  }

  /** A run whose passes carry no error message enqueues none. */
  lemma {:induction false} ProducedNoError(steps: seq<Step>)
    requires NoErrorIn(steps)
    ensures !HasError(Produced(steps))
  {
    if steps != [] {
      ProducedNoError(steps[1..]);
      if steps[0].stop {
        assert Produced(steps) == steps[0].msgs + [];
      }
      HasErrorAppend(steps[0].msgs, if steps[0].stop then [] else Produced(steps[1..]));
    }
  }

  // ---------------------------------------------------------------- audio_transcriber.py

  /**
   * A timed-out `listen` only refreshes the status: the transcript gets
   * nothing and the pass is followed by the next one.
   */
  lemma BasicTimeoutSilent(e: string)
    ensures TextLines(BasicStep(ListenTimedOut(e)).msgs) == []
    ensures BasicStep(ListenTimedOut(e)).msgs == [Status(ListeningStatus)]
  {
  }

  /** Only a RequestError makes a pass of audio_transcriber.py enqueue an error. */
  lemma BasicErrorOnlyOnRequestFailure(o: SrOutcome)
    ensures HasError(BasicStep(o).msgs) <==> o.RequestFailed?
  {
    var msgs := BasicStep(o).msgs;
    if o.RequestFailed? {
      assert msgs[2].Error?;
    }
  }

  /**
   * A RequestError stops listening once the queue is drained, yet the
   * fallback recogniser's line still reaches the transcript after the
   * "Trying offline" notice.
   */
  lemma {:induction false} BasicRequestFailureDrained(v: Variant, u: Ui, e: string, fb: Fallback)
    ensures !Drain(v, u, BasicStep(RequestFailed(e, fb)).msgs).listening
    ensures Drain(v, u, BasicStep(RequestFailed(e, fb)).msgs).status == "Status: Stopped"
    ensures Drain(v, u, BasicStep(RequestFailed(e, fb)).msgs).text
            == u.text + "\n[Trying offline recognition...]\n"
               + (if fb.FallbackHeard? then Line(fb.timestamp, fb.text) else "[Offline recognition also failed]\n")
  {
    var msgs := BasicStep(RequestFailed(e, fb)).msgs;
    var u1 := Handle(v, u, msgs[0]);
    var u2 := Handle(v, u1, msgs[1]);
    var u3 := Handle(v, u2, msgs[2]);
    var u4 := Handle(v, u3, msgs[3]);
    var u5 := Handle(v, u4, msgs[4]);
    assert msgs[0..] == msgs;
    DrainFrom(v, u, msgs, 0);
    DrainFrom(v, u1, msgs, 1);
    DrainFrom(v, u2, msgs, 2);
    DrainFrom(v, u3, msgs, 3);
    DrainFrom(v, u4, msgs, 4);
    assert msgs[5..] == [];
    assert Drain(v, u, msgs) == u5;
  }

  // ---------------------------------------------------------------- audio_transcriber_fixed.py

  /**
   * A pass of audio_transcriber_fixed.py breaks exactly on a RequestError,
   * never enqueues an error message, and adds exactly one line to the
   * transcript: `[?]` when nothing was understood, the API error line when
   * the request failed, the timestamped text when speech was heard.
   */
  /**
   * What each outcome of an audio_transcriber.py pass adds to the
   * transcript: one timestamped line for heard text, the not-understood
   * notice, or the error line.
   */
  lemma BasicStepOutcome(o: SrOutcome)
    ensures o.Heard? ==> TextLines(BasicStep(o).msgs) == [Line(o.timestamp, o.text)]
    ensures o.NotUnderstood? ==> TextLines(BasicStep(o).msgs) == ["[Could not understand]\n"]
    ensures o.ListenFailed? || o.RecognizeFailed? ==>
              TextLines(BasicStep(o).msgs) == ["[Error: " + o.error + "]\n"]
  {
    var msgs := BasicStep(o).msgs;
    if o.Heard? || o.NotUnderstood? || o.RecognizeFailed? {
      assert msgs[0..] == msgs;
      TextLinesFrom(msgs, 0);
      TextLinesFrom(msgs, 1);
      TextLinesFrom(msgs, 2);
      assert msgs[3..] == [];
    } else if o.ListenFailed? {
      assert msgs[0..] == msgs;
      TextLinesFrom(msgs, 0);
      TextLinesFrom(msgs, 1);
      assert msgs[2..] == [];
    }
  }

  lemma FixedStepOutcome(o: SrOutcome)
    ensures FixedStep(o).stop <==> o.RequestFailed?
    ensures !HasError(FixedStep(o).msgs)
    ensures TextLines(FixedStep(o).msgs) == [FixedLine(o)]
    ensures o.NotUnderstood? ==> FixedLine(o) == "[?]\n"
  {
    var msgs := FixedStep(o).msgs;
    assert msgs[0..] == msgs;
    TextLinesFrom(msgs, 0);
    TextLinesFrom(msgs, 1);
    if |msgs| == 2 {
      assert msgs[2..] == [];
    } else {
      TextLinesFrom(msgs, 2);
      assert msgs[3..] == [];
    }
  }

  function FixedSteps(os: seq<SrOutcome>): (steps: seq<Step>)
    ensures |steps| == |os| && forall k :: 0 <= k < |os| ==> steps[k] == FixedStep(os[k])
  {
    seq(|os|, k requires 0 <= k < |os| => FixedStep(os[k]))
  }

  /**
   * However many passes audio_transcriber_fixed.py runs, draining what they
   * enqueued never changes the listening flag: its loop reports failures
   * as text, and only the outer microphone error stops it.
   */
  lemma FixedRunKeepsListening(v: Variant, u: Ui, os: seq<SrOutcome>)
    ensures Drain(v, u, Produced(FixedSteps(os))).listening == u.listening
  {
    var steps := FixedSteps(os);
    forall k | 0 <= k < |steps|
      ensures !HasError(steps[k].msgs)
    {
      FixedStepOutcome(os[k]);
    }
    ProducedNoError(steps);
    DrainListening(v, u, Produced(steps));
  }

  // ---------------------------------------------------------------- Vosk

  /**
   * An accepted waveform with text appends exactly its timestamped line and
   * leaves the status alone; a partial result never touches the transcript
   * and, with text, always shows itself on the label.
   */
  lemma {:induction false} VoskStepDrained(u: Ui, r: VoskRead)
    ensures r.Accepted? && r.text != "" ==>
              Drain(Vosk, u, VoskStep(r).msgs) == u.(text := u.text + Line(r.timestamp, r.text))
    ensures r.Partial? ==> Drain(Vosk, u, VoskStep(r).msgs).text == u.text
    ensures r.Partial? && r.partial != "" ==>
              Drain(Vosk, u, VoskStep(r).msgs).status == "Status: \U{1F3A4} " + r.partial + "..."
    ensures |VoskStep(r).msgs| <= 1
  {
    var msgs := VoskStep(r).msgs;
    if msgs != [] {
      assert msgs[1..] == [];
    }
  }

  /** The final result adds exactly one line when it has text, and none otherwise. */
  lemma VoskFinalLines(text: string, timestamp: string)
    ensures TextLines(VoskFinal(text, timestamp)) == (if text != "" then [Line(timestamp, text)] else [])
  {
    var msgs := VoskFinal(text, timestamp);
    if msgs != [] {
      assert msgs[1..] == [];
    }
  }

  // ---------------------------------------------------------------- Whisper

  /**
   * A transcript that is blank after stripping gives no line; any other
   * gives exactly one, whose text part is the stripped transcript.  In the
   * local variant the `[lang]` tag is there exactly in auto mode.
   */
  lemma LocalLinesShape(language: string, raw: string, detected: Option<string>, timestamp: string)
    ensures LocalLines(language, Transcribed(raw, detected), timestamp) == [] <==> Strip(raw) == ""
    ensures Strip(raw) != "" && language == "auto" ==>
              LocalLines(language, Transcribed(raw, detected), timestamp)
              == [Text("[" + timestamp + "] [" + DetectedLanguage(detected) + "] " + Strip(raw) + "\n")]
    ensures Strip(raw) != "" && language != "auto" ==>
              LocalLines(language, Transcribed(raw, detected), timestamp) == [Text(Line(timestamp, Strip(raw)))]
  {
  }

  lemma CloudLinesShape(raw: string, timestamp: string)
    ensures CloudLines(Transcript(raw), timestamp) == [] <==> Strip(raw) == ""
    ensures Strip(raw) != "" ==> CloudLines(Transcript(raw), timestamp) == [Text(Line(timestamp, Strip(raw)))]
  {
  }

  /**
   * The two Whisper variants enqueue the same messages for a chunk whose
   * transcription failed, in every language mode, and for a successful
   * transcript outside auto mode.
   */
  lemma WhisperVariantsAgree(recorded: bool, language: string, raw: string, detected: Option<string>,
                             e: string, timestamp: string)
    ensures language != "auto" ==>
              LocalChunk(recorded, language, Transcribed(raw, detected), timestamp)
              == CloudChunk(recorded, Transcript(raw), timestamp)
    ensures LocalChunk(recorded, language, TranscribeFailed(e), timestamp)
            == CloudChunk(recorded, TranscriptFailed(e), timestamp)
  {
  }

  /**
   * A chunk recorded in full with the flag up throughout goes on to
   * transcription and holds exactly the blocks of `BlocksPerChunk`.
   */
  method RecordFullChunk<T>(duration: nat, read: nat -> T) returns (frames: seq<T>, recorded: bool)
    ensures recorded && |frames| == BlocksPerChunk(duration)
    ensures forall k :: 0 <= k < |frames| ==> frames[k] == read(k)
  {
    var flags := seq(BlocksPerChunk(duration) + 1, _ => true);
    frames, recorded := RecordChunk(duration, flags, read);
  }

  /** Three to ten seconds of recording: 46 to 156 blocks of 1024 samples. */
  lemma BlocksPerChunkRange(duration: nat)
    requires 3 <= duration <= 10
    ensures 46 <= BlocksPerChunk(duration) <= 156
    ensures BlocksPerChunk(5) == 78
  {
  }

  // ---------------------------------------------------------------- the microphone test

  /** The test thread never enqueues an error, so it never stops listening. */
  lemma TestNeverStops(o: TestOutcome)
    ensures !HasError(TestMessages(o))
  {
  }

  /**
   * A successful test shows its result on the label even while idle and
   * reports the recognised text in the transcript.
   */
  lemma TestHeardDrained(u: Ui, noise: string, bytes: nat, text: string)
    ensures Drain(Fixed, u, TestMessages(TestHeard(noise, bytes, text))).status == "Status: " + TestSucceeded
    ensures Drain(Fixed, u, TestMessages(TestHeard(noise, bytes, text))).text
            == u.text + NoiseLine(noise).body + RecordedLine(bytes).body + SuccessLine(text)
  {
    var msgs := TestMessages(TestHeard(noise, bytes, text));
    assert OccursAt(TestSucceeded, "Test", 0);
    var u1 := Handle(Fixed, u, msgs[0]);
    var u2 := Handle(Fixed, u1, msgs[1]);
    var u3 := Handle(Fixed, u2, msgs[2]);
    assert msgs[0..] == msgs;
    DrainFrom(Fixed, u, msgs, 0);
    DrainFrom(Fixed, u1, msgs, 1);
    DrainFrom(Fixed, u2, msgs, 2);
    DrainFrom(Fixed, u3, msgs, 3);
    assert msgs[4..] == [];
    assert u3.text == u.text + NoiseLine(noise).body + RecordedLine(bytes).body + SuccessLine(text);
  }
}
